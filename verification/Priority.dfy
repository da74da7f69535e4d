/**
 Sharing a priority among the task queues of an entity. Reals stand for
 floats, and the text by which queues are grouped is an arbitrary function of
 the fields that are not ignored.
 */
module Priority {
  import opened Basics

  const TQ_MIN_SHARE := 0.001
  const IGNORED := {"Jobs", "Priority", "Sites", "BannedSites"}

  type Weights = map<int, real>
  type Fields = map<string, string>
  type Rows = seq<(int, Fields)>
  type Hash = Fields -> string

  datatype Error = DivisionByZero | UnknownQueue

  // Taking the last element off again.
  lemma Snoc<T>(s: seq<T>, x: T)
    ensures (s + [x])[..|s + [x]| - 1] == s && (s + [x])[|s + [x]| - 1] == x
  {
  }

  lemma OneLonger<T>(s: seq<T>, n: nat)
    requires n < |s|
    ensures s[..n + 1] == s[..n] + [s[n]] && s[..n + 1][..n] == s[..n]
  {
  }

  predicate Distinct(ids: seq<int>) { forall i, j :: 0 <= i < j < |ids| ==> ids[i] != ids[j] }

  predicate DistinctRows(rows: Rows) { forall i, j :: 0 <= i < j < |rows| ==> rows[i].0 != rows[j].0 }

  predicate IsBackground(p: real, allow: bool) { p <= 0.1 && allow }

  // ------------------------------------------------------------------
  // What is computed
  // ------------------------------------------------------------------

  function Sum(ids: seq<int>, w: Weights): real
    requires AllIn(ids, w)
  {
    if ids == [] then 0.0
    else
      var last := ids[|ids| - 1];
      assert last in ids;
      Sum(ids[..|ids| - 1], w) + w[last]
  }

  // The queues that are not in the background, in order.
  function Foreground(ids: seq<int>, w: Weights, allow: bool): (r: seq<int>)
    requires AllIn(ids, w)
    ensures forall id :: id in r <==> id in ids && !IsBackground(w[id], allow)
    ensures AllIn(r, w) && |r| <= |ids|
  {
    if ids == [] then []
    else
      var rest := Foreground(ids[..|ids| - 1], w, allow);
      var last := ids[|ids| - 1];
      if IsBackground(w[last], allow) then rest else rest + [last]
  }

  function Max(a: real, b: real): real { if a >= b then a else b }

  function Shared(p: real, share: real, total: real, allow: bool): real {
    if IsBackground(p, allow) || total == 0.0 then TQ_MIN_SHARE else Max(Portion(p, share, total), TQ_MIN_SHARE)
  }

  function Portion(p: real, share: real, total: real): real
    requires total != 0.0
  {
    (share / total) * p
  }

  ghost function Distribute(w: Weights, share: real, total: real, allow: bool): Weights {
    map id | id in w :: Shared(w[id], share, total, allow)
  }

  function HashOf(row: (int, Fields), hash: Hash): string { hash(row.1 - IGNORED) }

  // The ids of the rows with hash `h`, in order.
  function Members(rows: Rows, hash: Hash, h: string): (r: seq<int>)
    ensures forall id :: id in r <==> exists i :: 0 <= i < |rows| && rows[i].0 == id && HashOf(rows[i], hash) == h
  {
    if rows == [] then []
    else
      var last := rows[|rows| - 1];
      var rest := Members(rows[..|rows| - 1], hash, h);
      assert forall i :: 0 <= i < |rows| - 1 ==> rows[..|rows| - 1][i] == rows[i];
      if HashOf(last, hash) == h then rest + [last.0] else rest
  }

  predicate AllIn(ids: seq<int>, w: Weights) { forall i :: 0 <= i < |ids| ==> ids[i] in w }

  predicate Known(rows: Rows, w: Weights) { forall i :: 0 <= i < |rows| ==> rows[i].0 in w }

  // Every member of a group gets the sum of the group.
  ghost predicate Grouped(rows: Rows, hash: Hash, before: Weights, after: Weights)
    requires Known(rows, before)
  {
    && after.Keys == before.Keys
    && (forall i :: 0 <= i < |rows| ==>
          && AllIn(Members(rows, hash, HashOf(rows[i], hash)), before)
          && after[rows[i].0] == Sum(Members(rows, hash, HashOf(rows[i], hash)), before))
    && (forall id :: id in before && (forall i :: 0 <= i < |rows| ==> rows[i].0 != id) ==> after[id] == before[id])
  }

  // The queues that end with priority `p`, in order.
  function With(ids: seq<int>, w: Weights, p: real): (r: seq<int>)
    requires AllIn(ids, w)
    ensures forall id :: id in r <==> id in ids && w[id] == p
  {
    if ids == [] then []
    else
      var rest := With(ids[..|ids| - 1], w, p);
      var last := ids[|ids| - 1];
      if w[last] == p then rest + [last] else rest
  }

  ghost predicate ByPriority(ids: seq<int>, w: Weights, result: map<real, seq<int>>)
    requires AllIn(ids, w)
  {
    (forall p :: p in result <==> With(ids, w, p) != [])
    && (forall p :: p in result ==> result[p] == With(ids, w, p))
  }

  // ------------------------------------------------------------------
  // calculate_priority
  // ------------------------------------------------------------------

  ghost predicate Divides(ids: seq<int>, w: Weights, allow: bool)
    requires AllIn(ids, w)
  {
    var foreground := Foreground(ids, w, allow);
    foreground == [] || Sum(foreground, w) != 0.0
  }

  method CalculatePriority(ids: seq<int>, w: Weights, rows: Rows, share: real, allow: bool, hash: Hash)
    returns (r: Result<map<real, seq<int>>, Error>, ghost final: Weights)
    requires Distinct(ids) && w.Keys == (set id | id in ids)
    requires DistinctRows(rows)
    ensures r.Ok? <==> Divides(ids, w, allow) && Known(rows, w)
    ensures r == Err(DivisionByZero) <==> !Divides(ids, w, allow)
    ensures r.Ok? ==>
      Grouped(rows, hash, Distribute(w, share, Sum(Foreground(ids, w, allow), w), allow), final)
    ensures r.Ok? ==> ByPriority(ids, final, r.value)
  {
    var total := Total(ids, w, allow);
    var divided := Divide(ids, w, share, total, allow);
    final := w;
    if divided.Err? { return Err(divided.error), w; }
    var groups := GroupRows(rows, hash);
    var grouped := GroupSums(rows, hash, groups, divided.value);
    if grouped.Err? { return Err(grouped.error), w; }
    final := grouped.value;
    var result := Invert(ids, grouped.value);
    return Ok(result), final;
  }

  method Total(ids: seq<int>, w: Weights, allow: bool) returns (total: real)
    requires AllIn(ids, w)
    ensures total == Sum(Foreground(ids, w, allow), w)
  {
    total := 0.0;
    for i := 0 to |ids|
      invariant total == TotalOf(ids, w, allow, i)
    {
      OneMoreTotal(ids, w, allow, i);
      if !IsBackground(w[ids[i]], allow) { total := total + w[ids[i]]; }
    }
    assert ids[..|ids|] == ids;
  }

  // The sum over the foreground queues among the first n.
  function TotalOf(ids: seq<int>, w: Weights, allow: bool, n: nat): real
    requires AllIn(ids, w) && n <= |ids|
  {
    Sum(Foreground(ids[..n], w, allow), w)
  }

  lemma OneMoreTotal(ids: seq<int>, w: Weights, allow: bool, n: nat)
    requires AllIn(ids, w) && n < |ids|
    ensures TotalOf(ids, w, allow, n + 1)
         == TotalOf(ids, w, allow, n) + (if IsBackground(w[ids[n]], allow) then 0.0 else w[ids[n]])
  {
    OneLonger(ids, n);
    assert ids[n] in ids;
    Snoc(Foreground(ids[..n], w, allow), ids[n]);
  }

  // The new priority of each queue before grouping.
  method Divide(ids: seq<int>, w: Weights, share: real, total: real, allow: bool) returns (r: Result<Weights, Error>)
    requires Distinct(ids) && w.Keys == (set id | id in ids)
    ensures r.Err? <==> total == 0.0 && exists id :: id in ids && !IsBackground(w[id], allow)
    ensures r.Err? ==> r.error == DivisionByZero
    ensures r.Ok? ==> r.value == Distribute(w, share, total, allow)
  {
    var current := w;
    for i := 0 to |ids|
      invariant current.Keys == w.Keys
      invariant forall j :: 0 <= j < i ==> current[ids[j]] == Shared(w[ids[j]], share, total, allow)
      invariant forall j :: i <= j < |ids| ==> current[ids[j]] == w[ids[j]]
      invariant total == 0.0 ==> forall j :: 0 <= j < i ==> IsBackground(w[ids[j]], allow)
    {
      var p := current[ids[i]];
      assert p == w[ids[i]];
      var next := TQ_MIN_SHARE;
      if !IsBackground(p, allow) {
        if total == 0.0 {
          assert ids[i] in ids;
          return Err(DivisionByZero);
        }
        next := Max(Portion(p, share, total), TQ_MIN_SHARE);
      }
      assert next == Shared(p, share, total, allow);
      current := current[ids[i] := next];
    }
    assert current == Distribute(w, share, total, allow);
    return Ok(current);
  }

  method GroupRows(rows: Rows, hash: Hash) returns (groups: map<string, seq<int>>)
    ensures forall i :: 0 <= i < |rows| ==> HashOf(rows[i], hash) in groups
    ensures forall h :: h in groups ==> groups[h] == Members(rows, hash, h) != []
  {
    groups := map[];
    for i := 0 to |rows|
      invariant Collects(rows, hash, i, groups)
    {
      MoreCollected(rows, hash, i, groups);
      var h := HashOf(rows[i], hash);
      groups := groups[h := (if h in groups then groups[h] else []) + [rows[i].0]];
    }
    AllCollected(rows, hash, groups);
  }

  // The groups of the first n rows.
  ghost predicate Collects(rows: Rows, hash: Hash, n: nat, groups: map<string, seq<int>>)
    requires n <= |rows|
  {
    && (forall h :: h !in groups ==> Members(rows[..n], hash, h) == [])
    && (forall h :: h in groups ==> groups[h] == Members(rows[..n], hash, h) != [])
  }

  lemma MoreCollected(rows: Rows, hash: Hash, n: nat, groups: map<string, seq<int>>)
    requires n < |rows| && Collects(rows, hash, n, groups)
    ensures var h := HashOf(rows[n], hash);
            Collects(rows, hash, n + 1, groups[h := (if h in groups then groups[h] else []) + [rows[n].0]])
  {
    var h := HashOf(rows[n], hash);
    var next := groups[h := (if h in groups then groups[h] else []) + [rows[n].0]];
    forall k
      ensures k !in next ==> Members(rows[..n + 1], hash, k) == []
      ensures k in next ==> next[k] == Members(rows[..n + 1], hash, k) != []
    {
      OneMoreMember(rows, hash, n, k);
    }
  }

  lemma AllCollected(rows: Rows, hash: Hash, groups: map<string, seq<int>>)
    requires Collects(rows, hash, |rows|, groups)
    ensures forall i :: 0 <= i < |rows| ==> HashOf(rows[i], hash) in groups
    ensures forall h :: h in groups ==> groups[h] == Members(rows, hash, h) != []
  {
    assert rows[..|rows|] == rows;
    forall i | 0 <= i < |rows| ensures HashOf(rows[i], hash) in groups {
      assert rows[i].0 in Members(rows, hash, HashOf(rows[i], hash));
    }
  }

  lemma OneMoreMember(rows: Rows, hash: Hash, n: nat, h: string)
    requires n < |rows|
    ensures Members(rows[..n + 1], hash, h)
         == Members(rows[..n], hash, h) + (if HashOf(rows[n], hash) == h then [rows[n].0] else [])
  {
    OneLonger(rows, n);
  }

  // The state between two groups: those in `todo` still have their own priorities.
  ghost predicate Between(rows: Rows, hash: Hash, before: Weights, current: Weights, todo: set<string>) {
    && current.Keys == before.Keys
    && (forall i :: 0 <= i < |rows| && rows[i].0 in before && HashOf(rows[i], hash) in todo ==>
          current[rows[i].0] == before[rows[i].0])
    && (forall i :: 0 <= i < |rows| && HashOf(rows[i], hash) !in todo ==>
          && rows[i].0 in before
          && AllIn(Members(rows, hash, HashOf(rows[i], hash)), before)
          && current[rows[i].0] == Sum(Members(rows, hash, HashOf(rows[i], hash)), before))
    && (forall id :: id in before && (forall i :: 0 <= i < |rows| ==> rows[i].0 != id) ==> current[id] == before[id])
  }

  method GroupSums(rows: Rows, hash: Hash, groups: map<string, seq<int>>, w: Weights)
    returns (r: Result<Weights, Error>)
    requires DistinctRows(rows)
    requires forall i :: 0 <= i < |rows| ==> HashOf(rows[i], hash) in groups
    requires forall h :: h in groups ==> groups[h] == Members(rows, hash, h) != []
    ensures r.Ok? <==> Known(rows, w)
    ensures r.Err? ==> r.error == UnknownQueue
    ensures r.Ok? ==> Grouped(rows, hash, w, r.value)
  {
    var current, todo := w, groups.Keys;
    while todo != {}
      invariant todo <= groups.Keys
      invariant Between(rows, hash, w, current, todo)
      decreases todo
    {
      var h :| h in todo;
      var next := GroupSum(groups[h], current);
      if next.Err? {
        ghost var j :| 0 <= j < |groups[h]| && groups[h][j] !in current;
        assert groups[h][j] in Members(rows, hash, h);
        return next;
      }
      AfterGroup(rows, hash, w, current, next.value, todo, h);
      current, todo := next.value, todo - {h};
    }
    return Ok(current);
  }

  // One group: its sum is written to all its members.
  method GroupSum(ids: seq<int>, w: Weights) returns (r: Result<Weights, Error>)
    ensures r.Ok? <==> AllIn(ids, w)
    ensures r.Err? ==> r.error == UnknownQueue
    ensures r.Ok? ==> r.value.Keys == w.Keys
    ensures r.Ok? ==> forall id :: id in w ==> r.value[id] == if id in ids then Sum(ids, w) else w[id]
  {
    var total := 0.0;
    for i := 0 to |ids|
      invariant AllIn(ids[..i], w)
      invariant total == Sum(ids[..i], w)
    {
      ghost var id := ids[i];
      assert id in ids;
      if ids[i] !in w {
        return Err(UnknownQueue);
      }
      total := total + w[ids[i]];
      assert ids[..i + 1][..i] == ids[..i];
    }
    assert ids[..|ids|] == ids;
    assert AllIn(ids, w);
    var current := w;
    for i := 0 to |ids|
      invariant current.Keys == w.Keys
      invariant forall id :: id in w ==> current[id] == if id in ids[..i] then total else w[id]
    {
      assert ids[i] in ids;
      assert ids[..i + 1] == ids[..i] + [ids[i]];
      current := current[ids[i] := total];
    }
    return Ok(current);
  }

  lemma AfterGroup(rows: Rows, hash: Hash, before: Weights, current: Weights, next: Weights, todo: set<string>,
                   h: string)
    requires DistinctRows(rows) && Between(rows, hash, before, current, todo) && h in todo
    requires AllIn(Members(rows, hash, h), current)
    requires next.Keys == current.Keys
    requires forall id :: id in current ==>
      next[id] == if id in Members(rows, hash, h) then Sum(Members(rows, hash, h), current) else current[id]
    ensures Between(rows, hash, before, next, todo - {h})
  {
    var ids := Members(rows, hash, h);
    GroupUntouched(rows, hash, before, current, todo, h);
    RowsOfGroup(rows, hash, h);
    SumSame(ids, current, before);
    forall i | 0 <= i < |rows| && HashOf(rows[i], hash) == h
      ensures rows[i].0 in before && next[rows[i].0] == Sum(ids, before)
    {
    }
    forall i | 0 <= i < |rows| && HashOf(rows[i], hash) != h && rows[i].0 in before
      ensures next[rows[i].0] == current[rows[i].0]
    {
    }
  }

  // The members of a group that is still to come have their own priorities.
  lemma GroupUntouched(rows: Rows, hash: Hash, before: Weights, current: Weights, todo: set<string>, h: string)
    requires Between(rows, hash, before, current, todo) && h in todo && AllIn(Members(rows, hash, h), current)
    ensures AllIn(Members(rows, hash, h), before)
    ensures forall id :: id in Members(rows, hash, h) ==> id in before && current[id] == before[id]
  {
    var ids := Members(rows, hash, h);
    forall id | id in ids ensures id in before && current[id] == before[id] {
      var j :| 0 <= j < |ids| && ids[j] == id;
      assert ids[j] in current;
      var i :| 0 <= i < |rows| && rows[i].0 == id && HashOf(rows[i], hash) == h;
    }
  }

  lemma RowsOfGroup(rows: Rows, hash: Hash, h: string)
    requires DistinctRows(rows)
    ensures forall i :: 0 <= i < |rows| ==> (rows[i].0 in Members(rows, hash, h) <==> HashOf(rows[i], hash) == h)
  {
  }

  lemma {:induction false} SumSame(ids: seq<int>, a: Weights, b: Weights)
    requires AllIn(ids, a) && AllIn(ids, b) && forall i :: 0 <= i < |ids| ==> a[ids[i]] == b[ids[i]]
    ensures Sum(ids, a) == Sum(ids, b)
  {
    if ids != [] { SumSame(ids[..|ids| - 1], a, b); }
  }

  method Invert(ids: seq<int>, w: Weights) returns (result: map<real, seq<int>>)
    requires w.Keys == (set id | id in ids)
    ensures ByPriority(ids, w, result)
  {
    result := map[];
    for i := 0 to |ids|
      invariant forall p :: p in result <==> With(ids[..i], w, p) != []
      invariant forall p :: p in result ==> result[p] == With(ids[..i], w, p)
    {
      var p := w[ids[i]];
      assert ids[..i + 1][..i] == ids[..i];
      assert ids[..i + 1] == ids[..i] + [ids[i]];
      result := result[p := (if p in result then result[p] else []) + [ids[i]]];
    }
    assert ids[..|ids|] == ids;
  }

  // ------------------------------------------------------------------
  // set_priorities_for_entity
  // ------------------------------------------------------------------

  // One UPDATE: all these queues get this priority.
  ghost function Update(table: Weights, members: seq<int>, p: real): Weights {
    map id | id in table :: if id in members then p else table[id]
  }

  // The table may hold queues of other entities.
  method SetPriorities(table: Weights, ids: seq<int>, ghost final: Weights, result: map<real, seq<int>>)
    returns (after: Weights)
    requires AllIn(ids, final) && AllIn(ids, table) && ByPriority(ids, final, result)
    ensures after.Keys == table.Keys
    ensures forall id :: id in table ==> after[id] == if id in ids then final[id] else table[id]
  {
    after := table;
    var todo := result.Keys;
    while todo != {}
      invariant todo <= result.Keys
      invariant Written(table, ids, final, todo, after)
      decreases todo
    {
      HasElement(todo);
      var p :| p in todo;
      var members := result[p];
      OneMorePriority(table, ids, final, todo, after, p);
      after := map id | id in after :: if id in members then p else after[id];
      todo := todo - {p};
    }
    AllWritten(table, ids, final, result, after);
  }

  // The queues whose priority is not in `todo` have been written.
  ghost predicate Written(table: Weights, ids: seq<int>, final: Weights, todo: set<real>, after: Weights)
    requires AllIn(ids, final)
  {
    after.Keys == table.Keys
    && forall id :: id in table ==> after[id] == if id in ids && final[id] !in todo then final[id] else table[id]
  }

  lemma HasElement(s: set<real>)
    requires s != {}
    ensures exists p :: p in s
  {
    assert (forall p :: p !in s) ==> s == {};
  }

  lemma OneMorePriority(table: Weights, ids: seq<int>, final: Weights, todo: set<real>, after: Weights, p: real)
    requires AllIn(ids, final) && Written(table, ids, final, todo, after) && p in todo
    ensures Written(table, ids, final, todo - {p}, Update(after, With(ids, final, p), p))
  {
  }

  lemma AllWritten(table: Weights, ids: seq<int>, final: Weights, result: map<real, seq<int>>, after: Weights)
    requires AllIn(ids, final) && AllIn(ids, table) && ByPriority(ids, final, result)
               && Written(table, ids, final, {}, after)
    ensures forall id :: id in table ==> after[id] == if id in ids then final[id] else table[id]
  {
  }

  // ------------------------------------------------------------------
  // What the shares are
  // ------------------------------------------------------------------

  // A complete outcome of CalculatePriority.
  ghost predicate Outcome(ids: seq<int>, w: Weights, rows: Rows, share: real, allow: bool, hash: Hash, final: Weights) {
    && Distinct(ids) && w.Keys == (set id | id in ids) && DistinctRows(rows)
    && Divides(ids, w, allow) && Known(rows, w)
    && Grouped(rows, hash, Distribute(w, share, Sum(Foreground(ids, w, allow), w), allow), final)
  }

  /** With background queues allowed, and else with one positive priority, nothing is divided by zero. */
  lemma NeverDividesByZero(ids: seq<int>, w: Weights, allow: bool)
    requires AllIn(ids, w)
    requires allow || forall i :: 0 <= i < |ids| ==> w[ids[i]] >= 0.0
    ensures allow ==> Divides(ids, w, allow)
    ensures !allow ==> (Divides(ids, w, allow) <==> ids == [] || exists i :: 0 <= i < |ids| && w[ids[i]] > 0.0)
  {
    var fore := Foreground(ids, w, allow);
    if allow {
      forall i | 0 <= i < |fore| ensures w[fore[i]] > 0.1 {
        assert fore[i] in fore;
      }
      SumPositive(fore, w);
    } else {
      AllForeground(ids, w);
      SumPositive(ids, w);
    }
  }

  lemma {:induction false} AllForeground(ids: seq<int>, w: Weights)
    requires AllIn(ids, w)
    ensures Foreground(ids, w, false) == ids
  {
    if ids != [] { AllForeground(ids[..|ids| - 1], w); }
  }

  lemma {:induction false} SumPositive(ids: seq<int>, w: Weights)
    requires AllIn(ids, w) && forall i :: 0 <= i < |ids| ==> w[ids[i]] >= 0.0
    ensures Sum(ids, w) >= 0.0
    ensures Sum(ids, w) > 0.0 <==> exists i :: 0 <= i < |ids| && w[ids[i]] > 0.0
    ensures forall i :: 0 <= i < |ids| ==> w[ids[i]] <= Sum(ids, w)
  {
    if ids != [] {
      var rest := ids[..|ids| - 1];
      SumPositive(rest, w);
      assert forall i :: 0 <= i < |rest| ==> ids[i] == rest[i];
    }
  }

  /** Before grouping, the foreground queues share out `share`, up to the minimum granted to each. */
  lemma ForegroundGetsTheShare(ids: seq<int>, w: Weights, share: real, allow: bool)
    requires AllIn(ids, w) && share >= 0.0
    requires forall i :: 0 <= i < |ids| ==> w[ids[i]] >= 0.0
    requires Divides(ids, w, allow) && Foreground(ids, w, allow) != []
    ensures var fore := Foreground(ids, w, allow);
            var shared := Distribute(w, share, Sum(fore, w), allow);
            share <= Sum(fore, shared) <= share + |fore| as real * TQ_MIN_SHARE
  {
    var fore := Foreground(ids, w, allow);
    ForegroundFacts(ids, w, allow);
    SumPositive(fore, w);
    SharedOut(fore, w, share, Sum(fore, w), allow);
  }

  lemma SharedOut(fore: seq<int>, w: Weights, share: real, total: real, allow: bool)
    requires AllIn(fore, w) && share >= 0.0 && total == Sum(fore, w) > 0.0
    requires forall i :: 0 <= i < |fore| ==> w[fore[i]] >= 0.0 && !IsBackground(w[fore[i]], allow)
    ensures share <= Sum(fore, Distribute(w, share, total, allow)) <= share + |fore| as real * TQ_MIN_SHARE
  {
    ShareSpent(share, total);
    var portions := map id | id in w :: Portion(w[id], share, total);
    var shared := Distribute(w, share, total, allow);
    forall i | 0 <= i < |fore|
      ensures portions[fore[i]] >= 0.0 && shared[fore[i]] == Max(portions[fore[i]], TQ_MIN_SHARE)
    {
      var k := fore[i];
      assert k in w;
      PortionPositive(w[k], share, total);
    }
    PortionsSum(fore, w, portions, share, total);
    Clamped(fore, portions, shared);
  }

  lemma ForegroundFacts(ids: seq<int>, w: Weights, allow: bool)
    requires AllIn(ids, w)
    requires forall i :: 0 <= i < |ids| ==> w[ids[i]] >= 0.0
    ensures var fore := Foreground(ids, w, allow);
            forall i :: 0 <= i < |fore| ==> w[fore[i]] >= 0.0 && !IsBackground(w[fore[i]], allow)
  {
    var fore := Foreground(ids, w, allow);
    forall i | 0 <= i < |fore| ensures w[fore[i]] >= 0.0 && !IsBackground(w[fore[i]], allow) {
      assert fore[i] in fore;
      var j :| 0 <= j < |ids| && ids[j] == fore[i];
    }
  }

  lemma ShareSpent(share: real, total: real)
    requires total != 0.0
    ensures Portion(total, share, total) == share
  {
  }

  lemma PortionPositive(p: real, share: real, total: real)
    requires p >= 0.0 && share >= 0.0 && total > 0.0
    ensures Portion(p, share, total) >= 0.0
  {
    assert share / total >= 0.0;
  }

  lemma PortionAdds(p: real, q: real, share: real, total: real)
    requires total != 0.0
    ensures Portion(p + q, share, total) == Portion(p, share, total) + Portion(q, share, total)
  {
  }

  lemma {:induction false} PortionsSum(ids: seq<int>, w: Weights, portions: Weights, share: real, total: real)
    requires AllIn(ids, w) && AllIn(ids, portions) && total != 0.0
    requires forall i :: 0 <= i < |ids| ==> portions[ids[i]] == Portion(w[ids[i]], share, total)
    ensures Sum(ids, portions) == Portion(Sum(ids, w), share, total)
  {
    if ids != [] {
      var rest, last := ids[..|ids| - 1], ids[|ids| - 1];
      PortionsSum(rest, w, portions, share, total);
      PortionAdds(Sum(rest, w), w[last], share, total);
    }
  }

  // Raising each of n amounts to the minimum adds at most n times the minimum.
  lemma {:induction false} Clamped(ids: seq<int>, a: Weights, b: Weights)
    requires AllIn(ids, a) && AllIn(ids, b)
    requires forall i :: 0 <= i < |ids| ==> a[ids[i]] >= 0.0 && b[ids[i]] == Max(a[ids[i]], TQ_MIN_SHARE)
    ensures Sum(ids, a) <= Sum(ids, b) <= Sum(ids, a) + |ids| as real * TQ_MIN_SHARE
  {
    if ids != [] {
      var rest := ids[..|ids| - 1];
      Clamped(rest, a, b);
      assert |ids| as real == |rest| as real + 1.0;
    }
  }

  /** Background queues get exactly the minimum; among the others a higher priority never gets less. */
  lemma SharesFollowPriorities(p: real, q: real, share: real, total: real, allow: bool)
    requires share >= 0.0 && total > 0.0 && p <= q
    ensures IsBackground(p, allow) ==> Shared(p, share, total, allow) == TQ_MIN_SHARE
    ensures Shared(p, share, total, allow) <= Shared(q, share, total, allow)
  {
    PortionPositive(q - p, share, total);
    PortionAdds(p, q - p, share, total);
    assert p + (q - p) == q;
  }

  // A background queue, at most 0.1 where those are allowed, gets 0.001; every
  // other one its part of the share in proportion to its priority, and at least that.
  predicate Gets(given: real, p: real, share: real, total: real, allow: bool) {
    if allow && p <= 0.1 then given == 0.001
    else given >= 0.001 && given * total >= share * p && (given == 0.001 || given * total == share * p)
  }

  /** What each queue is given before grouping, in terms of its priority and of the sum of those in the foreground. */
  lemma GivenExactly(w: Weights, share: real, total: real, allow: bool, id: int)
    requires id in w && total > 0.0
    ensures id in Distribute(w, share, total, allow)
    ensures Gets(Distribute(w, share, total, allow)[id], w[id], share, total, allow)
  {
    SharedExactly(w[id], share, total, allow);
  }

  lemma SharedExactly(p: real, share: real, total: real, allow: bool)
    requires total > 0.0
    ensures Gets(Shared(p, share, total, allow), p, share, total, allow)
    ensures allow && p <= 0.1 ==> Shared(p, share, total, allow) == 0.001
    ensures (allow && p <= 0.1) || Shared(p, share, total, allow) == 0.001
            || Shared(p, share, total, allow) * total == share * p
  {
    PortionTimes(p, share, total);
    if Portion(p, share, total) <= TQ_MIN_SHARE { Ordered(Portion(p, share, total), TQ_MIN_SHARE, total); }
  }

  lemma Ordered(a: real, b: real, c: real)
    requires a <= b && c > 0.0
    ensures a * c <= b * c
  {
  }

  lemma PortionTimes(p: real, share: real, total: real)
    requires total != 0.0
    ensures Portion(p, share, total) * total == share * p
  {
    assert (share / total) * total == share;
  }

  /** The share is divided by the sum of the priorities that are not in the background. */
  lemma {:induction false} TotalExactly(ids: seq<int>, w: Weights, allow: bool)
    requires AllIn(ids, w)
    ensures Sum(Foreground(ids, w, allow), w)
         == Sum(ids, map id | id in w :: if allow && w[id] <= 0.1 then 0.0 else w[id])
  {
    var kept := map id | id in w :: if allow && w[id] <= 0.1 then 0.0 else w[id];
    if ids != [] {
      var rest, last := ids[..|ids| - 1], ids[|ids| - 1];
      TotalExactly(rest, w, allow);
      assert last in ids && last in w;
      var fore := Foreground(rest, w, allow);
      assert (fore + [last])[..|fore|] == fore;
    }
  }

  /** No queue ends below the minimum, whatever the priorities were. */
  lemma AtLeastMinimum(ids: seq<int>, w: Weights, rows: Rows, share: real, allow: bool, hash: Hash, final: Weights)
    requires Outcome(ids, w, rows, share, allow, hash, final)
    ensures forall id :: id in final ==> final[id] >= TQ_MIN_SHARE
  {
    var shared := Distribute(w, share, Sum(Foreground(ids, w, allow), w), allow);
    assert forall id :: id in shared ==> shared[id] >= TQ_MIN_SHARE;
    GroupedAtLeast(rows, hash, shared, final);
  }

  lemma GroupedAtLeast(rows: Rows, hash: Hash, before: Weights, after: Weights)
    requires Known(rows, before) && Grouped(rows, hash, before, after)
    requires forall id :: id in before ==> before[id] >= TQ_MIN_SHARE
    ensures forall id :: id in after ==> after[id] >= before[id]
  {
    forall i | 0 <= i < |rows| ensures after[rows[i].0] >= before[rows[i].0] {
      assert rows[i].0 in Members(rows, hash, HashOf(rows[i], hash));
      MemberAtMost(Members(rows, hash, HashOf(rows[i], hash)), before, rows[i].0);
    }
  }

  lemma MemberAtMost(ids: seq<int>, w: Weights, id: int)
    requires AllIn(ids, w) && id in ids && forall k :: k in w ==> w[k] >= TQ_MIN_SHARE
    ensures w[id] <= Sum(ids, w)
  {
    var j :| 0 <= j < |ids| && ids[j] == id;
    forall i | 0 <= i < |ids| ensures w[ids[i]] >= 0.0 {
      var k := ids[i];
      assert k in w;
    }
    SumPositive(ids, w);
  }

  /** Queues whose kept fields have the same text end with the same priority: the sum of what each was given. */
  lemma GroupsAreEqual(rows: Rows, hash: Hash, before: Weights, after: Weights, i: nat, j: nat)
    requires Known(rows, before) && Grouped(rows, hash, before, after)
    requires i < |rows| && j < |rows|
    requires hash(rows[i].1 - {"Jobs", "Priority", "Sites", "BannedSites"})
          == hash(rows[j].1 - {"Jobs", "Priority", "Sites", "BannedSites"})
    ensures after[rows[i].0] == after[rows[j].0] == SameText(rows, hash, rows[i].1, |rows|, before)
  {
    assert HashOf(rows[i], hash) == HashOf(rows[j], hash);
    assert rows[..|rows|] == rows;
    SameTextSum(rows, hash, rows[i].1, |rows|, before);
  }

  // The sum over the first n rows whose kept fields have the same text as these.
  function SameText(rows: Rows, hash: Hash, fields: Fields, n: nat, w: Weights): real
    requires Known(rows, w) && n <= |rows|
  {
    if n == 0 then 0.0
    else
      SameText(rows, hash, fields, n - 1, w)
      + if hash(rows[n - 1].1 - {"Jobs", "Priority", "Sites", "BannedSites"})
           == hash(fields - {"Jobs", "Priority", "Sites", "BannedSites"}) then w[rows[n - 1].0] else 0.0
  }

  lemma {:induction false} SameTextSum(rows: Rows, hash: Hash, fields: Fields, n: nat, w: Weights)
    requires Known(rows, w) && n <= |rows|
    ensures Known(rows[..n], w)
    ensures GroupTotal(rows[..n], hash, HashOf((0, fields), hash), w) == SameText(rows, hash, fields, n, w)
  {
    if n > 0 {
      SameTextSum(rows, hash, fields, n - 1, w);
      assert rows[..n][..n - 1] == rows[..n - 1];
      OneMoreRow(rows[..n], hash, HashOf((0, fields), hash), w);
    } else {
      MembersIn(rows[..n], hash, HashOf((0, fields), hash), w);
    }
  }

  /** The lists of the result cover the queues, each exactly once, under its own priority. */
  lemma ResultPartitions(ids: seq<int>, final: Weights, result: map<real, seq<int>>)
    requires Distinct(ids) && AllIn(ids, final) && ByPriority(ids, final, result)
    ensures forall id :: id in ids ==> final[id] in result && id in result[final[id]]
    ensures forall p, q, id :: p in result && q in result && id in result[p] && id in result[q] ==> p == q == final[id]
    ensures forall p :: p in result ==>
              result[p] != [] && Distinct(result[p]) && forall id :: id in result[p] ==> id in ids
  {
    forall id | id in ids ensures final[id] in result && id in result[final[id]] {
      assert id in With(ids, final, final[id]);
    }
    forall p | p in result ensures Distinct(result[p]) {
      WithDistinct(ids, final, p);
    }
  }

  lemma {:induction false} WithDistinct(ids: seq<int>, w: Weights, p: real)
    requires Distinct(ids) && AllIn(ids, w)
    ensures Distinct(With(ids, w, p))
  {
    if ids != [] {
      var rest, last := ids[..|ids| - 1], ids[|ids| - 1];
      WithDistinct(rest, w, p);
      var kept := With(rest, w, p);
      forall i | 0 <= i < |kept| ensures kept[i] != last {
        assert kept[i] in kept;
      }
    }
  }

  // ------------------------------------------------------------------
  // Grouping spends what was distributed
  // ------------------------------------------------------------------

  // The groups, in order of their first row.
  function Groups(rows: Rows, hash: Hash): (hs: seq<string>)
    ensures forall i, j :: 0 <= i < j < |hs| ==> hs[i] != hs[j]
  {
    if rows == [] then []
    else
      var rest := Groups(rows[..|rows| - 1], hash);
      var h := HashOf(rows[|rows| - 1], hash);
      if h in rest then rest else rest + [h]
  }

  function RowIds(rows: Rows): seq<int> {
    if rows == [] then [] else RowIds(rows[..|rows| - 1]) + [rows[|rows| - 1].0]
  }

  lemma {:induction false} MembersIn(rows: Rows, hash: Hash, h: string, w: Weights)
    requires Known(rows, w)
    ensures AllIn(Members(rows, hash, h), w) && AllIn(RowIds(rows), w)
  {
    if rows != [] { MembersIn(rows[..|rows| - 1], hash, h, w); }
  }

  function GroupTotal(rows: Rows, hash: Hash, h: string, w: Weights): real
    requires Known(rows, w)
  {
    MembersIn(rows, hash, h, w);
    Sum(Members(rows, hash, h), w)
  }

  function GroupTotals(hs: seq<string>, rows: Rows, hash: Hash, w: Weights): real
    requires Known(rows, w)
  {
    if hs == [] then 0.0
    else GroupTotals(hs[..|hs| - 1], rows, hash, w) + GroupTotal(rows, hash, hs[|hs| - 1], w)
  }

  function RowTotal(rows: Rows, w: Weights): real
    requires Known(rows, w)
  {
    MembersIn(rows, _ => "", "", w);
    Sum(RowIds(rows), w)
  }

  lemma OneMoreRow(rows: Rows, hash: Hash, h: string, w: Weights)
    requires rows != [] && Known(rows, w)
    ensures var last := rows[|rows| - 1];
            GroupTotal(rows, hash, h, w)
            == GroupTotal(rows[..|rows| - 1], hash, h, w) + (if HashOf(last, hash) == h then w[last.0] else 0.0)
  {
    var rest := Members(rows[..|rows| - 1], hash, h);
    assert (rest + [rows[|rows| - 1].0])[..|rest|] == rest;
  }

  lemma {:induction false} OneMoreRowInGroups(hs: seq<string>, rows: Rows, hash: Hash, w: Weights)
    requires rows != [] && Known(rows, w)
    requires forall i, j :: 0 <= i < j < |hs| ==> hs[i] != hs[j]
    ensures var last := rows[|rows| - 1];
            GroupTotals(hs, rows, hash, w)
            == GroupTotals(hs, rows[..|rows| - 1], hash, w) + (if HashOf(last, hash) in hs then w[last.0] else 0.0)
  {
    if hs != [] {
      OneMoreRowInGroups(hs[..|hs| - 1], rows, hash, w);
      OneMoreRow(rows, hash, hs[|hs| - 1], w);
      assert hs == hs[..|hs| - 1] + [hs[|hs| - 1]];
    }
  }

  /** The sums of the groups, one for each group, add up to what all their queues were given. */
  lemma {:induction false} GroupsSpendTheWhole(rows: Rows, hash: Hash, w: Weights)
    requires Known(rows, w)
    ensures GroupTotals(Groups(rows, hash), rows, hash, w) == RowTotal(rows, w)
  {
    if rows != [] {
      var init := rows[..|rows| - 1];
      GroupsSpendTheWhole(init, hash, w);
      OneMoreRowTotal(rows, w);
      OneMoreInGroups(rows, hash, w);
    }
  }

  lemma OneMoreRowTotal(rows: Rows, w: Weights)
    requires rows != [] && Known(rows, w)
    ensures RowTotal(rows, w) == RowTotal(rows[..|rows| - 1], w) + w[rows[|rows| - 1].0]
  {
    Snoc(RowIds(rows[..|rows| - 1]), rows[|rows| - 1].0);
  }

  lemma OneMoreInGroups(rows: Rows, hash: Hash, w: Weights)
    requires rows != [] && Known(rows, w)
    ensures var init := rows[..|rows| - 1];
            GroupTotals(Groups(rows, hash), rows, hash, w)
            == GroupTotals(Groups(init, hash), init, hash, w) + w[rows[|rows| - 1].0]
  {
    var init, last := rows[..|rows| - 1], rows[|rows| - 1];
    var h, rest := HashOf(last, hash), Groups(init, hash);
    OneMoreRowInGroups(rest, rows, hash, w);
    if h !in rest { NewGroup(rows, hash, w); }
  }

  // The last row starts a group of its own.
  lemma NewGroup(rows: Rows, hash: Hash, w: Weights)
    requires rows != [] && Known(rows, w)
    requires HashOf(rows[|rows| - 1], hash) !in Groups(rows[..|rows| - 1], hash)
    ensures GroupTotals(Groups(rows, hash), rows, hash, w)
         == GroupTotals(Groups(rows[..|rows| - 1], hash), rows, hash, w) + w[rows[|rows| - 1].0]
  {
    var init, h := rows[..|rows| - 1], HashOf(rows[|rows| - 1], hash);
    NoMembers(init, hash, h);
    OneMoreRow(rows, hash, h, w);
    Snoc(Groups(init, hash), h);
    assert GroupTotal(init, hash, h, w) == 0.0;
  }

  lemma {:induction false} NoMembers(rows: Rows, hash: Hash, h: string)
    requires h !in Groups(rows, hash)
    ensures Members(rows, hash, h) == []
  {
    if rows != [] { NoMembers(rows[..|rows| - 1], hash, h); }
  }

  // ------------------------------------------------------------------
  // recalculate_tq_shares_for_entity
  // ------------------------------------------------------------------

  // One call of set_priorities_for_entity; no owner stands for the whole group.
  datatype Call = Call(owner: Option<string>, share: real)

  function Spent(calls: seq<Call>): real {
    if calls == [] then 0.0 else Spent(calls[..|calls| - 1]) + calls[|calls| - 1].share
  }

  /** The job share is either given to the group as a whole or cut into equal parts, one for each owner. */
  method RecalculateShares(owner: string, sharing: bool, jobShare: real, owners: map<string, nat>)
    returns (calls: seq<Call>)
    ensures sharing ==> calls == [Call(None, jobShare)]
    ensures !sharing && |owners| == 0 ==> calls == []
    ensures !sharing && owner in owners && owners[owner] > 1 ==>
              calls == [Call(Some(owner), jobShare / |owners| as real)]
    ensures !sharing && |owners| > 0 && !(owner in owners && owners[owner] > 1) ==>
              && |calls| == |owners|
              && (forall o :: o in owners <==> Call(Some(o), jobShare / |owners| as real) in calls)
              && Spent(calls) == jobShare
  {
    if sharing { return [Call(None, jobShare)]; }
    var n := |owners|;
    if n == 0 { return []; }
    var part := jobShare / n as real;
    if owner in owners && owners[owner] > 1 { return [Call(Some(owner), part)]; }
    calls := ForEachOwner(owners.Keys, part);
    WholeFromParts(jobShare, n);
  }

  method ForEachOwner(owners: set<string>, part: real) returns (calls: seq<Call>)
    ensures |calls| == |owners|
    ensures forall o :: o in owners <==> Call(Some(o), part) in calls
    ensures Spent(calls) == |owners| as real * part
  {
    calls := [];
    var todo := owners;
    while todo != {}
      invariant todo <= owners
      invariant |calls| + |todo| == |owners|
      invariant forall o :: o in owners - todo <==> Call(Some(o), part) in calls
      invariant forall i :: 0 <= i < |calls| ==> calls[i].share == part
      decreases todo
    {
      var o :| o in todo;
      calls := calls + [Call(Some(o), part)];
      todo := todo - {o};
    }
    SpentInParts(calls, part);
  }

  lemma {:induction false} SpentInParts(calls: seq<Call>, part: real)
    requires forall i :: 0 <= i < |calls| ==> calls[i].share == part
    ensures Spent(calls) == |calls| as real * part
  {
    if calls != [] {
      var n := |calls| - 1;
      SpentInParts(calls[..n], part);
      OneMorePart(n, part);
    }
  }

  lemma OneMorePart(n: nat, part: real)
    ensures (n + 1) as real * part == n as real * part + part
  {
  }

  lemma WholeFromParts(whole: real, n: nat)
    requires n > 0
    ensures n as real * (whole / n as real) == whole
  {
  }
}
