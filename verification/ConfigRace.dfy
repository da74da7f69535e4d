/**
 `ConfigSource` with the reading of the revision and the indexing of its content
 as two steps: `read_config` holds no lock between them. Any number of reads may
 wait to be indexed, and are indexed in any order.
 */
module ConfigRace {
  import opened Basics
  import opened CacheSlot
  import opened CacheProtocol
  import opened ConfigProtocol
  import opened CacheRefresh
  import CacheRuns

  // `reading` holds the revisions handed out and not indexed yet.
  datatype Wide = Wide(now: real, state: State, content: Lru, reading: seq<Value>, missed: bool)

  const EMPTY_SOURCE := Wide(0.0, INIT, [], [], false)

  datatype Move = Make(event: Event) | Pass(seconds: real) | Fetch(i: nat)

  predicate Allowed(w: Wide, m: Move, ttl: Ttl) {
    match m
    case Make(e) => Enabled(w.state, e) && !e.EvictSoft? && !e.EvictHard?
    case Pass(dt) => dt >= 0.0 && SoonAfter(w.state.slot, ttl, w.now + dt)
    case Fetch(i) => i < |w.reading|
  }

  // The revision that a step hands out, if any.
  function Given(s: State, t: State): seq<Value> {
    if |t.log| > |s.log| then [t.log[|s.log|].value] else []
  }

  function Next(w: Wide, m: Move, ttl: Ttl): Wide
    requires Allowed(w, m, ttl)
  {
    match m
    case Make(e) =>
      var t := CacheProtocol.Apply(w.state, e, ttl, w.now);
      w.(state := t, reading := w.reading + Given(w.state, t),
         content := if e.PopulateOk? then Admit(w.content, e.v) else w.content)
    case Pass(dt) => w.(now := w.now + dt)
    case Fetch(i) =>
      var v := w.reading[i];
      var rest := w.(reading := w.reading[..i] + w.reading[i + 1..]);
      if v in w.content then rest.(content := Touch(w.content, v)) else rest.(missed := true)
  }

  predicate Moves(w: Wide, moves: seq<Move>, ttl: Ttl)
    decreases |moves|
  {
    moves == [] || (Allowed(w, moves[0], ttl) && Moves(Next(w, moves[0], ttl), moves[1..], ttl))
  }

  function End(w: Wide, moves: seq<Move>, ttl: Ttl): Wide
    requires Moves(w, moves, ttl)
    decreases |moves|
  {
    if moves == [] then w else End(Next(w, moves[0], ttl), moves[1..], ttl)
  }

  // ------------------------------------------------------------------
  // Reads that the worker does not overtake
  // ------------------------------------------------------------------

  // The worker reads a revision and publishes it while no read waits.
  predicate Undisturbed(w: Wide, m: Move) {
    m.Make? && (m.event.PopulateOk? || m.event.WriteHard? || m.event.WriteSoft?) ==> w.reading == []
  }

  predicate Quiet(w: Wide, moves: seq<Move>, ttl: Ttl)
    requires Moves(w, moves, ttl)
    decreases |moves|
  {
    moves == [] || (Undisturbed(w, moves[0]) && Quiet(Next(w, moves[0], ttl), moves[1..], ttl))
  }

  // A waiting read is of the revision that can still be read.
  predicate Current(s: Slot, reading: seq<Value>, ttl: Ttl, now: real) {
    !MidPublish(s) ==>
      forall v :: v in reading ==>
        && (SoftLookup(s, ttl, now).Some? ==> v == s.soft.value.value)
        && (HardLookup(s, ttl, now).Some? ==> v == s.hard.value.value)
  }

  predicate SlotCovered(s: Slot, c: Lru, ttl: Ttl, now: real) {
    Covered(s, c, ttl, now) && NextCovered(s, c) && InStep(s, ttl, now)
  }

  predicate WideInv(w: Wide, ttl: Ttl) {
    && !w.missed
    && StateInv(w.state, ttl, w.now)
    && Distinct(w.content) && |w.content| <= CAPACITY
    && SlotCovered(w.state.slot, w.content, ttl, w.now)
    && (forall v :: v in w.reading ==> v in w.content)
    && Current(w.state.slot, w.reading, ttl, w.now)
    && (w.reading == [] ==> CurrentIsNewest(w.state.slot, w.content, ttl, w.now))
  }

  lemma TouchCovers(s: Slot, c: Lru, v: Value, ttl: Ttl, now: real)
    requires SlotCovered(s, c, ttl, now) && Distinct(c) && |c| <= CAPACITY && v in c
    ensures SlotCovered(s, Touch(c, v), ttl, now) && Newer(Touch(c, v), v)
    ensures Distinct(Touch(c, v)) && |Touch(c, v)| <= CAPACITY
    ensures forall x :: x in Touch(c, v) <==> x in c
  {
    DropKeepsOthers(c, v);
    assert forall x :: x in Touch(c, v) <==> x in c;
  }

  lemma FetchKeeps(w: Wide, i: nat, ttl: Ttl)
    requires WideInv(w, ttl) && i < |w.reading|
    ensures WideInv(Next(w, Fetch(i), ttl), ttl)
  {
    var v, rest := w.reading[i], w.reading[..i] + w.reading[i + 1..];
    TouchCovers(w.state.slot, w.content, v, ttl, w.now);
    assert v in w.reading && forall x :: x in rest ==> x in w.reading;
    assert Current(w.state.slot, rest, ttl, w.now);
    assert CurrentIsNewest(w.state.slot, Touch(w.content, v), ttl, w.now);
  }

  lemma WorkKeeps(w: Wide, e: Event, ttl: Ttl)
    requires WideInv(w, ttl) && Allowed(w, Make(e), ttl) && Undisturbed(w, Make(e))
    requires ttl.Positive() && ttl.soft <= ttl.hard
    requires e.PopulateOk? || e.WriteHard? || e.WriteSoft?
    ensures WideInv(Next(w, Make(e), ttl), ttl)
  {
    StepKeeps(w.state, e, ttl, w.now);
    if e.PopulateOk? {
      AdmitKeeps(w.state.slot, w.content, e.n, e.v, ttl, w.now);
    } else {
      PublishKeepsCovered(w.state.slot, w.content, e, ttl, w.now);
    }
  }

  lemma IdleWorkKeeps(w: Wide, e: Event, ttl: Ttl)
    requires WideInv(w, ttl) && Allowed(w, Make(e), ttl) && ttl.Positive() && ttl.soft <= ttl.hard
    requires e.PopulateFails? || e.PopFuture? || e.Unlock?
    ensures WideInv(Next(w, Make(e), ttl), ttl)
  {
    StepKeeps(w.state, e, ttl, w.now);
  }

  lemma ReadKeeps(w: Wide, e: Event, ttl: Ttl)
    requires WideInv(w, ttl) && Allowed(w, Make(e), ttl) && ttl.Positive() && ttl.soft <= ttl.hard
    requires e.Begin? || e.ReadSoft? || e.LockBusy? || e.Wake? || e.IndexHard? || e.FallBack?
    ensures WideInv(Next(w, Make(e), ttl), ttl)
  {
    StepKeeps(w.state, e, ttl, w.now);
  }

  lemma LockKeepsWide(w: Wide, c: nat, ttl: Ttl)
    requires WideInv(w, ttl) && Allowed(w, Make(TakeLock(c)), ttl) && ttl.Positive() && ttl.soft <= ttl.hard
    ensures WideInv(Next(w, Make(TakeLock(c)), ttl), ttl)
  {
    StepKeeps(w.state, TakeLock(c), ttl, w.now);
    LockedCovers(w.state.slot, w.content, ttl, w.now);
    if w.reading == [] { LockedKeeps(w.state.slot, w.content, ttl, w.now); }
  }

  lemma MoveKeeps(w: Wide, m: Move, ttl: Ttl)
    requires WideInv(w, ttl) && Allowed(w, m, ttl) && Undisturbed(w, m) && ttl.Positive() && ttl.soft <= ttl.hard
    ensures WideInv(Next(w, m, ttl), ttl)
  {
    match m {
      case Pass(dt) => WaitKeeps(w.state, ttl, w.now, w.now + dt);
      case Fetch(i) => FetchKeeps(w, i, ttl);
      case Make(e) =>
        if e.TakeLock? { LockKeepsWide(w, e.c, ttl); }
        else if e.PopulateOk? || e.WriteHard? || e.WriteSoft? { WorkKeeps(w, e, ttl); }
        else if e.PopulateFails? || e.PopFuture? || e.Unlock? { IdleWorkKeeps(w, e, ttl); }
        else { ReadKeeps(w, e, ttl); }
    }
  }

  lemma {:induction false} QuietKeeps(w: Wide, moves: seq<Move>, ttl: Ttl)
    requires WideInv(w, ttl) && Moves(w, moves, ttl) && Quiet(w, moves, ttl) && ttl.Positive() && ttl.soft <= ttl.hard
    ensures WideInv(End(w, moves, ttl), ttl)
    decreases |moves|
  {
    if moves != [] {
      MoveKeeps(w, moves[0], ttl);
      QuietKeeps(Next(w, moves[0], ttl), moves[1..], ttl);
    }
  }

  /**
   No index ever misses, in whatever order waiting reads are indexed, while the
   worker neither admits nor publishes a revision between a read and its index.
   */
  lemma QuietNeverMisses(moves: seq<Move>, ttl: Ttl)
    requires ttl.Positive() && ttl.soft <= ttl.hard
    requires Moves(EMPTY_SOURCE, moves, ttl) && Quiet(EMPTY_SOURCE, moves, ttl)
    ensures var w := End(EMPTY_SOURCE, moves, ttl);
            !w.missed && forall v :: v in w.reading ==> v in w.content
  {
    QuietKeeps(EMPTY_SOURCE, moves, ttl);
  }

  // ------------------------------------------------------------------
  // Reads that the worker overtakes
  // ------------------------------------------------------------------

  lemma ConsMoves(w: Wide, m: Move, rest: seq<Move>, ttl: Ttl)
    requires Allowed(w, m, ttl) && Moves(Next(w, m, ttl), rest, ttl)
    ensures Moves(w, [m] + rest, ttl) && End(w, [m] + rest, ttl) == End(Next(w, m, ttl), rest, ttl)
  {
    assert ([m] + rest)[1..] == rest;
  }

  lemma AppendMoves(w: Wide, a: seq<Move>, b: seq<Move>, ttl: Ttl)
    requires Moves(w, a, ttl) && Moves(End(w, a, ttl), b, ttl)
    ensures Moves(w, a + b, ttl) && End(w, a + b, ttl) == End(End(w, a, ttl), b, ttl)
  {
    Join(w, a, End(w, a, ttl), b, ttl);
  }

  lemma {:induction false} Join(w: Wide, a: seq<Move>, mid: Wide, b: seq<Move>, ttl: Ttl)
    requires Moves(w, a, ttl) && End(w, a, ttl) == mid && Moves(mid, b, ttl)
    ensures Moves(w, a + b, ttl) && End(w, a + b, ttl) == End(mid, b, ttl)
    decreases |a|
  {
    if a == [] {
      assert a + b == b;
    } else {
      var m, rest := a[0], a[1..];
      var next := Next(w, m, ttl);
      assert End(next, rest, ttl) == mid;
      Join(next, rest, mid, b, ttl);
      Regrouped(a, b);
      ConsMoves(w, m, rest + b, ttl);
    }
  }

  // What holds however the moves fall.
  predicate AnyInv(w: Wide, ttl: Ttl) {
    StateInv(w.state, ttl, w.now) && Distinct(w.content) && |w.content| <= CAPACITY
  }

  lemma AnyKeeps(w: Wide, m: Move, ttl: Ttl)
    requires AnyInv(w, ttl) && Allowed(w, m, ttl) && ttl.Positive()
    ensures AnyInv(Next(w, m, ttl), ttl)
  {
    match m {
      case Make(e) => StepKeeps(w.state, e, ttl, w.now);
      case Pass(dt) => WaitKeeps(w.state, ttl, w.now, w.now + dt);
      case Fetch(i) => DropKeepsOthers(w.content, w.reading[i]);
    }
  }

  lemma {:induction false} AnyRun(w: Wide, moves: seq<Move>, ttl: Ttl)
    requires AnyInv(w, ttl) && Moves(w, moves, ttl) && ttl.Positive()
    ensures AnyInv(End(w, moves, ttl), ttl)
    decreases |moves|
  {
    if moves != [] {
      AnyKeeps(w, moves[0], ttl);
      AnyRun(Next(w, moves[0], ttl), moves[1..], ttl);
    }
  }

  // At rest: the next get can submit a refresh.
  predicate AtRest(w: Wide, ttl: Ttl) { AnyInv(w, ttl) && Idle(w.state.slot) && !LastFailed(w.state.slot) }

  lemma FinishStep(w: Wide, ttl: Ttl)
    requires AnyInv(w, ttl) && ttl.Positive() && !Idle(w.state.slot)
    ensures var m := Make(NextStep(w.state.slot));
            && Allowed(w, m, ttl)
            && var t := Next(w, m, ttl);
               && AnyInv(t, ttl) && !LastFailed(t.state.slot) && StepsLeft(t.state.slot) == StepsLeft(w.state.slot) - 1
               && t.reading == w.reading && t.missed == w.missed && t.now == w.now
               && (StepsLeft(w.state.slot) <= 4 ==> t.content == w.content)
               && (StepsLeft(w.state.slot) == 1 ==> t.state.slot.soft == w.state.slot.soft)
               && (StepsLeft(w.state.slot) == 2 ==> SoftLookup(t.state.slot, ttl, t.now).Some?)
  {
    NextStepWorks(w.state, ttl, w.now);
    AnyKeeps(w, Make(NextStep(w.state.slot)), ttl);
  }

  // The worker of the last task runs to its end, at one moment.
  lemma {:induction false} Finishes(w: Wide, ttl: Ttl) returns (moves: seq<Move>)
    requires AnyInv(w, ttl) && ttl.Positive() && !LastFailed(w.state.slot)
    ensures Moves(w, moves, ttl)
    ensures var t := End(w, moves, ttl);
            && AtRest(t, ttl) && t.reading == w.reading && t.missed == w.missed && t.now == w.now
            && (StepsLeft(w.state.slot) <= 4 ==> t.content == w.content)
            && (StepsLeft(w.state.slot) <= 1 ==> t.state.slot.soft == w.state.slot.soft)
            && (StepsLeft(w.state.slot) >= 2 ==> SoftLookup(t.state.slot, ttl, t.now).Some?)
    decreases StepsLeft(w.state.slot)
  {
    moves := [];
    if !Idle(w.state.slot) {
      FinishStep(w, ttl);
      var m := Make(NextStep(w.state.slot));
      var rest := Finishes(Next(w, m, ttl), ttl);
      ConsMoves(w, m, rest, ttl);
      moves := [m] + rest;
    }
  }

  // A get after the soft lifetime submits a task.
  lemma Asks(w: Wide, ttl: Ttl) returns (moves: seq<Move>)
    requires AtRest(w, ttl) && ttl.Positive()
    ensures Moves(w, moves, ttl)
    ensures var t := End(w, moves, ttl);
            && AnyInv(t, ttl) && StepsLeft(t.state.slot) == 5
            && t.content == w.content && w.reading <= t.reading && t.missed == w.missed
  {
    var pass := Pass(ttl.soft);
    AnyKeeps(w, pass, ttl);
    var w1 := Next(w, pass, ttl);
    var rest := Locks(w1, ttl);
    ConsMoves(w, pass, rest, ttl);
    moves := [pass] + rest;
  }

  lemma Locks(w: Wide, ttl: Ttl) returns (moves: seq<Move>)
    requires AtRest(w, ttl) && ttl.Positive() && SoftLookup(w.state.slot, ttl, w.now).None?
    ensures Moves(w, moves, ttl)
    ensures var t := End(w, moves, ttl);
            && AnyInv(t, ttl) && StepsLeft(t.state.slot) == 5
            && t.content == w.content && w.reading <= t.reading && t.missed == w.missed
            && (HardLookup(w.state.slot, ttl, w.now).Some? ==> t.reading == w.reading + [w.state.slot.hard.value.value])
  {
    var c := |w.state.calls|;
    var begin, read, take := Make(Begin(true)), Make(ReadSoft(c)), Make(TakeLock(c));
    Submits(w.state, ttl, w.now);
    var w1 := Next(w, begin, ttl);
    var w2 := Next(w1, read, ttl);
    AnyKeeps(w, begin, ttl);
    AnyKeeps(w1, read, ttl);
    AnyKeeps(w2, take, ttl);
    assert w2.state.slot == w.state.slot && w2.reading == w.reading;
    LockSubmits(w2.state, c, ttl, w2.now);
    ConsMoves(w2, take, [], ttl);
    ConsMoves(w1, read, [take] + [], ttl);
    ConsMoves(w, begin, [read] + ([take] + []), ttl);
    moves := [begin] + ([read] + ([take] + []));
  }

  lemma LockSubmits(s: State, c: nat, ttl: Ttl, now: real)
    requires StateInv(s, ttl, now) && Idle(s.slot) && !LastFailed(s.slot) && Enabled(s, TakeLock(c))
    ensures var t := CacheProtocol.Apply(s, TakeLock(c), ttl, now);
            && StepsLeft(t.slot) == 5
            && Given(s, t) == if HardLookup(s.slot, ttl, now).Some? then [s.slot.hard.value.value] else []
  {
  }

  // The submitted task finds this revision.
  lemma Finds(w: Wide, v: Value, ttl: Ttl) returns (moves: seq<Move>)
    requires AnyInv(w, ttl) && ttl.Positive() && StepsLeft(w.state.slot) == 5
    ensures Moves(w, moves, ttl)
    ensures var t := End(w, moves, ttl);
            && AtRest(t, ttl) && SoftLookup(t.state.slot, ttl, t.now).Some?
            && t.content == Admit(w.content, v) && t.reading == w.reading && t.missed == w.missed
  {
    var m := Make(PopulateOk(|w.state.slot.tasks| - 1, v));
    AnyKeeps(w, m, ttl);
    var rest := Finishes(Next(w, m, ttl), ttl);
    ConsMoves(w, m, rest, ttl);
    moves := [m] + rest;
  }

  // One whole refresh.
  lemma Refreshes(w: Wide, v: Value, ttl: Ttl) returns (moves: seq<Move>)
    requires AtRest(w, ttl) && ttl.Positive()
    ensures Moves(w, moves, ttl)
    ensures var t := End(w, moves, ttl);
            && AtRest(t, ttl) && SoftLookup(t.state.slot, ttl, t.now).Some?
            && t.content == Admit(w.content, v) && w.reading <= t.reading && t.missed == w.missed
  {
    var ask := Asks(w, ttl);
    var rest := Finds(End(w, ask, ttl), v, ttl);
    AppendMoves(w, ask, rest, ttl);
    moves := ask + rest;
  }

  // A string longer than all of these, so none of them.
  function Longer(c: seq<Value>): (r: Value)
    ensures forall v :: v in c ==> |v| < |r|
  {
    if c == [] then "" else
      var r := Longer(c[1..]);
      assert c == [c[0]] + c[1..];
      if |c[0]| < |r| then r else c[0] + "+"
  }

  // A get that hits the soft cache, before it indexes the content.
  lemma Hits(w: Wide, ttl: Ttl) returns (moves: seq<Move>)
    requires AnyInv(w, ttl) && ttl.Positive() && SoftLookup(w.state.slot, ttl, w.now).Some?
    ensures Moves(w, moves, ttl)
    ensures var t := End(w, moves, ttl);
            && AnyInv(t, ttl) && t.state.slot == w.state.slot && t.now == w.now
            && t.content == w.content && t.missed == w.missed
            && t.reading == w.reading + [w.state.slot.soft.value.value]
  {
    var begin, read := Make(Begin(true)), Make(ReadSoft(|w.state.calls|));
    var w1 := Next(w, begin, ttl);
    AnyKeeps(w, begin, ttl);
    AnyKeeps(w1, read, ttl);
    ConsMoves(w1, read, [], ttl);
    ConsMoves(w, begin, [read] + [], ttl);
    moves := [begin] + ([read] + []);
  }

  // Two refreshes that find new revisions leave the content of no other one.
  lemma Evicts(w: Wide, v: Value, ttl: Ttl) returns (moves: seq<Move>)
    requires AtRest(w, ttl) && ttl.Positive()
    ensures Moves(w, moves, ttl)
    ensures var t := End(w, moves, ttl);
            v !in t.content && w.reading <= t.reading && t.missed == w.missed
  {
    var first := Longer([v] + w.content);
    LongerIsNew(v, w.content);
    var a := Refreshes(w, first, ttl);
    var mid := End(w, a, ttl);
    var second := Longer([v] + mid.content);
    LongerIsNew(v, mid.content);
    var b := Refreshes(mid, second, ttl);
    AppendMoves(w, a, b, ttl);
    moves := a + b;
    TwoAdmitted(w.content, first, second);
  }

  lemma LongerIsNew(v: Value, c: Lru)
    ensures Longer([v] + c) != v && Longer([v] + c) !in c
  {
    assert v in [v] + c && forall x :: x in c ==> x in [v] + c;
  }

  lemma TwoAdmitted(c: Lru, first: Value, second: Value)
    requires |c| <= CAPACITY && first !in c && second !in Admit(c, first)
    ensures Admit(Admit(c, first), second) == [first, second]
  {
  }

  lemma Loses(w: Wide, i: nat, ttl: Ttl)
    requires i < |w.reading| && w.reading[i] !in w.content
    ensures Moves(w, [Fetch(i)], ttl) && End(w, [Fetch(i)], ttl).missed
  {
    ConsMoves(w, Fetch(i), [], ttl);
    assert [Fetch(i)] + [] == [Fetch(i)];
  }

  // A read that waits while two refreshes pass misses.
  lemma Overtaken(w: Wide, ttl: Ttl) returns (moves: seq<Move>)
    requires AnyInv(w, ttl) && ttl.Positive() && !LastFailed(w.state.slot)
    ensures Moves(w, moves, ttl) && End(w, moves, ttl).missed
  {
    var a := Finishes(w, ttl);
    var w1 := End(w, a, ttl);
    var b := Refreshes(w1, "", ttl);
    var w2 := End(w1, b, ttl);
    var c := Hits(w2, ttl);
    var w3 := End(w2, c, ttl);
    var i := |w2.reading|;
    var d := Evicts(w3, w3.reading[i], ttl);
    var w4 := End(w3, d, ttl);
    Loses(w4, i, ttl);
    AppendMoves(w3, d, [Fetch(i)], ttl);
    AppendMoves(w2, c, d + [Fetch(i)], ttl);
    AppendMoves(w1, b, c + (d + [Fetch(i)]), ttl);
    AppendMoves(w, a, b + (c + (d + [Fetch(i)])), ttl);
    moves := a + (b + (c + (d + [Fetch(i)])));
  }

  /** A run in which a read of the configuration is overtaken by two refreshes and raises KeyError. */
  lemma ContentCanMiss() returns (moves: seq<Move>)
    ensures Moves(EMPTY_SOURCE, moves, REVISION_TTL) && End(EMPTY_SOURCE, moves, REVISION_TTL).missed
  {
    moves := Overtaken(EMPTY_SOURCE, REVISION_TTL);
  }

  // Each revision that is waiting to be indexed, or that can be read, has its content.
  predicate AllThere(w: Wide, ttl: Ttl) {
    Covered(w.state.slot, w.content, ttl, w.now) && forall v :: v in w.reading ==> v in w.content
  }

  // No worker is left; a get can only fill the soft cache from the hard one.
  lemma FailedReads(s: State, c: Lru, e: Event, ttl: Ttl, now: real)
    requires StateInv(s, ttl, now) && Enabled(s, e) && ttl.Positive() && LastFailed(s.slot)
    requires Covered(s.slot, c, ttl, now) && !e.EvictSoft? && !e.EvictHard?
    ensures var t := CacheProtocol.Apply(s, e, ttl, now);
            && !e.PopulateOk? && t.slot.tasks == s.slot.tasks && Covered(t.slot, c, ttl, now)
            && forall v :: v in Given(s, t) ==> v in c
  {
    CacheRuns.FailedStays(s, e, ttl, now);
  }

  lemma FailedKeeps(w: Wide, m: Move, ttl: Ttl)
    requires AnyInv(w, ttl) && Allowed(w, m, ttl) && ttl.Positive() && LastFailed(w.state.slot)
    requires AllThere(w, ttl) && !w.missed
    ensures var t := Next(w, m, ttl);
            AnyInv(t, ttl) && LastFailed(t.state.slot) && AllThere(t, ttl) && !t.missed
  {
    AnyKeeps(w, m, ttl);
    match m {
      case Make(e) => FailedReads(w.state, w.content, e, ttl, w.now);
      case Pass(dt) =>
      case Fetch(i) => FailedFetch(w, i, ttl);
    }
  }

  lemma FailedFetch(w: Wide, i: nat, ttl: Ttl)
    requires Distinct(w.content) && i < |w.reading| && AllThere(w, ttl) && !w.missed
    ensures AllThere(Next(w, Fetch(i), ttl), ttl) && !Next(w, Fetch(i), ttl).missed
  {
    var v := w.reading[i];
    DropKeepsOthers(w.content, v);
    assert v in w.reading && forall x :: x in Touch(w.content, v) <==> x in w.content;
    assert forall x :: x in w.reading[..i] + w.reading[i + 1..] ==> x in w.reading;
  }

  lemma {:induction false} FailedNeverMisses(w: Wide, moves: seq<Move>, ttl: Ttl)
    requires AnyInv(w, ttl) && Moves(w, moves, ttl) && ttl.Positive() && LastFailed(w.state.slot)
    requires AllThere(w, ttl) && !w.missed
    ensures !End(w, moves, ttl).missed
    decreases |moves|
  {
    if moves != [] {
      FailedKeeps(w, moves[0], ttl);
      FailedNeverMisses(Next(w, moves[0], ttl), moves[1..], ttl);
    }
  }

  // A revision without content that can still be read is read and indexed.
  lemma Uncovered(w: Wide, ttl: Ttl) returns (moves: seq<Move>)
    requires AnyInv(w, ttl) && ttl.Positive() && LastFailed(w.state.slot) && !AllThere(w, ttl)
    ensures Moves(w, moves, ttl) && End(w, moves, ttl).missed
  {
    if v :| v in w.reading && v !in w.content {
      var i :| 0 <= i < |w.reading| && w.reading[i] == v;
      Loses(w, i, ttl);
      moves := [Fetch(i)];
    } else {
      var read;
      if SoftLookup(w.state.slot, ttl, w.now).Some? {
        read := Hits(w, ttl);
      } else {
        read := Refills(w, ttl);
      }
      var i := |w.reading|;
      Loses(End(w, read, ttl), i, ttl);
      AppendMoves(w, read, [Fetch(i)], ttl);
      moves := read + [Fetch(i)];
    }
  }

  // A get that takes the lock and finds the hard copy.
  lemma Refills(w: Wide, ttl: Ttl) returns (moves: seq<Move>)
    requires AnyInv(w, ttl) && ttl.Positive() && LastFailed(w.state.slot)
    requires SoftLookup(w.state.slot, ttl, w.now).None? && HardLookup(w.state.slot, ttl, w.now).Some?
    ensures Moves(w, moves, ttl)
    ensures var t := End(w, moves, ttl);
            t.content == w.content && t.reading == w.reading + [w.state.slot.hard.value.value]
  {
    var c := |w.state.calls|;
    var begin, read, take := Make(Begin(true)), Make(ReadSoft(c)), Make(TakeLock(c));
    var w1 := Next(w, begin, ttl);
    var w2 := Next(w1, read, ttl);
    assert w2.state.slot == w.state.slot && w2.reading == w.reading;
    ConsMoves(w2, take, [], ttl);
    ConsMoves(w1, read, [take] + [], ttl);
    ConsMoves(w, begin, [read] + ([take] + []), ttl);
    moves := [begin] + ([read] + ([take] + []));
  }

  /**
   Exactly when a miss can still come: unless the last refresh has failed, so that
   no other follows, and all revisions read or readable have their content.
   */
  lemma MissPossibleExactly(moves: seq<Move>, ttl: Ttl)
    requires Moves(EMPTY_SOURCE, moves, ttl) && ttl.Positive() && !End(EMPTY_SOURCE, moves, ttl).missed
    ensures var w := End(EMPTY_SOURCE, moves, ttl);
            (exists more :: Moves(w, more, ttl) && End(w, more, ttl).missed)
            <==> !LastFailed(w.state.slot) || !AllThere(w, ttl)
  {
    AnyRun(EMPTY_SOURCE, moves, ttl);
    var w := End(EMPTY_SOURCE, moves, ttl);
    if !LastFailed(w.state.slot) {
      var more := Overtaken(w, ttl);
    } else if !AllThere(w, ttl) {
      var more := Uncovered(w, ttl);
    } else {
      forall more | Moves(w, more, ttl) ensures !End(w, more, ttl).missed {
        FailedNeverMisses(w, more, ttl);
      }
    }
  }
}
