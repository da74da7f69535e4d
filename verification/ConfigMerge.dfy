/** `recursive_merge`, and the merging of the Operations defaults built on it. */
module ConfigMerge {

  // A configuration value: None, anything that is not a dict, or a dict.
  datatype Value = Null | Leaf(text: string) | Dict(entries: map<string, Value>)

  const EMPTY := Dict(map[])

  ghost function Merge(base: Value, over: Value): Value {
    if base.Dict? && over.Dict? then
      Dict((map k | k in base.entries ::
              if k in over.entries then Merge(base.entries[k], over.entries[k]) else base.entries[k])
           + (map k | k in over.entries && k !in base.entries :: over.entries[k]))
    else if over != Null then over
    else base
  }

  function At(v: Value, k: string): Value
    requires v.Dict?
  {
    if k in v.entries then v.entries[k] else Null
  }

  /** Two dicts merge key by key, an absent key counting as None. */
  lemma MergeAt(base: Value, over: Value, k: string)
    requires base.Dict? && over.Dict?
    ensures k in Merge(base, over).entries <==> k in base.entries || k in over.entries
    ensures At(Merge(base, over), k) == Merge(At(base, k), At(over, k))
  {
  }

  // The loops over the two dicts.
  method RecursiveMerge(base: Value, over: Value) returns (merged: Value)
    ensures merged == Merge(base, over)
    decreases base
  {
    if base.Dict? && over.Dict? {
      merged := MergeEntries(base, over);
    } else {
      merged := if over != Null then over else base;
    }
  }

  method MergeEntries(base: Value, over: Value) returns (merged: Value)
    requires base.Dict? && over.Dict?
    ensures merged == Merge(base, over)
    decreases base, 0
  {
    var result: map<string, Value> := map[];
    var todo := base.entries.Keys;
    while todo != {}
      invariant todo <= base.entries.Keys
      invariant result.Keys == base.entries.Keys - todo
      invariant forall k :: k in result ==> result[k] == Merge(base.entries[k], At(over, k))
      decreases todo
    {
      var k :| k in todo;
      todo := todo - {k};
      var v := base.entries[k];
      if k in over.entries { v := RecursiveMerge(base.entries[k], over.entries[k]); }
      result := result[k := v];
    }
    todo := over.entries.Keys;
    while todo != {}
      invariant todo <= over.entries.Keys
      invariant result.Keys == base.entries.Keys + (over.entries.Keys - todo)
      invariant forall k :: k in result ==> result[k] == Merge(At(base, k), At(over, k))
      decreases todo
    {
      var k :| k in todo;
      todo := todo - {k};
      if k !in result { result := result[k := over.entries[k]]; }
    }
    merged := Dict(result);
    forall k ensures k in result <==> k in Merge(base, over).entries
             ensures k in result ==> result[k] == Merge(base, over).entries[k] {
      MergeAt(base, over, k);
    }
    assert result == Merge(base, over).entries;
  }

  // ------------------------------------------------------------------
  // Laws
  // ------------------------------------------------------------------

  /** None is an identity on both sides. */
  lemma NullIsIdentity(v: Value)
    ensures Merge(Null, v) == v && Merge(v, Null) == v
  {
  }

  /** A plain value wins over whatever was there, and over a plain value anything but None wins. */
  lemma OverrideWins(base: Value, over: Value)
    ensures over != Null && !(base.Dict? && over.Dict?) ==> Merge(base, over) == over
  {
  }

  // What the documentation asks of a merge, without saying how it is computed.
  ghost predicate MergesAll(f: (Value, Value) -> Value) {
    forall base, over ::
      && (over == Null ==> f(base, over) == base)
      && (over != Null && !(base.Dict? && over.Dict?) ==> f(base, over) == over)
      && (base.Dict? && over.Dict? ==>
           && f(base, over).Dict?
           && (forall k :: k in f(base, over).entries <==> k in base.entries || k in over.entries)
           && (forall k :: k in f(base, over).entries ==>
                f(base, over).entries[k] == f(At(base, k), At(over, k))))
  }

  lemma MergeMergesAll()
    ensures MergesAll((base, over) => Merge(base, over))
  {
    forall base: Value, over: Value | base.Dict? && over.Dict?
      ensures Merge(base, over).Dict?
      ensures forall k :: k in Merge(base, over).entries <==> k in base.entries || k in over.entries
      ensures forall k :: k in Merge(base, over).entries ==>
                Merge(base, over).entries[k] == Merge(At(base, k), At(over, k))
    {
    }
  }

  /** Only one function merges so, and it is this one. */
  lemma {:induction false} MergeIsUnique(f: (Value, Value) -> Value, base: Value, over: Value)
    requires MergesAll(f)
    ensures f(base, over) == Merge(base, over)
    decreases base
  {
    if base.Dict? && over.Dict? {
      forall k | k in f(base, over).entries
        ensures f(base, over).entries[k] == Merge(base, over).entries[k]
      {
        MergeAt(base, over, k);
        if k in base.entries {
          MergeIsUnique(f, base.entries[k], At(over, k));
        } else {
          assert f(Null, over.entries[k]) == over.entries[k];
        }
      }
      assert f(base, over).entries == Merge(base, over).entries;
    }
  }

  lemma {:induction false} MergeIdempotent(v: Value)
    ensures Merge(v, v) == v
  {
    if v.Dict? {
      forall k | k in v.entries ensures Merge(v.entries[k], v.entries[k]) == v.entries[k] {
        MergeIdempotent(v.entries[k]);
      }
      assert Merge(v, v).entries == v.entries;
    }
  }

  /** Merging the same base in again changes nothing. */
  lemma {:induction false} MergeTwice(base: Value, v: Value)
    ensures Merge(base, Merge(base, v)) == Merge(base, v)
  {
    if base.Dict? && v.Dict? {
      var once := Merge(base, v);
      forall k | k in base.entries ensures Merge(base.entries[k], once.entries[k]) == once.entries[k] {
        if k in v.entries { MergeTwice(base.entries[k], v.entries[k]); } else { MergeIdempotent(base.entries[k]); }
      }
      assert Merge(base, once).entries == once.entries;
    } else if base.Dict? && v == Null {
      MergeIdempotent(base);
    }
  }

  // `v` leaves nothing of `base`: its keys, recursively, cover those of `base`.
  predicate Covers(v: Value, base: Value) {
    if v.Dict? && base.Dict? then forall k :: k in base.entries ==>
        k in v.entries && Covers(v.entries[k], base.entries[k])
    else v != Null || base == Null
  }

  lemma {:induction false} CoversMeans(base: Value, v: Value)
    ensures Merge(base, v) == v <==> Covers(v, base)
  {
    if base.Dict? && v.Dict? {
      forall k | k in base.entries && k in v.entries
        ensures Merge(base.entries[k], v.entries[k]) == v.entries[k] <==> Covers(v.entries[k], base.entries[k])
      {
        CoversMeans(base.entries[k], v.entries[k]);
      }
      var m := Merge(base, v);
      if Covers(v, base) { assert m.entries == v.entries; }
      if m == v {
        forall k | k in base.entries ensures k in v.entries && Covers(v.entries[k], base.entries[k]) {
          assert k in m.entries;
        }
      }
    }
  }

  // Wherever a dict is first replaced by a plain value and that by a dict
  // again, the last dict covers the first.
  predicate NoRevival(a: Value, b: Value, c: Value) {
    if a.Dict? && b.Leaf? && c.Dict? then Covers(c, a)
    else if a.Dict? && b.Dict? && c.Dict? then
      forall k :: k in a.entries && k in b.entries && k in c.entries ==>
        NoRevival(a.entries[k], b.entries[k], c.entries[k])
    else true
  }

  /** Exactly when two merges may be done in either order. */
  lemma {:induction false} MergeAssociativeIff(a: Value, b: Value, c: Value)
    ensures Merge(Merge(a, b), c) == Merge(a, Merge(b, c)) <==> NoRevival(a, b, c)
  {
    if a.Dict? && b.Leaf? && c.Dict? {
      CoversMeans(a, c);
    } else if a.Dict? && b.Dict? && c.Dict? {
      var l, r := Merge(Merge(a, b), c), Merge(a, Merge(b, c));
      forall k
        ensures k in l.entries <==> k in r.entries
        ensures At(l, k) == At(r, k) <==> NoRevivalAt(a, b, c, k)
      {
        AssociativeAt(a, b, c, k);
        if k in a.entries && k in b.entries && k in c.entries {
          MergeAssociativeIff(a.entries[k], b.entries[k], c.entries[k]);
        }
      }
      assert NoRevival(a, b, c) <==> forall k :: k in a.entries ==> NoRevivalAt(a, b, c, k);
      if l == r {
        forall k ensures NoRevivalAt(a, b, c, k) { assert At(l, k) == At(r, k); }
      } else {
        assert l.entries != r.entries;
        var k :| k in l.entries && l.entries[k] != r.entries[k];
        assert !NoRevivalAt(a, b, c, k);
      }
    }
  }

  predicate NoRevivalAt(a: Value, b: Value, c: Value, k: string)
    requires a.Dict? && b.Dict? && c.Dict?
  {
    k in a.entries && k in b.entries && k in c.entries ==> NoRevival(a.entries[k], b.entries[k], c.entries[k])
  }

  lemma AssociativeAt(a: Value, b: Value, c: Value, k: string)
    requires a.Dict? && b.Dict? && c.Dict?
    ensures var l, r := Merge(Merge(a, b), c), Merge(a, Merge(b, c));
            && (k in l.entries <==> k in r.entries)
            && At(l, k) == Merge(Merge(At(a, k), At(b, k)), At(c, k))
            && At(r, k) == Merge(At(a, k), Merge(At(b, k), At(c, k)))
            && (!(k in a.entries && k in b.entries && k in c.entries) ==> At(l, k) == At(r, k))
  {
    MergeAt(a, b, k);
    MergeAt(b, c, k);
    MergeAt(Merge(a, b), c, k);
    MergeAt(a, Merge(b, c), k);
    NullIsIdentity(At(a, k));
    NullIsIdentity(At(b, k));
    NullIsIdentity(Merge(At(a, k), At(b, k)));
  }

  // The promise in its plain form: no path holds a dict, a plain value, a dict.
  predicate NoSandwich(a: Value, b: Value, c: Value) {
    !(a.Dict? && b.Leaf? && c.Dict?)
    && (a.Dict? && b.Dict? && c.Dict? ==>
          forall k :: k in a.entries && k in b.entries && k in c.entries ==>
            NoSandwich(a.entries[k], b.entries[k], c.entries[k]))
  }

  lemma {:induction false} MergeAssociative(a: Value, b: Value, c: Value)
    requires NoSandwich(a, b, c)
    ensures NoRevival(a, b, c) && Merge(Merge(a, b), c) == Merge(a, Merge(b, c))
  {
    if a.Dict? && b.Dict? && c.Dict? {
      forall k | k in a.entries && k in b.entries && k in c.entries
        ensures NoRevival(a.entries[k], b.entries[k], c.entries[k])
      {
        MergeAssociative(a.entries[k], b.entries[k], c.entries[k]);
      }
    }
    MergeAssociativeIff(a, b, c);
  }

  // ------------------------------------------------------------------
  // Config.ensure_operations_defaults
  // ------------------------------------------------------------------

  type Operations = map<string, Value>

  function Own(operations: Operations, vo: string): Value {
    if vo in operations then operations[vo] else EMPTY
  }

  function DefaultsOf(operations: Operations): Value { Own(operations, "Defaults") }

  function Others(operations: Operations): Operations { operations - {"Defaults"} }

  // With the conversion mode of DIRAC on, the Defaults entry is kept and unused.
  ghost function WithDefaults(operations: Operations, vos: set<string>, conversion: bool): Operations {
    var defaults := if conversion then EMPTY else DefaultsOf(operations);
    Completed(if conversion then operations else Others(operations), defaults, vos)
  }

  ghost function Completed(rest: Operations, defaults: Value, vos: set<string>): Operations {
    rest + map vo | vo in vos :: Merge(defaults, Own(rest, vo))
  }

  method EnsureOperationsDefaults(operations: Operations, registry: set<string>, conversion: bool)
    returns (result: Operations)
    ensures result == WithDefaults(operations, registry, conversion)
  {
    if conversion {
      result := Complete(operations, EMPTY, registry);
    } else {
      result := Complete(Others(operations), DefaultsOf(operations), registry);
    }
  }

  // The loop over the registered VOs.
  method Complete(rest: Operations, defaults: Value, registry: set<string>) returns (result: Operations)
    ensures result == Completed(rest, defaults, registry)
  {
    result := rest;
    var todo := registry;
    while todo != {}
      invariant todo <= registry
      invariant result == Completed(rest, defaults, registry - todo)
      decreases todo
    {
      var vo :| vo in todo;
      assert Own(result, vo) == Own(rest, vo);
      var merged := RecursiveMerge(defaults, Own(result, vo));
      CompletedOneMore(rest, defaults, registry - todo, vo);
      assert registry - (todo - {vo}) == registry - todo + {vo};
      result := result[vo := merged];
      todo := todo - {vo};
    }
    assert registry - todo == registry;
  }

  lemma CompletedOneMore(rest: Operations, defaults: Value, done: set<string>, vo: string)
    ensures Completed(rest, defaults, done + {vo})
              == Completed(rest, defaults, done)[vo := Merge(defaults, Own(rest, vo))]
  {
  }

  /** Each registered VO ends with the defaults overridden by its own entry; the Defaults entry is gone. */
  lemma DefaultsMerged(operations: Operations, vos: set<string>)
    ensures var r := WithDefaults(operations, vos, false);
            && (forall vo :: vo in vos && vo != "Defaults" ==>
                  vo in r && r[vo] == Merge(DefaultsOf(operations), Own(operations, vo)))
            && (forall vo :: vo !in vos && vo != "Defaults" ==> (vo in r <==> vo in operations))
            && (forall vo :: vo !in vos && vo in r ==> r[vo] == operations[vo])
            && ("Defaults" !in vos ==> "Defaults" !in r)
  {
  }

  /**
   With the conversion mode of DIRAC on, nothing is merged and nothing goes: each
   registered VO keeps its entry, an absent or null one becoming empty.
   */
  lemma ConversionKeeps(operations: Operations, vos: set<string>)
    ensures var r := WithDefaults(operations, vos, true);
            && r.Keys == operations.Keys + vos
            && forall vo :: vo in r ==>
                 r[vo] == if vo in operations
                     && (vo !in vos || operations[vo] != Null) then operations[vo] else Dict(map[])
  {
    forall vo | vo in vos {
      EmptyBase(EMPTY, Own(operations, vo));
    }
  }

  // Both the defaults and the entry of some VO are explicit nulls.
  predicate DoubleNull(operations: Operations, vos: set<string>) {
    DefaultsOf(operations) == Null && exists vo :: vo in vos && vo != "Defaults" && Own(operations, vo) == Null
  }

  /**
   Loading a configuration that was already completed changes nothing, exactly
   unless null defaults meet a null entry; a VO called Defaults does no harm.
   */
  lemma CompletedOnce(operations: Operations, vos: set<string>)
    ensures var once := WithDefaults(operations, vos, false);
            WithDefaults(once, vos, false) == once <==> !DoubleNull(operations, vos)
  {
    var d := DefaultsOf(operations);
    var once := WithDefaults(operations, vos, false);
    var twice := WithDefaults(once, vos, false);
    var e := DefaultsOf(once);
    assert e == if "Defaults" in vos then Merge(d, EMPTY) else EMPTY;
    assert once.Keys == twice.Keys;
    forall vo | vo in vos && vo != "Defaults"
      ensures twice[vo] == Merge(e, once[vo])
      ensures twice[vo] == once[vo] <==> !(d == Null && Own(operations, vo) == Null)
    {
      assert once[vo] == Merge(d, Own(operations, vo));
      MergeTwice(d, Own(operations, vo));
      EmptyBase(d, once[vo]);
    }
    if "Defaults" in vos {
      assert once["Defaults"] == e && twice["Defaults"] == Merge(e, EMPTY);
      EmptyBase(d, e);
    }
    if !DoubleNull(operations, vos) {
      assert forall vo :: vo in once ==> once[vo] == twice[vo];
    }
  }

  lemma EmptyBase(d: Value, v: Value)
    ensures v != Null ==> Merge(EMPTY, v) == v
    ensures Merge(EMPTY, Null) == EMPTY
    ensures d.Dict? ==> Merge(d, EMPTY) == d
    ensures !d.Dict? ==> Merge(d, EMPTY) == EMPTY
  {
    if v.Dict? { assert Merge(EMPTY, v).entries == v.entries; }
    if d.Dict? { assert Merge(d, EMPTY).entries == d.entries; }
  }
}
