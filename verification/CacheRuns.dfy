/**
 Runs of a whole `TwoLevelCache`: every key has its own lock, future and tasks;
 the clock is shared. The theorems speak about every state that any sequence of
 enabled actions reaches from the empty cache.
 */
module CacheRuns {
  import opened Basics
  import opened CacheSlot
  import opened CacheProtocol

  type Key = string

  datatype System = System(now: real, keys: map<Key, State>)
  {
    function Of(k: Key): State { if k in keys then keys[k] else INIT }
  }

  const START := System(0.0, map[])

  datatype Action = On(key: Key, event: Event) | Elapse(seconds: real)

  predicate Possible(sys: System, a: Action) {
    match a
    case On(k, e) => Enabled(sys.Of(k), e)
    case Elapse(dt) => dt >= 0.0
  }

  function Do(sys: System, a: Action, ttl: Ttl): System
    requires Possible(sys, a)
  {
    match a
    case On(k, e) => sys.(keys := sys.keys[k := Apply(sys.Of(k), e, ttl, sys.now)])
    case Elapse(dt) => sys.(now := sys.now + dt)
  }

  predicate Runs(sys: System, actions: seq<Action>, ttl: Ttl)
    decreases |actions|
  {
    actions == [] || (Possible(sys, actions[0]) && Runs(Do(sys, actions[0], ttl), actions[1..], ttl))
  }

  function Final(sys: System, actions: seq<Action>, ttl: Ttl): System
    requires Runs(sys, actions, ttl)
    decreases |actions|
  {
    if actions == [] then sys else Final(Do(sys, actions[0], ttl), actions[1..], ttl)
  }

  ghost predicate SystemInv(sys: System, ttl: Ttl) {
    forall k :: StateInv(sys.Of(k), ttl, sys.now)
  }

  lemma DoKeeps(sys: System, a: Action, ttl: Ttl)
    requires SystemInv(sys, ttl) && Possible(sys, a) && ttl.Positive()
    ensures SystemInv(Do(sys, a, ttl), ttl)
  {
    var next := Do(sys, a, ttl);
    forall k ensures StateInv(next.Of(k), ttl, next.now) {
      assert StateInv(sys.Of(k), ttl, sys.now);
      match a {
        case On(key, e) => if key == k { StepKeeps(sys.Of(k), e, ttl, sys.now); }
        case Elapse(dt) => WaitKeeps(sys.Of(k), ttl, sys.now, next.now);
      }
    }
  }

  lemma {:induction false} RunKeeps(sys: System, actions: seq<Action>, ttl: Ttl)
    requires SystemInv(sys, ttl) && Runs(sys, actions, ttl) && ttl.Positive()
    ensures SystemInv(Final(sys, actions, ttl), ttl)
    decreases |actions|
  {
    if actions != [] {
      DoKeeps(sys, actions[0], ttl);
      RunKeeps(Do(sys, actions[0], ttl), actions[1..], ttl);
    }
  }

  lemma Reachable(actions: seq<Action>, ttl: Ttl)
    requires Runs(START, actions, ttl) && ttl.Positive()
    ensures SystemInv(Final(START, actions, ttl), ttl)
  {
    assert SystemInv(START, ttl);
    RunKeeps(START, actions, ttl);
  }

  // ------------------------------------------------------------------
  // Single flight
  // ------------------------------------------------------------------

  /**
   In every run, a key has at most one task that is not over; a task has its
   future in the table exactly until it pops it, under its own number; and no
   task starts before all earlier ones of the key have stored their results.
   */
  lemma SingleFlightTheorem(actions: seq<Action>, ttl: Ttl, k: Key)
    requires Runs(START, actions, ttl) && ttl.Positive()
    ensures var s := Final(START, actions, ttl).Of(k).slot;
            && (forall m, n | 0 <= m < |s.tasks| && 0 <= n < |s.tasks| ::
                  !s.tasks[m].Finished? && !s.tasks[n].Finished? ==> m == n)
            && (forall n :: 0 <= n < |s.tasks| ==> (s.tasks[n].Pending() <==> s.future == Some(n)))
            && (forall m :: 0 <= m < |s.tasks| - 1 ==> s.tasks[m].Finished?)
  {
    Reachable(actions, ttl);
    assert StateInv(Final(START, actions, ttl).Of(k), ttl, Final(START, actions, ttl).now);
  }

  /**
   `futures.pop(key)` never misses, and a reader inside its locked section
   always finds the future it is about to wait for, unfinished or failed.
   */
  lemma FuturesNeverMiss(actions: seq<Action>, ttl: Ttl, k: Key, e: Event)
    requires Runs(START, actions, ttl) && ttl.Positive()
    requires Possible(Final(START, actions, ttl), On(k, e))
    ensures var s := Final(START, actions, ttl).Of(k);
            && (e.PopFuture? ==> s.slot.future == Some(e.n))
            && (e.TakeLock? ==>
                 var t := Lock(s, e.c, ttl, Final(START, actions, ttl).now);
                 && t.slot.future.Some?
                 && t.slot.future.value < |t.slot.tasks|
                 && t.slot.tasks[t.slot.future.value].Pending())
  {
    Reachable(actions, ttl);
    var sys := Final(START, actions, ttl);
    assert StateInv(sys.Of(k), ttl, sys.now);
    if e.TakeLock? { LockKeeps(sys.Of(k), e.c, ttl, sys.now); }
  }

  // ------------------------------------------------------------------
  // Generations and ages
  // ------------------------------------------------------------------

  /** While the lock of a key is free, its two caches hold the same value. */
  lemma SameGenerationWhenFree(actions: seq<Action>, ttl: Ttl, k: Key)
    requires Runs(START, actions, ttl) && ttl.Positive()
    ensures var s := Final(START, actions, ttl).Of(k).slot;
            s.holder.None? && s.soft.Some? && s.hard.Some? ==>
              s.soft.value.gen == s.hard.value.gen && s.soft.value.value == s.hard.value.value
  {
    Reachable(actions, ttl);
    assert StateInv(Final(START, actions, ttl).Of(k), ttl, Final(START, actions, ttl).now);
  }

  /**
   Every value ever returned is what its task computed, was stored less than
   soft_ttl + hard_ttl before, and is no older than the task its call waited
   for. After a settled reply no older generation is ever returned.
   */
  lemma RepliesTheorem(actions: seq<Action>, ttl: Ttl, k: Key)
    requires Runs(START, actions, ttl) && ttl.Positive()
    ensures var s := Final(START, actions, ttl).Of(k);
            && (forall i :: 0 <= i < |s.log| ==> Genuine(s.log[i], s.slot))
            && (forall i :: 0 <= i < |s.log| ==> s.log[i].at - s.log[i].origin < ttl.soft + ttl.hard)
            && (forall i, j :: 0 <= i < j < |s.log| && s.log[i].settled ==> s.log[i].gen <= s.log[j].gen)
  {
    Reachable(actions, ttl);
    assert StateInv(Final(START, actions, ttl).Of(k), ttl, Final(START, actions, ttl).now);
  }

  lemma {:induction false} LogGrows(sys: System, actions: seq<Action>, ttl: Ttl, k: Key)
    requires Runs(sys, actions, ttl)
    ensures sys.Of(k).log <= Final(sys, actions, ttl).Of(k).log
    decreases |actions|
  {
    if actions != [] {
      var next := Do(sys, actions[0], ttl);
      assert sys.Of(k).log <= next.Of(k).log;
      LogGrows(next, actions[1..], ttl, k);
    }
  }

  // Reply `i` of a key is followed, somewhere in the run, by an older value.
  predicate Regresses(sys: System, more: seq<Action>, ttl: Ttl, k: Key, i: nat) {
    && Runs(sys, more, ttl)
    && var log := Final(sys, more, ttl).Of(k).log;
       exists j :: i < j < |log| && log[j].gen < log[i].gen
  }

  lemma SettledNeverRegresses(sys: System, more: seq<Action>, ttl: Ttl, k: Key, i: nat)
    requires SystemInv(sys, ttl) && ttl.Positive()
    requires i < |sys.Of(k).log| && sys.Of(k).log[i].settled
    ensures !Regresses(sys, more, ttl, k, i)
  {
    if Runs(sys, more, ttl) {
      RunKeeps(sys, more, ttl);
      LogGrows(sys, more, ttl, k);
      var end := Final(sys, more, ttl);
      assert StateInv(end.Of(k), ttl, end.now);
    }
  }

  // Two more steps, one fresh get that hits the soft cache, show the older value.
  lemma UnsettledRegresses(sys: System, ttl: Ttl, k: Key)
    requires k in sys.keys && |sys.Of(k).log| > 0
    requires var r := sys.Of(k).log[|sys.Of(k).log| - 1];
             !r.settled && !Settled(sys.Of(k).slot, ttl, sys.now, r.gen)
    ensures var s := sys.Of(k);
            Regresses(sys, [On(k, Begin(true)), On(k, ReadSoft(|s.calls|))], ttl, k, |s.log| - 1)
  {
    var s := sys.Of(k);
    var begin, read := On(k, Begin(true)), On(k, ReadSoft(|s.calls|));
    var sys1 := Do(sys, begin, ttl);
    var sys2 := Do(sys1, read, ttl);
    assert [begin, read][1..] == [read] && [read][1..] == [];
    assert Runs(sys2, [], ttl) && Runs(sys1, [read], ttl) && Runs(sys, [begin, read], ttl);
    assert Final(sys, [begin, read], ttl) == Final(sys1, [read], ttl) == Final(sys2, [], ttl) == sys2;
    assert sys2.Of(k).log == s.log + [sys2.Of(k).log[|s.log|]];
    assert sys2.Of(k).log[|s.log|].gen < s.log[|s.log| - 1].gen;
  }

  /**
   Exactly which replies can be followed by an older one: those given, without
   the lock, between the worker's two cache writes, while the soft cache still
   holds a live older copy.
   */
  lemma RegressionExactlyWhenUnsettled(actions: seq<Action>, ttl: Ttl, k: Key, e: Event)
    requires Runs(START, actions, ttl) && ttl.Positive()
    requires Possible(Final(START, actions, ttl), On(k, e))
    requires var sys := Final(START, actions, ttl);
             |Apply(sys.Of(k), e, ttl, sys.now).log| == |sys.Of(k).log| + 1
    ensures var sys := Final(START, actions, ttl);
            var next := Do(sys, On(k, e), ttl);
            var i := |sys.Of(k).log|;
            && next.Of(k).log[i].settled == Settled(next.Of(k).slot, ttl, next.now, next.Of(k).log[i].gen)
            && (!next.Of(k).log[i].settled <==> exists more :: Regresses(next, more, ttl, k, i))
            && (!next.Of(k).log[i].settled ==> (e.IndexHard? || e.FallBack?) && MidPublish(sys.Of(k).slot))
  {
    Reachable(actions, ttl);
    var sys := Final(START, actions, ttl);
    var s := sys.Of(k);
    assert StateInv(s, ttl, sys.now);
    DoKeeps(sys, On(k, e), ttl);
    var next := Do(sys, On(k, e), ttl);
    var i := |s.log|;
    if next.Of(k).log[i].settled {
      forall more ensures !Regresses(next, more, ttl, k, i) {
        SettledNeverRegresses(next, more, ttl, k, i);
      }
    } else {
      UnsettledRegresses(next, ttl, k);
    }
  }

  lemma FailedStays(s: State, e: Event, ttl: Ttl, now: real)
    requires StateInv(s, ttl, now) && Enabled(s, e)
    requires |s.slot.tasks| > 0 && s.slot.tasks[|s.slot.tasks| - 1].Failed?
    ensures Apply(s, e, ttl, now).slot.tasks == s.slot.tasks
  {
  }

  /**
   A `populate_func` that raises leaves its future in the table: from then on no
   run ever submits another task for the key.
   */
  lemma {:induction false} FailedRefreshIsFinal(sys: System, more: seq<Action>, ttl: Ttl, k: Key)
    requires SystemInv(sys, ttl) && ttl.Positive() && Runs(sys, more, ttl)
    requires var s := sys.Of(k).slot; |s.tasks| > 0 && s.tasks[|s.tasks| - 1].Failed?
    ensures Final(sys, more, ttl).Of(k).slot.tasks == sys.Of(k).slot.tasks
    decreases |more|
  {
    if more != [] {
      assert StateInv(sys.Of(k), ttl, sys.now);
      DoKeeps(sys, more[0], ttl);
      if more[0].On? && more[0].key == k { FailedStays(sys.Of(k), more[0].event, ttl, sys.now); }
      FailedRefreshIsFinal(Do(sys, more[0], ttl), more[1..], ttl, k);
    }
  }

  // Runs can be put together.
  lemma Cons(sys: System, a: Action, rest: seq<Action>, ttl: Ttl)
    requires Possible(sys, a) && Runs(Do(sys, a, ttl), rest, ttl)
    ensures Runs(sys, [a] + rest, ttl)
    ensures Final(sys, [a] + rest, ttl) == Final(Do(sys, a, ttl), rest, ttl)
  {
    assert ([a] + rest)[1..] == rest;
  }

  lemma {:induction false} Append(sys: System, a: seq<Action>, b: seq<Action>, ttl: Ttl)
    requires Runs(sys, a, ttl) && Runs(Final(sys, a, ttl), b, ttl)
    ensures Runs(sys, a + b, ttl) && Final(sys, a + b, ttl) == Final(Final(sys, a, ttl), b, ttl)
    decreases |a|
  {
    if a == [] {
      assert a + b == b;
    } else {
      Append(Do(sys, a[0], ttl), a[1..], b, ttl);
      Cons(sys, a[0], a[1..] + b, ttl);
      assert [a[0]] + (a[1..] + b) == a + b;
    }
  }
}
