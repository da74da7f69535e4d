/**
 When a key can still be refreshed: from every state in which its last task has
 not failed, some run submits another one.
 */
module CacheRefresh {
  import opened Basics
  import opened CacheSlot
  import opened CacheProtocol
  import opened CacheRuns

  predicate LastFailed(s: Slot) { |s.tasks| > 0 && s.tasks[|s.tasks| - 1].Failed? }

  // The worker of the last task has nothing left to do.
  predicate Idle(s: Slot) { |s.tasks| > 0 ==> s.tasks[|s.tasks| - 1].FutureDone() }

  function StepsLeft(s: Slot): nat {
    if Idle(s) then 0
    else match s.tasks[|s.tasks| - 1]
      case Running => 5
      case Populated(_) => 4
      case Popped(_) => 3
      case HardStored(_) => 2
      case SoftStored(_) => 1
  }

  // What the worker of the last task does next, when `populate_func` returns.
  function NextStep(s: Slot): Event
    requires !Idle(s)
  {
    var n := |s.tasks| - 1;
    match s.tasks[n]
    case Running => PopulateOk(n, "")
    case Populated(v) => PopFuture(n, v)
    case Popped(v) => WriteHard(n, v)
    case HardStored(v) => WriteSoft(n, v)
    case SoftStored(v) => Unlock(n, v)
  }

  lemma NextStepWorks(s: State, ttl: Ttl, now: real)
    requires StateInv(s, ttl, now) && !Idle(s.slot)
    ensures var e := NextStep(s.slot);
            && Enabled(s, e)
            && var t := Apply(s, e, ttl, now);
               |t.slot.tasks| == |s.slot.tasks| && !LastFailed(t.slot) && StepsLeft(t.slot) < StepsLeft(s.slot)
  {
  }

  // The last task runs to its end.
  lemma {:induction false} Completes(sys: System, ttl: Ttl, k: Key) returns (more: seq<Action>)
    requires SystemInv(sys, ttl) && ttl.Positive() && !LastFailed(sys.Of(k).slot)
    ensures Runs(sys, more, ttl)
    ensures var end := Final(sys, more, ttl);
            && SystemInv(end, ttl) && Idle(end.Of(k).slot) && !LastFailed(end.Of(k).slot)
            && |end.Of(k).slot.tasks| == |sys.Of(k).slot.tasks|
    decreases StepsLeft(sys.Of(k).slot)
  {
    more := [];
    var s := sys.Of(k);
    if !Idle(s.slot) {
      assert StateInv(s, ttl, sys.now);
      NextStepWorks(s, ttl, sys.now);
      var a := On(k, NextStep(s.slot));
      DoKeeps(sys, a, ttl);
      var rest := Completes(Do(sys, a, ttl), ttl, k);
      Cons(sys, a, rest, ttl);
      more := [a] + rest;
    }
  }

  // A get that finds the soft copy expired takes the lock and submits a task.
  lemma Submits(s: State, ttl: Ttl, now: real)
    requires StateInv(s, ttl, now) && Idle(s.slot) && !LastFailed(s.slot) && SoftLookup(s.slot, ttl, now).None?
    ensures var c := |s.calls|;
            var s1 := Apply(s, Begin(true), ttl, now);
            && Enabled(s1, ReadSoft(c))
            && var s2 := Apply(s1, ReadSoft(c), ttl, now);
               && Enabled(s2, TakeLock(c))
               && |Apply(s2, TakeLock(c), ttl, now).slot.tasks| == |s.slot.tasks| + 1
  {
  }

  lemma Resubmits(sys: System, ttl: Ttl, k: Key) returns (more: seq<Action>)
    requires SystemInv(sys, ttl) && ttl.Positive() && Idle(sys.Of(k).slot) && !LastFailed(sys.Of(k).slot)
    ensures Runs(sys, more, ttl) && |Final(sys, more, ttl).Of(k).slot.tasks| == |sys.Of(k).slot.tasks| + 1
  {
    var c := |sys.Of(k).calls|;
    var elapse, begin, read, take := Elapse(ttl.soft), On(k, Begin(true)), On(k, ReadSoft(c)), On(k, TakeLock(c));
    assert StateInv(sys.Of(k), ttl, sys.now);
    DoKeeps(sys, elapse, ttl);
    var sys1 := Do(sys, elapse, ttl);
    assert StateInv(sys1.Of(k), ttl, sys1.now) && sys1.Of(k) == sys.Of(k);
    Submits(sys1.Of(k), ttl, sys1.now);
    var sys2 := Do(sys1, begin, ttl);
    var sys3 := Do(sys2, read, ttl);
    Cons(sys3, take, [], ttl);
    Cons(sys2, read, [take] + [], ttl);
    Cons(sys1, begin, [read] + ([take] + []), ttl);
    Cons(sys, elapse, [begin] + ([read] + ([take] + [])), ttl);
    more := [elapse] + ([begin] + ([read] + ([take] + [])));
  }

  /**
   A key gets no further task in any run exactly when its last `populate_func`
   has raised.
   */
  lemma RefreshableExactly(actions: seq<Action>, ttl: Ttl, k: Key)
    requires Runs(START, actions, ttl) && ttl.Positive()
    ensures var sys := Final(START, actions, ttl);
            LastFailed(sys.Of(k).slot) <==>
            forall more :: Runs(sys, more, ttl) ==> |Final(sys, more, ttl).Of(k).slot.tasks| == |sys.Of(k).slot.tasks|
  {
    Reachable(actions, ttl);
    var sys := Final(START, actions, ttl);
    if LastFailed(sys.Of(k).slot) {
      forall more | Runs(sys, more, ttl)
        ensures |Final(sys, more, ttl).Of(k).slot.tasks| == |sys.Of(k).slot.tasks|
      {
        FailedRefreshIsFinal(sys, more, ttl, k);
      }
    } else {
      var first := Completes(sys, ttl, k);
      var second := Resubmits(Final(sys, first, ttl), ttl, k);
      Append(sys, first, second, ttl);
      assert Runs(sys, first + second, ttl);
    }
  }
}
