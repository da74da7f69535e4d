/**
 Any number of `TwoLevelCache.get` calls and pool workers on one key, with every
 interleaving of their steps.

 A `get` reads the soft cache without the lock, then runs its locked section,
 then (blocking) waits for the future and indexes the hard cache, or
 (non-blocking) looks it up. The last two reads also happen without the lock.
 A non-blocking `acquire` may fail in any state, which covers its failing
 because another reader is inside its section.
 */
module CacheProtocol {
  import opened Basics
  import opened CacheSlot

  datatype Pc =
    | AtSoft
    | AtLock
    | Waiting(task: nat)
    | AtIndex(task: nat)
    | AtFallback
    | Answered(gen: nat)
    | MissingKey
    | NotReady

  datatype Call = Call(blocking: bool, pc: Pc)

  // What a finished get gave back, and the task it waited for, if any. It is
  // settled when, at that moment, no older generation was still readable from
  // the soft cache.
  datatype Reply = Reply(
    gen: nat, value: Value, origin: real, at: real, awaited: Option<nat>, settled: bool)

  datatype State = State(slot: Slot, calls: seq<Call>, log: seq<Reply>)

  const INIT := State(EMPTY, [], [])

  datatype Event =
    | Begin(blocking: bool)
    | ReadSoft(c: nat)
    | TakeLock(c: nat)
    | LockBusy(c: nat)
    | Wake(c: nat)
    | IndexHard(c: nat)
    | FallBack(c: nat)
    | PopulateOk(n: nat, v: Value)
    | PopulateFails(n: nat)
    | PopFuture(n: nat, v: Value)
    | WriteHard(n: nat, v: Value)
    | WriteSoft(n: nat, v: Value)
    | Unlock(n: nat, v: Value)
    | EvictSoft
    | EvictHard

  predicate CallAt(s: State, c: nat, pc: Pc) { c < |s.calls| && s.calls[c].pc == pc }

  predicate Enabled(s: State, e: Event) {
    match e
    case Begin(_) => true
    case ReadSoft(c) => CallAt(s, c, AtSoft)
    case TakeLock(c) => CallAt(s, c, AtLock) && s.slot.holder.None?
    case LockBusy(c) => CallAt(s, c, AtLock) && !s.calls[c].blocking
    case Wake(c) =>
      && c < |s.calls| && s.calls[c].pc.Waiting?
      && s.calls[c].pc.task < |s.slot.tasks| && s.slot.tasks[s.calls[c].pc.task].FutureDone()
    case IndexHard(c) => c < |s.calls| && s.calls[c].pc.AtIndex?
    case FallBack(c) => CallAt(s, c, AtFallback)
    case PopulateOk(n, _) => At(s.slot, n, Running)
    case PopulateFails(n) => At(s.slot, n, Running)
    case PopFuture(n, v) => At(s.slot, n, Populated(v)) && s.slot.holder.None?
    case WriteHard(n, v) => At(s.slot, n, Popped(v))
    case WriteSoft(n, v) => At(s.slot, n, HardStored(v))
    case Unlock(n, v) => At(s.slot, n, SoftStored(v))
    case EvictSoft => true
    case EvictHard => true
  }

  function Goto(s: State, c: nat, pc: Pc): State
    requires c < |s.calls|
  {
    s.(calls := s.calls[c := s.calls[c].(pc := pc)])
  }

  predicate Settled(slot: Slot, ttl: Ttl, now: real, g: nat) {
    SoftLookup(slot, ttl, now).Some? ==> g <= slot.soft.value.gen
  }

  function Answer(s: State, c: nat, e: Entry, ttl: Ttl, now: real): State
    requires c < |s.calls|
  {
    var awaited := if s.calls[c].pc.AtIndex? then Some(s.calls[c].pc.task) else None;
    Goto(s, c, Answered(e.gen)).(
      log := s.log + [Reply(e.gen, e.value, e.origin, now, awaited, Settled(s.slot, ttl, now, e.gen))])
  }

  function AnswerOr(s: State, c: nat, found: Option<Entry>, missing: Pc, ttl: Ttl, now: real): State
    requires c < |s.calls|
  {
    if found.Some? then Answer(s, c, found.value, ttl, now) else Goto(s, c, missing)
  }

  function Lock(s: State, c: nat, ttl: Ttl, now: real): State
    requires c < |s.calls|
  {
    var (slot, found) := LockedSection(s.slot, ttl, now);
    var after := s.(slot := slot);
    var future := if slot.future.Some? then slot.future.value else 0;
    AnswerOr(after, c, found, if s.calls[c].blocking then Waiting(future) else AtFallback, ttl, now)
  }

  function Apply(s: State, e: Event, ttl: Ttl, now: real): State
    requires Enabled(s, e)
  {
    match e
    case Begin(blocking) => s.(calls := s.calls + [Call(blocking, AtSoft)])
    case ReadSoft(c) => AnswerOr(s, c, SoftLookup(s.slot, ttl, now), AtLock, ttl, now)
    case TakeLock(c) => Lock(s, c, ttl, now)
    case LockBusy(c) => Goto(s, c, AtFallback)
    case Wake(c) => Goto(s, c, AtIndex(s.calls[c].pc.task))
    case IndexHard(c) => AnswerOr(s, c, HardLookup(s.slot, ttl, now), MissingKey, ttl, now)
    case FallBack(c) => AnswerOr(s, c, HardLookup(s.slot, ttl, now), NotReady, ttl, now)
    case PopulateOk(n, v) => s.(slot := SetPhase(s.slot, n, Populated(v)))
    case PopulateFails(n) => s.(slot := SetPhase(s.slot, n, Failed))
    case PopFuture(n, v) => s.(slot := Pop(s.slot, n, v))
    case WriteHard(n, v) => s.(slot := StoreHard(s.slot, n, v, now))
    case WriteSoft(n, v) => s.(slot := StoreSoft(s.slot, n, v, now))
    case Unlock(n, v) => s.(slot := Release(s.slot, n, v))
    case EvictSoft => s.(slot := s.slot.(soft := None))
    case EvictHard => s.(slot := s.slot.(hard := None))
  }

  // ------------------------------------------------------------------
  // The invariant over calls and replies
  // ------------------------------------------------------------------

  predicate Bounded(r: Reply, ttl: Ttl) {
    r.origin <= r.at < r.origin + ttl.hard + ttl.soft
  }

  predicate Genuine(r: Reply, slot: Slot) {
    && r.gen < |slot.tasks| && slot.tasks[r.gen].Published() && r.value == slot.tasks[r.gen].result
    && (r.awaited.Some? ==>
         && r.awaited.value < |slot.tasks|
         && slot.tasks[r.awaited.value].FutureDone()
         && (slot.tasks[r.awaited.value].Finished? ==> r.awaited.value <= r.gen))
  }

  predicate LogInv(s: State, ttl: Ttl, now: real) {
    && (forall i :: 0 <= i < |s.log| ==> Bounded(s.log[i], ttl) && Genuine(s.log[i], s.slot))
    && (forall i :: 0 <= i < |s.log| && s.log[i].settled ==> AtLeast(s.slot, ttl, now, s.log[i].gen))
    && (forall i, j :: 0 <= i < j < |s.log| && s.log[i].settled ==> s.log[i].gen <= s.log[j].gen)
  }

  // A call that waits, waits for a task of this key, and goes on when it is done.
  predicate CallsInv(s: State) {
    forall c :: 0 <= c < |s.calls| ==>
      && (s.calls[c].pc.Waiting? ==> s.calls[c].pc.task < |s.slot.tasks|)
      && (s.calls[c].pc.AtIndex? ==>
           s.calls[c].pc.task < |s.slot.tasks| && s.slot.tasks[s.calls[c].pc.task].FutureDone())
  }

  predicate StateInv(s: State, ttl: Ttl, now: real) {
    Inv(s.slot, ttl, now) && LogInv(s, ttl, now) && CallsInv(s)
  }

  lemma SlotStepKeepsLog(s: State, slot: Slot, ttl: Ttl, now: real, later: real)
    requires LogInv(s, ttl, now) && Grows(s.slot, slot)
    requires forall g :: AtLeast(s.slot, ttl, now, g) ==> AtLeast(slot, ttl, later, g)
    ensures LogInv(s.(slot := slot), ttl, later)
    ensures CallsInv(s) ==> CallsInv(s.(slot := slot))
  {
    forall i | 0 <= i < |s.log|
      ensures Genuine(s.log[i], slot)
    {
      assert Genuine(s.log[i], s.slot);
    }
  }

  lemma AnswerKeeps(s: State, c: nat, e: Entry, ttl: Ttl, now: real)
    requires StateInv(s, ttl, now) && c < |s.calls| && ttl.Positive()
    requires SoftLookup(s.slot, ttl, now) == Some(e) || HardLookup(s.slot, ttl, now) == Some(e)
    ensures StateInv(Answer(s, c, e, ttl, now), ttl, now)
  {
    var t := Answer(s, c, e, ttl, now);
    var r := t.log[|s.log|];
    assert Genuine(r, s.slot) && Bounded(r, ttl);
    assert forall i :: 0 <= i < |s.log| ==> t.log[i] == s.log[i];
    assert r.settled ==> AtLeast(s.slot, ttl, now, r.gen);
    assert forall i :: 0 <= i < |s.log| && s.log[i].settled ==> s.log[i].gen <= e.gen;
  }

  lemma LockKeeps(s: State, c: nat, ttl: Ttl, now: real)
    requires StateInv(s, ttl, now) && Enabled(s, TakeLock(c)) && ttl.Positive()
    ensures StateInv(Lock(s, c, ttl, now), ttl, now)
  {
    LockedSectionKeeps(s.slot, ttl, now);
    var (slot, found) := LockedSection(s.slot, ttl, now);
    SlotStepKeepsLog(s, slot, ttl, now, now);
    if found.Some? {
      AnswerKeeps(s.(slot := slot), c, found.value, ttl, now);
    }
  }

  lemma WorkerStepKeeps(s: State, e: Event, ttl: Ttl, now: real)
    requires StateInv(s, ttl, now) && Enabled(s, e) && ttl.Positive()
    requires e.PopulateOk? || e.PopulateFails? || e.PopFuture? || e.WriteHard? || e.WriteSoft? || e.Unlock?
    ensures StateInv(Apply(s, e, ttl, now), ttl, now)
  {
    match e {
      case PopulateOk(n, v) => PopulateKeeps(s.slot, ttl, now, n, Populated(v));
      case PopulateFails(n) => PopulateKeeps(s.slot, ttl, now, n, Failed);
      case PopFuture(n, v) => PopKeeps(s.slot, ttl, now, n, v);
      case WriteHard(n, v) => StoreHardKeeps(s.slot, ttl, now, n, v);
      case WriteSoft(n, v) => StoreSoftKeeps(s.slot, ttl, now, n, v);
      case Unlock(n, v) => ReleaseKeeps(s.slot, ttl, now, n, v);
    }
    SlotStepKeepsLog(s, Apply(s, e, ttl, now).slot, ttl, now, now);
  }

  lemma ReaderStepKeeps(s: State, e: Event, ttl: Ttl, now: real)
    requires StateInv(s, ttl, now) && Enabled(s, e) && ttl.Positive()
    requires e.Begin? || e.ReadSoft? || e.TakeLock? || e.LockBusy? || e.Wake? || e.IndexHard? || e.FallBack?
    ensures StateInv(Apply(s, e, ttl, now), ttl, now)
  {
    match e {
      case ReadSoft(c) =>
        if SoftLookup(s.slot, ttl, now).Some? { AnswerKeeps(s, c, s.slot.soft.value, ttl, now); }
      case IndexHard(c) =>
        if HardLookup(s.slot, ttl, now).Some? { AnswerKeeps(s, c, s.slot.hard.value, ttl, now); }
      case FallBack(c) =>
        if HardLookup(s.slot, ttl, now).Some? { AnswerKeeps(s, c, s.slot.hard.value, ttl, now); }
      case TakeLock(c) => LockKeeps(s, c, ttl, now);
      case _ =>
    }
  }

  lemma StepKeeps(s: State, e: Event, ttl: Ttl, now: real)
    requires StateInv(s, ttl, now) && Enabled(s, e) && ttl.Positive()
    ensures StateInv(Apply(s, e, ttl, now), ttl, now)
  {
    if e.EvictSoft? || e.EvictHard? {
      EvictKeeps(s.slot, ttl, now);
      SlotStepKeepsLog(s, Apply(s, e, ttl, now).slot, ttl, now, now);
    } else if e.Begin? || e.ReadSoft? || e.TakeLock? || e.LockBusy? || e.Wake? || e.IndexHard? || e.FallBack? {
      ReaderStepKeeps(s, e, ttl, now);
    } else {
      WorkerStepKeeps(s, e, ttl, now);
    }
  }

  lemma WaitKeeps(s: State, ttl: Ttl, now: real, later: real)
    requires StateInv(s, ttl, now) && now <= later
    ensures StateInv(s, ttl, later)
  {
    TimeKeeps(s.slot, ttl, now, later);
    SlotStepKeepsLog(s, s.slot, ttl, now, later);
  }
}
