/**
 The part of `TwoLevelCache` that belongs to one key: the entry of the key in
 the soft and in the hard cache, its row in the `futures` table, the holder of
 its lock, and every population task ever submitted for it.

 Each function below is one uninterrupted piece of `get` or `_work`. A reader's
 locked section is one piece; the worker's locked section is four, because
 readers look at both caches without taking the lock.
 */
module CacheSlot {
  import opened Basics

  type Value = string

  datatype Ttl = Ttl(soft: real, hard: real)
  {
    predicate Positive() { soft > 0.0 && hard > 0.0 }
  }

  // `gen` is the task that produced the value, `origin` the moment a worker
  // stored it, `storedAt` the moment this copy entered its cache.
  datatype Entry = Entry(value: Value, gen: nat, origin: real, storedAt: real)

  // The life of one submitted `_work` call.
  datatype Phase =
    | Running
    | Failed
    | Populated(result: Value)
    | Popped(result: Value)
    | HardStored(result: Value)
    | SoftStored(result: Value)
    | Finished(result: Value)
  {
    // Submitted, future still in the table.
    predicate Pending() { Running? || Failed? || Populated? }
    // Between acquiring and releasing the lock of the key.
    predicate Critical() { Popped? || HardStored? || SoftStored? }
    predicate Published() { HardStored? || SoftStored? || Finished? }
    // What `wait([future])` waits for.
    predicate FutureDone() { Finished? || Failed? }
  }

  datatype Slot = Slot(
    soft: Option<Entry>,
    hard: Option<Entry>,
    future: Option<nat>,
    holder: Option<nat>,
    tasks: seq<Phase>)

  const EMPTY := Slot(None, None, None, None, [])

  // `TTLCache.get`: an entry counts only before its time-to-live has passed.
  function Lookup(entry: Option<Entry>, ttl: real, now: real): Option<Entry> {
    if entry.Some? && now < entry.value.storedAt + ttl then entry else None
  }

  function SoftLookup(s: Slot, ttl: Ttl, now: real): Option<Entry> { Lookup(s.soft, ttl.soft, now) }

  function HardLookup(s: Slot, ttl: Ttl, now: real): Option<Entry> { Lookup(s.hard, ttl.hard, now) }

  function Submit(s: Slot): Slot {
    if s.future.None? then s.(future := Some(|s.tasks|), tasks := s.tasks + [Running]) else s
  }

  // The reader's locked section: submit unless a future is known, then answer
  // from the hard cache and copy the answer into the soft one.
  function LockedSection(s: Slot, ttl: Ttl, now: real): (Slot, Option<Entry>) {
    var found := HardLookup(s, ttl, now);
    var submitted := Submit(s);
    if found.Some? then (submitted.(soft := Some(found.value.(storedAt := now))), found)
    else (submitted, None)
  }

  function SetPhase(s: Slot, n: nat, phase: Phase): Slot
    requires n < |s.tasks|
  {
    s.(tasks := s.tasks[n := phase])
  }

  predicate At(s: Slot, n: nat, phase: Phase) {
    n < |s.tasks| && s.tasks[n] == phase
  }

  // The worker takes the lock and pops the future of the key, whichever it is.
  function Pop(s: Slot, n: nat, v: Value): Slot
    requires n < |s.tasks|
  {
    SetPhase(s, n, Popped(v)).(holder := Some(n), future := None)
  }

  function StoreHard(s: Slot, n: nat, v: Value, now: real): Slot
    requires n < |s.tasks|
  {
    SetPhase(s, n, HardStored(v)).(hard := Some(Entry(v, n, now, now)))
  }

  function StoreSoft(s: Slot, n: nat, v: Value, now: real): Slot
    requires n < |s.tasks|
  {
    SetPhase(s, n, SoftStored(v)).(soft := Some(Entry(v, n, now, now)))
  }

  function Release(s: Slot, n: nat, v: Value): Slot
    requires n < |s.tasks|
  {
    SetPhase(s, n, Finished(v)).(holder := None)
  }

  // ------------------------------------------------------------------
  // The invariant of a slot
  // ------------------------------------------------------------------

  // Single flight. Every task but the last one is over, and the last one is in
  // the futures table or holds the lock exactly when its phase says so.
  predicate SingleFlight(s: Slot) {
    && (forall n :: 0 <= n < |s.tasks| - 1 ==> s.tasks[n].Finished?)
    && (s.future.Some? ==> s.future.value == |s.tasks| - 1)
    && (s.holder.Some? ==> s.holder.value == |s.tasks| - 1)
    && (s.future.Some? <==> |s.tasks| > 0 && s.tasks[|s.tasks| - 1].Pending())
    && (s.holder.Some? <==> |s.tasks| > 0 && s.tasks[|s.tasks| - 1].Critical())
  }

  predicate FromTask(s: Slot, e: Entry) {
    e.gen < |s.tasks| && s.tasks[e.gen].Published() && e.value == s.tasks[e.gen].result
  }

  // The last task has written the hard cache and not yet the soft one.
  predicate MidPublish(s: Slot) {
    |s.tasks| > 0 && s.tasks[|s.tasks| - 1].HardStored?
  }

  predicate Entries(s: Slot) {
    && (s.soft.Some? ==> FromTask(s, s.soft.value))
    && (s.hard.Some? ==> FromTask(s, s.hard.value))
    && (s.soft.Some? && MidPublish(s) ==> s.soft.value.gen < |s.tasks| - 1)
    && (s.hard.Some? && MidPublish(s) ==> s.hard.value.gen == |s.tasks| - 1)
    && (s.soft.Some? && s.hard.Some? && !MidPublish(s) ==> s.soft.value.gen == s.hard.value.gen)
  }

  // No cached copy is older than a task that has written both caches.
  predicate Newest(s: Slot) {
    forall n :: 0 <= n < |s.tasks| && (s.tasks[n].SoftStored? || s.tasks[n].Finished?) ==>
      && (s.soft.Some? ==> n <= s.soft.value.gen)
      && (s.hard.Some? ==> n <= s.hard.value.gen)
  }

  predicate Ages(s: Slot, ttl: Ttl, now: real) {
    && (s.hard.Some? ==> s.hard.value.origin == s.hard.value.storedAt <= now)
    && (s.soft.Some? ==> s.soft.value.origin <= s.soft.value.storedAt <= now)
    && (s.soft.Some? ==> s.soft.value.storedAt < s.soft.value.origin + ttl.hard)
  }

  predicate Inv(s: Slot, ttl: Ttl, now: real) {
    SingleFlight(s) && Entries(s) && Newest(s) && Ages(s, ttl, now)
  }

  // No generation below `g` can be read from this slot any more.
  predicate AtLeast(s: Slot, ttl: Ttl, now: real, g: nat) {
    && g < |s.tasks|
    && s.tasks[g].Published()
    && (SoftLookup(s, ttl, now).Some? ==> g <= s.soft.value.gen)
    && (s.hard.Some? ==> g <= s.hard.value.gen)
  }

  // Tasks are only added, a published task stays published with its result, and
  // a task that is over stays as it is.
  predicate Grows(a: Slot, b: Slot) {
    && |a.tasks| <= |b.tasks|
    && (forall n :: 0 <= n < |a.tasks| && a.tasks[n].Published() ==>
         b.tasks[n].Published() && b.tasks[n].result == a.tasks[n].result)
    && (forall n :: 0 <= n < |a.tasks| && a.tasks[n].FutureDone() ==> b.tasks[n] == a.tasks[n])
  }

  // ------------------------------------------------------------------
  // Every piece keeps the invariant
  // ------------------------------------------------------------------

  lemma SubmitKeeps(s: Slot, ttl: Ttl, now: real)
    requires Inv(s, ttl, now) && s.holder.None?
    ensures Inv(Submit(s), ttl, now) && Submit(s).future.Some?
    ensures forall g :: AtLeast(s, ttl, now, g) ==> AtLeast(Submit(s), ttl, now, g)
  {
  }

  // The soft cache is filled from the hard one under the lock.
  lemma FillKeeps(s: Slot, ttl: Ttl, now: real)
    requires Inv(s, ttl, now) && s.holder.None? && HardLookup(s, ttl, now).Some? && ttl.Positive()
    ensures Inv(s.(soft := Some(s.hard.value.(storedAt := now))), ttl, now)
    ensures forall g :: AtLeast(s, ttl, now, g) ==>
              AtLeast(s.(soft := Some(s.hard.value.(storedAt := now))), ttl, now, g)
  {
  }

  // The reader that reaches `self.futures[key]` finds an entry there.
  lemma LockedSectionKeeps(s: Slot, ttl: Ttl, now: real)
    requires Inv(s, ttl, now) && s.holder.None? && ttl.Positive()
    ensures Inv(LockedSection(s, ttl, now).0, ttl, now)
    ensures LockedSection(s, ttl, now).0.future.Some? && Grows(s, LockedSection(s, ttl, now).0)
    ensures forall g :: AtLeast(s, ttl, now, g) ==> AtLeast(LockedSection(s, ttl, now).0, ttl, now, g)
  {
    SubmitKeeps(s, ttl, now);
    if HardLookup(s, ttl, now).Some? {
      FillKeeps(Submit(s), ttl, now);
    }
  }

  lemma PopulateKeeps(s: Slot, ttl: Ttl, now: real, n: nat, phase: Phase)
    requires Inv(s, ttl, now) && At(s, n, Running) && (phase.Failed? || phase.Populated?)
    ensures Inv(SetPhase(s, n, phase), ttl, now) && Grows(s, SetPhase(s, n, phase))
    ensures forall g :: AtLeast(s, ttl, now, g) ==> AtLeast(SetPhase(s, n, phase), ttl, now, g)
  {
  }

  // `futures.pop(key)` finds an entry, and it is the worker's own.
  lemma PopKeeps(s: Slot, ttl: Ttl, now: real, n: nat, v: Value)
    requires Inv(s, ttl, now) && At(s, n, Populated(v)) && s.holder.None?
    ensures s.future == Some(n)
    ensures Inv(Pop(s, n, v), ttl, now) && Grows(s, Pop(s, n, v))
    ensures forall g :: AtLeast(s, ttl, now, g) ==> AtLeast(Pop(s, n, v), ttl, now, g)
  {
  }

  lemma StoreHardKeeps(s: Slot, ttl: Ttl, now: real, n: nat, v: Value)
    requires Inv(s, ttl, now) && At(s, n, Popped(v))
    ensures Inv(StoreHard(s, n, v, now), ttl, now) && Grows(s, StoreHard(s, n, v, now))
    ensures forall g :: AtLeast(s, ttl, now, g) ==> AtLeast(StoreHard(s, n, v, now), ttl, now, g)
  {
  }

  lemma StoreSoftKeeps(s: Slot, ttl: Ttl, now: real, n: nat, v: Value)
    requires Inv(s, ttl, now) && At(s, n, HardStored(v)) && ttl.Positive()
    ensures Inv(StoreSoft(s, n, v, now), ttl, now) && Grows(s, StoreSoft(s, n, v, now))
    ensures forall g :: AtLeast(s, ttl, now, g) ==> AtLeast(StoreSoft(s, n, v, now), ttl, now, g)
  {
  }

  lemma ReleaseKeeps(s: Slot, ttl: Ttl, now: real, n: nat, v: Value)
    requires Inv(s, ttl, now) && At(s, n, SoftStored(v))
    ensures Inv(Release(s, n, v), ttl, now) && Grows(s, Release(s, n, v))
    ensures forall g :: AtLeast(s, ttl, now, g) ==> AtLeast(Release(s, n, v), ttl, now, g)
  {
  }

  lemma EvictKeeps(s: Slot, ttl: Ttl, now: real)
    requires Inv(s, ttl, now)
    ensures Inv(s.(soft := None), ttl, now) && Inv(s.(hard := None), ttl, now)
    ensures forall g :: AtLeast(s, ttl, now, g) ==>
              AtLeast(s.(soft := None), ttl, now, g) && AtLeast(s.(hard := None), ttl, now, g)
  {
  }

  lemma TimeKeeps(s: Slot, ttl: Ttl, now: real, later: real)
    requires Inv(s, ttl, now) && now <= later
    ensures Inv(s, ttl, later)
    ensures forall g :: AtLeast(s, ttl, now, g) ==> AtLeast(s, ttl, later, g)
  {
  }
}
