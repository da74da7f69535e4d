/**
 The object itself: `TwoLevelCache` with its dictionaries, one method for each
 piece of code that runs without interruption, tied to the pieces of CacheSlot.
 */
module CacheObject {
  import opened Basics
  import opened CacheSlot

  type Key = string

  datatype Outcome = Found(value: Value) | MissingKey | NotReady

  function Get<T>(m: map<Key, T>, k: Key): Option<T> { if k in m then Some(m[k]) else None }

  class TwoLevelCache {
    const ttl: Ttl
    var softCache: map<Key, Entry>
    var hardCache: map<Key, Entry>
    var futures: map<Key, nat>
    var locks: map<Key, nat>
    var submitted: map<Key, seq<Phase>>

    function View(k: Key): Slot
      reads this
    {
      Slot(Get(softCache, k), Get(hardCache, k), Get(futures, k), Get(locks, k),
           if k in submitted then submitted[k] else [])
    }

    constructor (softTtl: real, hardTtl: real)
      ensures ttl == Ttl(softTtl, hardTtl)
      ensures forall k :: View(k) == EMPTY
    {
      ttl := Ttl(softTtl, hardTtl);
      softCache, hardCache, futures, locks, submitted := map[], map[], map[], map[], map[];
    }

    method ReadSoft(key: Key, now: real) returns (found: Option<Entry>)
      ensures found == SoftLookup(View(key), ttl, now)
    {
      found := None;
      if key in softCache && now < softCache[key].storedAt + ttl.soft {
        found := Some(softCache[key]);
      }
    }

    method ReadHard(key: Key, now: real) returns (found: Option<Entry>)
      ensures found == HardLookup(View(key), ttl, now)
    {
      found := None;
      if key in hardCache && now < hardCache[key].storedAt + ttl.hard {
        found := Some(hardCache[key]);
      }
    }

    // From acquiring the lock to releasing it.
    method GetLocked(key: Key, now: real) returns (found: Option<Entry>, future: nat)
      requires key !in locks
      modifies this
      ensures (View(key), found) == LockedSection(old(View(key)), ttl, now)
      ensures View(key).future == Some(future)
      ensures forall k :: k != key ==> View(k) == old(View(k))
    {
      if key !in futures {
        var known := if key in submitted then submitted[key] else [];
        futures := futures[key := |known|];
        submitted := submitted[key := known + [Running]];
      }
      found := ReadHard(key, now);
      if found.Some? {
        softCache := softCache[key := found.value.(storedAt := now)];
      }
      future := futures[key];
    }

    method Mark(key: Key, n: nat, phase: Phase)
      requires n < |View(key).tasks|
      modifies this`submitted
      ensures View(key) == SetPhase(old(View(key)), n, phase)
      ensures forall k :: k != key ==> View(k) == old(View(k))
    {
      submitted := submitted[key := submitted[key][n := phase]];
    }

    // The four writes of `_work` under the lock.
    method TakeAndPop(key: Key, n: nat, v: Value)
      requires key !in locks && key in futures && n < |View(key).tasks|
      modifies this
      ensures View(key) == Pop(old(View(key)), n, v)
      ensures forall k :: k != key ==> View(k) == old(View(k))
    {
      locks := locks[key := n];
      futures := map k | k in futures && k != key :: futures[k];
      Mark(key, n, Popped(v));
    }

    method WriteHard(key: Key, n: nat, v: Value, now: real)
      requires n < |View(key).tasks|
      modifies this
      ensures View(key) == StoreHard(old(View(key)), n, v, now)
      ensures forall k :: k != key ==> View(k) == old(View(k))
    {
      hardCache := hardCache[key := Entry(v, n, now, now)];
      Mark(key, n, HardStored(v));
    }

    method WriteSoft(key: Key, n: nat, v: Value, now: real)
      requires n < |View(key).tasks|
      modifies this
      ensures View(key) == StoreSoft(old(View(key)), n, v, now)
      ensures forall k :: k != key ==> View(k) == old(View(k))
    {
      softCache := softCache[key := Entry(v, n, now, now)];
      Mark(key, n, SoftStored(v));
    }

    method Unlock(key: Key, n: nat, v: Value)
      requires n < |View(key).tasks|
      modifies this
      ensures View(key) == Release(old(View(key)), n, v)
      ensures forall k :: k != key ==> View(k) == old(View(k))
    {
      locks := map k | k in locks && k != key :: locks[k];
      Mark(key, n, Finished(v));
    }

    // `_work` after `populate_func` has returned `v`.
    method Publish(key: Key, n: nat, v: Value, now: real)
      requires Inv(View(key), ttl, now) && ttl.Positive()
      requires key !in locks && At(View(key), n, Populated(v))
      modifies this
      ensures View(key) == Published(old(View(key)), n, v, now)
      ensures forall k :: k != key ==> View(k) == old(View(k))
    {
      PopKeeps(View(key), ttl, now, n, v);
      TakeAndPop(key, n, v);
      WriteHard(key, n, v, now);
      WriteSoft(key, n, v, now);
      Unlock(key, n, v);
    }

    // `_work` as a whole; `populated` is None when `populate_func` raises.
    method Work(key: Key, n: nat, populated: Option<Value>, now: real)
      requires Inv(View(key), ttl, now) && ttl.Positive()
      requires key !in locks && At(View(key), n, Running)
      modifies this
      ensures Inv(View(key), ttl, now)
      ensures View(key) ==
        if populated.Some? then
          Published(SetPhase(old(View(key)), n, Populated(populated.value)), n, populated.value, now)
        else SetPhase(old(View(key)), n, Failed)
      ensures forall k :: k != key ==> View(k) == old(View(k))
    {
      if populated.Some? {
        PopulateKeeps(View(key), ttl, now, n, Populated(populated.value));
        Mark(key, n, Populated(populated.value));
        PublishKeeps(View(key), ttl, now, n, populated.value);
        Publish(key, n, populated.value, now);
      } else {
        PopulateKeeps(View(key), ttl, now, n, Failed);
        Mark(key, n, Failed);
      }
    }

    /**
     A whole get with no other thread about. A future that is already there is
     either still to be run or has failed.
     */
    method GetValue(key: Key, populated: Option<Value>, blocking: bool, now: real) returns (r: Outcome)
      requires Inv(View(key), ttl, now) && ttl.Positive() && key !in locks
      requires key in futures && futures[key] < |View(key).tasks| ==>
                 View(key).tasks[futures[key]].Running? || View(key).tasks[futures[key]].Failed?
      modifies this
      ensures forall k :: k != key ==> View(k) == old(View(k))
      ensures Inv(View(key), ttl, now)
      ensures Alone(old(View(key)), View(key), ttl, populated, blocking, now, r)
      ensures var soft := key in old(softCache) && now < old(softCache)[key].storedAt + ttl.soft;
              var hard := key in old(hardCache) && now < old(hardCache)[key].storedAt + ttl.hard;
              && (soft ==> r == Found(old(softCache)[key].value))
              && (!soft && hard ==> r == Found(old(hardCache)[key].value))
              && (r.NotReady? <==> !soft && !hard && !blocking)
              && (!soft && !hard && blocking ==>
                   var stuck := key in old(futures) && old(View(key)).tasks[old(futures)[key]].Failed?;
                   r == if populated.Some? && !stuck then Found(populated.value) else MissingKey)
      ensures r.Found? ==> SoftLookup(View(key), ttl, now).Some? && View(key).soft.value.value == r.value
      ensures !r.Found? ==> View(key).future.Some?
    {
      ghost var before := View(key);
      var found := ReadSoft(key, now);
      if found.Some? { return Found(found.value.value); }
      r := GetMissed(key, populated, blocking, now);
      AloneLeaves(before, View(key), ttl, populated, blocking, now, r);
    }

    // The part of a get that follows a miss of the soft cache.
    method GetMissed(key: Key, populated: Option<Value>, blocking: bool, now: real) returns (r: Outcome)
      requires Inv(View(key), ttl, now) && ttl.Positive() && key !in locks
      requires key in futures && futures[key] < |View(key).tasks| ==>
                 View(key).tasks[futures[key]].Running? || View(key).tasks[futures[key]].Failed?
      requires !Live(View(key).soft, ttl.soft, now)
      modifies this
      ensures forall k :: k != key ==> View(k) == old(View(k))
      ensures Inv(View(key), ttl, now)
      ensures Alone(old(View(key)), View(key), ttl, populated, blocking, now, r)
    {
      LockedSectionKeeps(View(key), ttl, now);
      var found, future := GetLocked(key, now);
      if found.Some? { return Found(found.value.value); }
      if !blocking { return NotReady; }
      r := Await(key, future, populated, now);
    }

    // `wait([future])` and the read that follows, with no other thread about.
    method Await(key: Key, future: nat, populated: Option<Value>, now: real) returns (r: Outcome)
      requires Inv(View(key), ttl, now) && ttl.Positive() && key !in locks
      requires View(key).future == Some(future) && HardLookup(View(key), ttl, now).None?
      requires future < |View(key).tasks| && (View(key).tasks[future].Running? || View(key).tasks[future].Failed?)
      modifies this
      ensures forall k :: k != key ==> View(k) == old(View(k))
      ensures Inv(View(key), ttl, now)
      ensures r == if old(View(key)).tasks[future].Running? && populated.Some? then Found(populated.value)
                   else MissingKey
      ensures View(key) ==
        if old(View(key)).tasks[future].Running? && populated.Some? then
          var e := Some(Entry(populated.value, future, now, now));
          Slot(e, e, None, None, old(View(key)).tasks[future := Finished(populated.value)])
        else old(View(key)).(tasks := old(View(key)).tasks[future := Failed])
      ensures r.Found? ==> SoftLookup(View(key), ttl, now).Some? && View(key).soft.value.value == r.value
      ensures !r.Found? ==> View(key).future.Some?
    {
      if submitted[key][future].Running? {
        Work(key, future, populated, now);
      }
      var found := ReadHard(key, now);
      r := if found.Some? then Found(found.value.value) else MissingKey;
    }
  }

  function Published(s: Slot, n: nat, v: Value, now: real): Slot
    requires n < |s.tasks|
  {
    Release(StoreSoft(StoreHard(Pop(s, n, v), n, v, now), n, v, now), n, v)
  }

  // After the locked section there is a task, an old one or a new one.
  function Asked(s: Slot): Slot {
    if s.future.Some? then s else s.(future := Some(|s.tasks|), tasks := s.tasks + [Running])
  }

  predicate Live(e: Option<Entry>, lifetime: real, now: real) { e.Some? && now < e.value.storedAt + lifetime }

  // The answer of a lone get, and the slot it leaves.
  predicate Alone(before: Slot, after: Slot, ttl: Ttl, populated: Option<Value>, blocking: bool, now: real,
                  r: Outcome) {
    if Live(before.soft, ttl.soft, now) then r == Found(before.soft.value.value) && after == before
    else if Live(before.hard, ttl.hard, now) then
      && r == Found(before.hard.value.value)
      && after == Asked(before).(soft := Some(before.hard.value.(storedAt := now)))
    else if !blocking then r == NotReady && after == Asked(before)
    else
      var n := Asked(before).future.value;
      && n < |Asked(before).tasks|
      && if Asked(before).tasks[n].Running? && populated.Some? then
           var e := Some(Entry(populated.value, n, now, now));
           && r == Found(populated.value)
           && after == Slot(e, e, None, None, Asked(before).tasks[n := Finished(populated.value)])
         else
           && r == MissingKey
           && after == Asked(before).(tasks := Asked(before).tasks[n := Failed])
  }

  lemma AloneLeaves(before: Slot, after: Slot, ttl: Ttl, populated: Option<Value>, blocking: bool, now: real,
                    r: Outcome)
    requires Alone(before, after, ttl, populated, blocking, now, r) && ttl.Positive()
    ensures r.Found? ==> Live(after.soft, ttl.soft, now) && after.soft.value.value == r.value
    ensures !r.Found? ==> after.future.Some?
  {
  }

  lemma PublishKeeps(s: Slot, ttl: Ttl, now: real, n: nat, v: Value)
    requires Inv(s, ttl, now) && At(s, n, Populated(v)) && s.holder.None? && ttl.Positive()
    ensures Inv(Published(s, n, v, now), ttl, now)
  {
    PopKeeps(s, ttl, now, n, v);
    StoreHardKeeps(Pop(s, n, v), ttl, now, n, v);
    StoreSoftKeeps(StoreHard(Pop(s, n, v), n, v, now), ttl, now, n, v);
    ReleaseKeeps(StoreSoft(StoreHard(Pop(s, n, v), n, v, now), n, v, now), ttl, now, n, v);
  }
}
