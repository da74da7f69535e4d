/**
 `ConfigSource`: a `TwoLevelCache` with the single key "latest_revision" over an
 LRU cache of the contents of two revisions, which is indexed without a guard.

 Getting the revision and indexing the content is one step here, and two in
 `ConfigRace`. The clock may move at any time, but the worker's two cache writes
 are no further apart than the two lifetimes. Latest revisions are arbitrary: the
 branch may move back to an earlier one.
 */
module ConfigProtocol {
  import opened Basics
  import opened CacheSlot
  import opened CacheProtocol

  // The keys of `LRUCache(maxsize=2)`, least recently used first.
  type Lru = seq<Value>

  const CAPACITY := 2

  predicate Distinct(c: Lru) { forall i, j :: 0 <= i < j < |c| ==> c[i] != c[j] }

  predicate Newer(c: Lru, v: Value) { |c| > 0 && c[|c| - 1] == v }

  function Drop(c: Lru, v: Value): (r: Lru) {
    if c == [] then [] else if c[0] == v then c[1..] else [c[0]] + Drop(c[1..], v)
  }

  // `cache[v]` on a hit: `v` becomes the most recently used key.
  function Touch(c: Lru, v: Value): Lru { Drop(c, v) + [v] }

  // `if v not in cache: cache[v] = ...`
  function Admit(c: Lru, v: Value): Lru {
    if v in c then c else (if |c| >= CAPACITY then c[1..] else c) + [v]
  }

  lemma {:induction false} DropKeepsOthers(c: Lru, v: Value)
    requires Distinct(c)
    ensures Distinct(Drop(c, v)) && v !in Drop(c, v)
    ensures |Drop(c, v)| == if v in c then |c| - 1 else |c|
    ensures forall x :: x in Drop(c, v) <==> x in c && x != v
  {
    if c != [] {
      var rest := c[1..];
      assert c == [c[0]] + rest && c[0] !in rest;
      DropKeepsOthers(rest, v);
    }
  }

  // `missed` records that some index of the content cache raised KeyError.
  datatype Source = Source(now: real, state: State, content: Lru, missed: bool)

  const BOOT := Source(0.0, INIT, [], false)

  datatype Step = Do(event: Event) | Elapse(seconds: real)

  predicate Possible(src: Source, step: Step, ttl: Ttl) {
    match step
    case Do(e) => Enabled(src.state, e) && !e.EvictSoft? && !e.EvictHard?
    case Elapse(dt) => dt >= 0.0 && SoonAfter(src.state.slot, ttl, src.now + dt)
  }

  // The worker's second cache write does not come later than this after its first.
  predicate SoonAfter(s: Slot, ttl: Ttl, now: real) {
    MidPublish(s) && s.hard.Some? ==> now - s.hard.value.storedAt <= ttl.hard - ttl.soft
  }

  // `_content_cache[hexsha]` for the revision just returned.
  function Index(src: Source, v: Value): Source {
    if v in src.content then src.(content := Touch(src.content, v)) else src.(missed := true)
  }

  /** An index that does not find its revision is noted for good. */
  lemma MissNoted(src: Source, v: Value)
    ensures Index(src, v).missed <==> src.missed || v !in src.content
  {
  }

  function Apply(src: Source, step: Step, ttl: Ttl): Source
    requires Possible(src, step, ttl)
  {
    match step
    case Elapse(dt) => src.(now := src.now + dt)
    case Do(e) =>
      var next := src.(state := CacheProtocol.Apply(src.state, e, ttl, src.now));
      if |next.state.log| > |src.state.log| then Index(next, next.state.log[|src.state.log|].value)
      else if e.PopulateOk? then next.(content := Admit(src.content, e.v))
      else next
  }

  predicate Runs(src: Source, steps: seq<Step>, ttl: Ttl)
    decreases |steps|
  {
    steps == [] || (Possible(src, steps[0], ttl) && Runs(Apply(src, steps[0], ttl), steps[1..], ttl))
  }

  function Final(src: Source, steps: seq<Step>, ttl: Ttl): Source
    requires Runs(src, steps, ttl)
    decreases |steps|
  {
    if steps == [] then src else Final(Apply(src, steps[0], ttl), steps[1..], ttl)
  }

  // ------------------------------------------------------------------
  // The invariant
  // ------------------------------------------------------------------

  function Last(s: Slot): Option<Phase> {
    if |s.tasks| > 0 then Some(s.tasks[|s.tasks| - 1]) else None
  }

  // Every revision that can still be read has its content.
  predicate Covered(s: Slot, c: Lru, ttl: Ttl, now: real) {
    && (SoftLookup(s, ttl, now).Some? ==> s.soft.value.value in c)
    && (HardLookup(s, ttl, now).Some? ==> s.hard.value.value in c)
  }

  // While a refresh is about to read the branch, the current revision is the
  // most recently used one.
  predicate CurrentIsNewest(s: Slot, c: Lru, ttl: Ttl, now: real) {
    Last(s) == Some(Running) ==>
      && (SoftLookup(s, ttl, now).Some? ==> Newer(c, s.soft.value.value))
      && (HardLookup(s, ttl, now).Some? ==> Newer(c, s.hard.value.value))
  }

  // A revision read but not yet in both caches has its content.
  predicate NextCovered(s: Slot, c: Lru) {
    Last(s).Some? && (Last(s).value.Populated? || Last(s).value.Critical()) ==> Last(s).value.result in c
  }

  // With no refresh pending, the soft copy expires no later than the hard one.
  predicate InStep(s: Slot, ttl: Ttl, now: real) {
    && (MidPublish(s) ==> s.hard.Some? && now - s.hard.value.storedAt <= ttl.hard - ttl.soft)
    && (s.future.None? && s.soft.Some? && Last(s).Some? && (Last(s).value.SoftStored? || Last(s).value.Finished?) ==>
          s.hard.Some? && s.soft.value.storedAt + ttl.soft <= s.hard.value.storedAt + ttl.hard)
  }

  predicate SourceInv(src: Source, ttl: Ttl) {
    && !src.missed
    && StateInv(src.state, ttl, src.now)
    && Distinct(src.content) && |src.content| <= CAPACITY
    && Covered(src.state.slot, src.content, ttl, src.now)
    && CurrentIsNewest(src.state.slot, src.content, ttl, src.now)
    && NextCovered(src.state.slot, src.content)
    && InStep(src.state.slot, ttl, src.now)
  }

  // ------------------------------------------------------------------
  // Every step keeps it
  // ------------------------------------------------------------------

  predicate SlotInv(s: Slot, c: Lru, ttl: Ttl, now: real) {
    Covered(s, c, ttl, now) && CurrentIsNewest(s, c, ttl, now) && NextCovered(s, c) && InStep(s, ttl, now)
  }

  // Touching the one live revision keeps everything.
  lemma TouchKeeps(s: Slot, c: Lru, v: Value, ttl: Ttl, now: real)
    requires Inv(s, ttl, now) && Distinct(c) && |c| <= CAPACITY && v in c
    requires Covered(s, c, ttl, now) && NextCovered(s, c) && InStep(s, ttl, now)
    requires (SoftLookup(s, ttl, now).Some? && s.soft.value.value == v)
               || (HardLookup(s, ttl, now).Some? && s.hard.value.value == v)
    ensures SlotInv(s, Touch(c, v), ttl, now) && Distinct(Touch(c, v)) && |Touch(c, v)| <= CAPACITY
  {
    DropKeepsOthers(c, v);
    assert forall x :: x in Touch(c, v) <==> x in c;
  }

  lemma LockedCovers(s: Slot, c: Lru, ttl: Ttl, now: real)
    requires Inv(s, ttl, now) && s.holder.None? && ttl.Positive() && ttl.soft <= ttl.hard
    requires Covered(s, c, ttl, now) && NextCovered(s, c) && InStep(s, ttl, now)
    ensures var t := LockedSection(s, ttl, now).0;
            Covered(t, c, ttl, now) && NextCovered(t, c) && InStep(t, ttl, now)
  {
  }

  // A refresh submitted while the hard copy is gone finds the soft one gone too.
  lemma LockedKeeps(s: Slot, c: Lru, ttl: Ttl, now: real)
    requires Inv(s, ttl, now) && SlotInv(s, c, ttl, now) && s.holder.None?
    requires ttl.Positive() && ttl.soft <= ttl.hard
    ensures var t := LockedSection(s, ttl, now).0;
            && Covered(t, c, ttl, now) && NextCovered(t, c) && InStep(t, ttl, now)
            && (HardLookup(s, ttl, now).None? ==> CurrentIsNewest(t, c, ttl, now))
  {
  }

  lemma AdmitKeeps(s: Slot, c: Lru, n: nat, v: Value, ttl: Ttl, now: real)
    requires Inv(s, ttl, now) && SlotInv(s, c, ttl, now) && At(s, n, Running)
    requires Distinct(c) && |c| <= CAPACITY
    ensures SlotInv(SetPhase(s, n, Populated(v)), Admit(c, v), ttl, now)
    ensures Distinct(Admit(c, v)) && |Admit(c, v)| <= CAPACITY
  {
    assert n == |s.tasks| - 1;
    assert |c| == CAPACITY ==> c == [c[0], c[1]];
  }

  lemma WorkerKeeps(src: Source, e: Event, ttl: Ttl)
    requires SourceInv(src, ttl) && Possible(src, Do(e), ttl) && ttl.Positive() && ttl.soft <= ttl.hard
    requires e.PopulateOk? || e.PopulateFails? || e.PopFuture? || e.WriteHard? || e.WriteSoft? || e.Unlock?
    ensures SourceInv(Apply(src, Do(e), ttl), ttl)
  {
    StepKeeps(src.state, e, ttl, src.now);
    if e.PopulateOk? {
      AdmitKeeps(src.state.slot, src.content, e.n, e.v, ttl, src.now);
    } else {
      PublishKeepsCovered(src.state.slot, src.content, e, ttl, src.now);
    }
  }

  // Publishing a revision whose content is there uncovers none.
  lemma PublishKeepsCovered(s: Slot, c: Lru, e: Event, ttl: Ttl, now: real)
    requires Inv(s, ttl, now) && SlotInv(s, c, ttl, now) && ttl.Positive() && ttl.soft <= ttl.hard
    requires e.PopulateFails? || e.PopFuture? || e.WriteHard? || e.WriteSoft? || e.Unlock?
    requires Enabled(State(s, [], []), e)
    ensures SlotInv(CacheProtocol.Apply(State(s, [], []), e, ttl, now).slot, c, ttl, now)
  {
  }

  lemma ReaderKeeps(src: Source, e: Event, ttl: Ttl)
    requires SourceInv(src, ttl) && Possible(src, Do(e), ttl) && ttl.Positive() && ttl.soft <= ttl.hard
    requires e.Begin? || e.ReadSoft? || e.TakeLock? || e.LockBusy? || e.Wake? || e.IndexHard? || e.FallBack?
    ensures SourceInv(Apply(src, Do(e), ttl), ttl)
  {
    StepKeeps(src.state, e, ttl, src.now);
    var s := src.state.slot;
    var after := CacheProtocol.Apply(src.state, e, ttl, src.now);
    if e.TakeLock? { LockedKeeps(s, src.content, ttl, src.now); }
    if |after.log| > |src.state.log| {
      TouchKeeps(after.slot, src.content, after.log[|src.state.log|].value, ttl, src.now);
    }
  }

  lemma StepKeepsSource(src: Source, step: Step, ttl: Ttl)
    requires SourceInv(src, ttl) && Possible(src, step, ttl) && ttl.Positive() && ttl.soft <= ttl.hard
    ensures SourceInv(Apply(src, step, ttl), ttl)
  {
    match step {
      case Elapse(dt) => WaitKeeps(src.state, ttl, src.now, src.now + dt);
      case Do(e) =>
        if e.Begin? || e.ReadSoft? || e.TakeLock? || e.LockBusy? || e.Wake? || e.IndexHard? || e.FallBack? {
          ReaderKeeps(src, e, ttl);
        } else {
          WorkerKeeps(src, e, ttl);
        }
    }
  }

  lemma {:induction false} RunKeeps(src: Source, steps: seq<Step>, ttl: Ttl)
    requires SourceInv(src, ttl) && Runs(src, steps, ttl) && ttl.Positive() && ttl.soft <= ttl.hard
    ensures SourceInv(Final(src, steps, ttl), ttl)
    decreases |steps|
  {
    if steps != [] {
      StepKeepsSource(src, steps[0], ttl);
      RunKeeps(Apply(src, steps[0], ttl), steps[1..], ttl);
    }
  }

  // The time-to-live constants of the module, in seconds.
  const REVISION_TTL := Ttl(5.0, 3600.0)

  /**
   In every run no index of the content cache ever misses, and every revision
   that either level of the revision cache can still return has its content:
   with the lifetimes of 5 and 3600 seconds, and all others in that order.
   */
  lemma ContentNeverMissing(steps: seq<Step>, ttl: Ttl)
    requires ttl.Positive() && ttl.soft <= ttl.hard && Runs(BOOT, steps, ttl)
    ensures var src := Final(BOOT, steps, ttl);
            && !src.missed
            && |src.content| <= 2
            && (SoftLookup(src.state.slot, ttl, src.now).Some? ==> src.state.slot.soft.value.value in src.content)
            && (HardLookup(src.state.slot, ttl, src.now).Some? ==> src.state.slot.hard.value.value in src.content)
  {
    RunKeeps(BOOT, steps, ttl);
  }
}
