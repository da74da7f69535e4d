/**
 Gets that are answered: what each read of a get gives back, a waiting get whose
 task finishes, and a lone get as a run of the protocol, step by step.
 */
module CacheAlone {
  import opened Basics
  import opened CacheSlot
  import opened CacheProtocol
  import opened CacheObject
  import opened CacheRegression

  // ------------------------------------------------------------------
  // One read
  // ------------------------------------------------------------------

  // The call has answered with this copy, and said so.
  predicate Replies(s: State, t: State, c: nat, e: Entry, now: real) {
    && |t.calls| == |s.calls| && c < |t.calls| && t.calls[c].pc == Answered(e.gen)
    && |t.log| == |s.log| + 1 && t.log[..|s.log|] == s.log
    && t.log[|s.log|].value == e.value && t.log[|s.log|].gen == e.gen && t.log[|s.log|].at == now
  }

  predicate GoesOn(s: State, t: State, c: nat, pc: Pc) {
    c < |t.calls| && t.calls[c].pc == pc && t.log == s.log
  }

  /**
   A get replies at each read that finds a live copy, with that copy, and
   otherwise goes on: from the soft cache to the lock, from there to waiting or to
   the second look at the hard cache, and only from those to an error.
   */
  lemma ReadsExactly(s: State, e: Event, c: nat, ttl: Ttl, now: real)
    requires Enabled(s, e) && e in {ReadSoft(c), TakeLock(c), LockBusy(c), Wake(c), IndexHard(c), FallBack(c)}
    ensures var t := CacheProtocol.Apply(s, e, ttl, now);
            var soft, hard := Live(s.slot.soft, ttl.soft, now), Live(s.slot.hard, ttl.hard, now);
            && (e.ReadSoft? ==> if soft then Replies(s, t, c, s.slot.soft.value, now) else GoesOn(s, t, c, AtLock))
            && (e.TakeLock? && hard ==> Replies(s, t, c, s.slot.hard.value, now))
            && (e.TakeLock? && !hard ==>
                 GoesOn(s, t, c, if !s.calls[c].blocking then AtFallback
                                 else Waiting(if s.slot.future.Some? then s.slot.future.value else |s.slot.tasks|)))
            && (e.LockBusy? ==> GoesOn(s, t, c, AtFallback))
            && (e.Wake? ==> GoesOn(s, t, c, AtIndex(s.calls[c].pc.task)))
            && (e.IndexHard? ==> if hard then Replies(s, t, c, s.slot.hard.value, now)
                else GoesOn(s, t, c, Pc.MissingKey))
            && (e.FallBack? ==> if hard then Replies(s, t, c, s.slot.hard.value, now) else GoesOn(s, t, c, Pc.NotReady))
  {
  }

  /** Either copy, and neither but that, can be lost to the size limit at any moment. */
  lemma EvictsExactly(s: State, ttl: Ttl, now: real)
    ensures Enabled(s, EvictSoft) && CacheProtocol.Apply(s, EvictSoft, ttl, now) == s.(slot := s.slot.(soft := None))
    ensures Enabled(s, EvictHard) && CacheProtocol.Apply(s, EvictHard, ttl, now) == s.(slot := s.slot.(hard := None))
  {
  }

  /** A get that waits for a task is answered with its value, if the task ends well and nobody comes in between. */
  lemma WaitedIsAnswered(s: State, c: nat, n: nat, v: Value, ttl: Ttl, now: real)
    returns (events: seq<Event>, end: State)
    requires CallAt(s, c, Waiting(n)) && At(s.slot, n, Populated(v)) && s.slot.holder.None? && ttl.Positive()
    ensures Path(s, events, end, ttl, now)
    ensures Replies(s, end, c, Entry(v, n, now, now), now)
    ensures end.slot == Published(s.slot, n, v, now)
  {
    var mid := s.(slot := Published(s.slot, n, v, now));
    var a := Publishes(s, n, v, ttl, now);
    var b;
    b, end := Fetches(mid, c, n, v, ttl, now);
    PathAppend(s, a, mid, b, end, ttl, now);
    events := a + b;
  }

  // The worker's locked section.
  lemma Publishes(s: State, n: nat, v: Value, ttl: Ttl, now: real) returns (events: seq<Event>)
    requires At(s.slot, n, Populated(v)) && s.slot.holder.None?
    ensures Path(s, events, s.(slot := Published(s.slot, n, v, now)), ttl, now)
  {
    var s1 := s.(slot := Pop(s.slot, n, v));
    var s2 := s.(slot := StoreHard(s1.slot, n, v, now));
    var s3 := s.(slot := StoreSoft(s2.slot, n, v, now));
    var s4 := s.(slot := Published(s.slot, n, v, now));
    Step(s3, Unlock(n, v), s4, [], s4, ttl, now);
    Three(s, PopFuture(n, v), s1, WriteHard(n, v), s2, WriteSoft(n, v), s3, ttl, now);
    events := [PopFuture(n, v)] + ([WriteHard(n, v)] + ([WriteSoft(n, v)] + []));
    PathAppend(s, events, s3, [Unlock(n, v)] + [], s4, ttl, now);
    events := events + ([Unlock(n, v)] + []);
  }

  // The wait ends and the hard cache is read.
  lemma Fetches(s: State, c: nat, n: nat, v: Value, ttl: Ttl, now: real) returns (events: seq<Event>, end: State)
    requires CallAt(s, c, Waiting(n)) && At(s.slot, n, Finished(v)) && s.slot.hard == Some(Entry(v, n, now, now))
    requires ttl.Positive()
    ensures Path(s, events, end, ttl, now)
    ensures Replies(s, end, c, Entry(v, n, now, now), now) && end.slot == s.slot
  {
    var s1 := CacheProtocol.Apply(s, Wake(c), ttl, now);
    end := CacheProtocol.Apply(s1, IndexHard(c), ttl, now);
    ReadsExactly(s1, IndexHard(c), c, ttl, now);
    Step(s1, IndexHard(c), end, [], end, ttl, now);
    Step(s, Wake(c), s1, [IndexHard(c)] + [], end, ttl, now);
    events := [Wake(c)] + ([IndexHard(c)] + []);
  }

  // ------------------------------------------------------------------
  // A lone get
  // ------------------------------------------------------------------

  // Nothing has been asked of the slot but one get.
  function Fresh(slot: Slot, blocking: bool, pc: Pc): State { State(slot, [Call(blocking, pc)], []) }

  // The state in which a lone get ends with this answer.
  predicate Ends(s: State, slot: Slot, r: Outcome) {
    && s.slot == slot && |s.calls| == 1
    && match r
       case Found(v) => s.calls[0].pc.Answered? && |s.log| == 1 && s.log[0].value == v
       case MissingKey => s.calls[0].pc.MissingKey? && s.log == []
       case NotReady => s.calls[0].pc.NotReady? && s.log == []
  }

  /** What a lone get answers and leaves is what a run of the protocol answers and leaves in which it alone steps. */
  lemma AloneRuns(before: Slot, after: Slot, ttl: Ttl, populated: Option<Value>, blocking: bool, now: real, r: Outcome)
    returns (events: seq<Event>, end: State)
    requires Alone(before, after, ttl, populated, blocking, now, r)
    requires Inv(before, ttl, now) && ttl.Positive() && before.holder.None?
    requires before.future.Some? ==>
               before.tasks[before.future.value].Running? || before.tasks[before.future.value].Failed?
    ensures Path(State(before, [], []), events, end, ttl, now) && Ends(end, after, r)
  {
    var s0, s1 := State(before, [], []), Fresh(before, blocking, AtSoft);
    var rest;
    if Live(before.soft, ttl.soft, now) {
      end := CacheProtocol.Apply(s1, ReadSoft(0), ttl, now);
      rest := [ReadSoft(0)] + [];
      Step(s1, ReadSoft(0), end, [], end, ttl, now);
    } else {
      var tail;
      tail, end := MissRuns(before, after, ttl, populated, blocking, now, r);
      Step(s1, ReadSoft(0), Fresh(before, blocking, AtLock), tail, end, ttl, now);
      rest := [ReadSoft(0)] + tail;
    }
    Step(s0, Begin(blocking), s1, rest, end, ttl, now);
    events := [Begin(blocking)] + rest;
  }

  lemma MissRuns(before: Slot, after: Slot, ttl: Ttl, populated: Option<Value>, blocking: bool, now: real, r: Outcome)
    returns (events: seq<Event>, end: State)
    requires Alone(before, after, ttl, populated, blocking, now, r) && !Live(before.soft, ttl.soft, now)
    requires Inv(before, ttl, now) && ttl.Positive() && before.holder.None?
    requires before.future.Some? ==>
               before.tasks[before.future.value].Running? || before.tasks[before.future.value].Failed?
    ensures Path(Fresh(before, blocking, AtLock), events, end, ttl, now) && Ends(end, after, r)
  {
    var s, asked := Fresh(before, blocking, AtLock), Asked(before);
    var s1 := CacheProtocol.Apply(s, TakeLock(0), ttl, now);
    if Live(before.hard, ttl.hard, now) {
      Step(s, TakeLock(0), s1, [], s1, ttl, now);
      events, end := [TakeLock(0)] + [], s1;
    } else if !blocking {
      end := CacheProtocol.Apply(s1, FallBack(0), ttl, now);
      Step(s1, FallBack(0), end, [], end, ttl, now);
      Step(s, TakeLock(0), s1, [FallBack(0)] + [], end, ttl, now);
      events := [TakeLock(0)] + ([FallBack(0)] + []);
    } else {
      assert s1 == Fresh(asked, true, Waiting(asked.future.value));
      var rest;
      rest, end := WaitRuns(asked, after, ttl, populated, now, r);
      Step(s, TakeLock(0), s1, rest, end, ttl, now);
      events := [TakeLock(0)] + rest;
    }
  }

  // The wait for a task that is still to run, or that has failed.
  lemma WaitRuns(asked: Slot, after: Slot, ttl: Ttl, populated: Option<Value>, now: real, r: Outcome)
    returns (events: seq<Event>, end: State)
    requires asked.future.Some? && asked.future.value < |asked.tasks| && asked.holder.None? && ttl.Positive()
    requires !Live(asked.hard, ttl.hard, now) && !Live(asked.soft, ttl.soft, now)
    requires var task := asked.tasks[asked.future.value]; task.Running? || task.Failed?
    requires Alone(asked, after, ttl, populated, true, now, r)
    ensures Path(Fresh(asked, true, Waiting(asked.future.value)), events, end, ttl, now) && Ends(end, after, r)
  {
    var n := asked.future.value;
    var s := Fresh(asked, true, Waiting(n));
    if asked.tasks[n].Running? && populated.Some? {
      var v := populated.value;
      var s1 := s.(slot := SetPhase(asked, n, Populated(v)));
      var rest;
      rest, end := WaitedIsAnswered(s1, 0, n, v, ttl, now);
      Step(s, PopulateOk(n, v), s1, rest, end, ttl, now);
      events := [PopulateOk(n, v)] + rest;
      assert Published(s1.slot, n, v, now) == after;
    } else {
      var failed := SetPhase(asked, n, Failed);
      var s1 := s.(slot := failed);
      var s2 := Fresh(failed, true, AtIndex(n));
      end := Fresh(failed, true, Pc.MissingKey);
      Step(s2, IndexHard(0), end, [], end, ttl, now);
      Step(s1, Wake(0), s2, [IndexHard(0)] + [], end, ttl, now);
      events := [Wake(0)] + ([IndexHard(0)] + []);
      if asked.tasks[n].Running? {
        Step(s, PopulateFails(n), s1, events, end, ttl, now);
        events := [PopulateFails(n)] + events;
      } else {
        assert failed == asked;
      }
    }
  }
}
