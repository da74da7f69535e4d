/**
 The run that shows why `RegressionExactlyWhenUnsettled` needs its condition:
 generations returned by successive, non-overlapping gets can decrease.
 */
module CacheRegression {
  import opened Basics
  import opened CacheSlot
  import opened CacheProtocol
  import opened CacheRuns

  // Consecutive events of key "k" at one moment.
  predicate Path(s: State, events: seq<Event>, end: State, ttl: Ttl, now: real)
    decreases |events|
  {
    if events == [] then s == end
    else Enabled(s, events[0]) && Path(Apply(s, events[0], ttl, now), events[1..], end, ttl, now)
  }

  lemma Step(s: State, e: Event, mid: State, events: seq<Event>, end: State, ttl: Ttl, now: real)
    requires Enabled(s, e) && Apply(s, e, ttl, now) == mid && Path(mid, events, end, ttl, now)
    ensures Path(s, [e] + events, end, ttl, now)
  {
    assert ([e] + events)[1..] == events;
  }

  lemma {:induction false} PathRuns(sys: System, events: seq<Event>, end: State, ttl: Ttl)
    returns (actions: seq<Action>)
    requires Path(sys.Of("k"), events, end, ttl, sys.now)
    ensures Runs(sys, actions, ttl)
    ensures Final(sys, actions, ttl).Of("k") == end && Final(sys, actions, ttl).now == sys.now
    decreases |events|
  {
    if events == [] {
      actions := [];
    } else {
      var next := Do(sys, On("k", events[0]), ttl);
      var rest := PathRuns(next, events[1..], end, ttl);
      actions := [On("k", events[0])] + rest;
      Cons(sys, On("k", events[0]), rest, ttl);
    }
  }

  lemma {:induction false} PathAppend(s: State, a: seq<Event>, mid: State, b: seq<Event>, end: State, ttl: Ttl,
                                      now: real)
    requires Path(s, a, mid, ttl, now) && Path(mid, b, end, ttl, now)
    ensures Path(s, a + b, end, ttl, now)
    decreases |a|
  {
    if a == [] {
      assert a + b == b;
    } else {
      PathAppend(Apply(s, a[0], ttl, now), a[1..], mid, b, end, ttl, now);
      Step(s, a[0], Apply(s, a[0], ttl, now), a[1..] + b, end, ttl, now);
      assert [a[0]] + (a[1..] + b) == a + b;
    }
  }

  // Three events in a row, with the states between them.
  lemma Three(s0: State, e0: Event, s1: State, e1: Event, s2: State, e2: Event, s3: State, ttl: Ttl, now: real)
    requires Enabled(s0, e0) && Apply(s0, e0, ttl, now) == s1
    requires Enabled(s1, e1) && Apply(s1, e1, ttl, now) == s2
    requires Enabled(s2, e2) && Apply(s2, e2, ttl, now) == s3
    ensures Path(s0, [e0] + ([e1] + ([e2] + [])), s3, ttl, now)
  {
    Step(s2, e2, s3, [], s3, ttl, now);
    Step(s1, e1, s2, [e2] + [], s3, ttl, now);
    Step(s0, e0, s1, [e1] + ([e2] + []), s3, ttl, now);
  }

  const TTL := Ttl(5.0, 3600.0)
  const OLD := Some(Entry("a", 0, 0.0, 0.0))
  const COPY := Some(Entry("a", 0, 0.0, 6.0))
  const NEW := Some(Entry("b", 1, 6.0, 6.0))
  const FIRST := Reply(0, "a", 0.0, 6.0, None, true)
  const SECOND := Reply(1, "b", 6.0, 6.0, None, false)
  const THIRD := Reply(0, "a", 0.0, 6.0, None, true)
  const END := State(
    Slot(COPY, NEW, None, Some(1), [Finished("a"), HardStored("b")]),
    [Call(true, Waiting(0)), Call(false, Answered(1)), Call(true, Answered(0)), Call(true, Answered(0))],
    [FIRST, SECOND, THIRD])

  // The first get submits task 0, which stores "a" in both caches.
  lemma Fill() returns (events: seq<Event>)
    ensures Path(INIT, events, State(Slot(OLD, OLD, None, None, [Finished("a")]), [Call(true, Waiting(0))], []),
                 TTL, 0.0)
  {
    var a := FillFirst();
    var b := FillMiddle();
    var c := FillLast();
    var calls := [Call(true, Waiting(0))];
    var s3 := State(Slot(None, None, Some(0), None, [Running]), calls, []);
    var s6 := State(Slot(None, OLD, None, Some(0), [HardStored("a")]), calls, []);
    var s8 := State(Slot(OLD, OLD, None, None, [Finished("a")]), calls, []);
    PathAppend(s3, b, s6, c, s8, TTL, 0.0);
    PathAppend(INIT, a, s3, b + c, s8, TTL, 0.0);
    events := a + (b + c);
  }

  lemma FillFirst() returns (events: seq<Event>)
    ensures Path(INIT, events, State(Slot(None, None, Some(0), None, [Running]), [Call(true, Waiting(0))], []),
                 TTL, 0.0)
  {
    events := [Begin(true)] + ([ReadSoft(0)] + ([TakeLock(0)] + []));
    Three(
      INIT, Begin(true),
      State(EMPTY, [Call(true, AtSoft)], []), ReadSoft(0),
      State(EMPTY, [Call(true, AtLock)], []), TakeLock(0),
      State(Slot(None, None, Some(0), None, [Running]), [Call(true, Waiting(0))], []), TTL, 0.0);
  }

  lemma FillMiddle() returns (events: seq<Event>)
    ensures Path(State(Slot(None, None, Some(0), None, [Running]), [Call(true, Waiting(0))], []), events,
                 State(Slot(None, OLD, None, Some(0), [HardStored("a")]), [Call(true, Waiting(0))], []), TTL, 0.0)
  {
    var calls := [Call(true, Waiting(0))];
    events := [PopulateOk(0, "a")] + ([PopFuture(0, "a")] + ([WriteHard(0, "a")] + []));
    Three(
      State(Slot(None, None, Some(0), None, [Running]), calls, []), PopulateOk(0, "a"),
      State(Slot(None, None, Some(0), None, [Populated("a")]), calls, []), PopFuture(0, "a"),
      State(Slot(None, None, None, Some(0), [Popped("a")]), calls, []), WriteHard(0, "a"),
      State(Slot(None, OLD, None, Some(0), [HardStored("a")]), calls, []), TTL, 0.0);
  }

  lemma FillLast() returns (events: seq<Event>)
    ensures Path(State(Slot(None, OLD, None, Some(0), [HardStored("a")]), [Call(true, Waiting(0))], []), events,
                 State(Slot(OLD, OLD, None, None, [Finished("a")]), [Call(true, Waiting(0))], []), TTL, 0.0)
  {
    var calls := [Call(true, Waiting(0))];
    var s7 := State(Slot(OLD, OLD, None, Some(0), [SoftStored("a")]), calls, []);
    var s8 := State(Slot(OLD, OLD, None, None, [Finished("a")]), calls, []);
    events := [WriteSoft(0, "a")] + ([Unlock(0, "a")] + []);
    Step(s7, Unlock(0, "a"), s8, [], s8, TTL, 0.0);
    Step(State(Slot(None, OLD, None, Some(0), [HardStored("a")]), calls, []), WriteSoft(0, "a"), s7,
         [Unlock(0, "a")] + [], s8, TTL, 0.0);
  }

  // Two gets miss the expired soft cache; the second one refills it from the
  // hard cache and submits task 1.
  lemma MissTwice() returns (events: seq<Event>)
    ensures Path(State(Slot(OLD, OLD, None, None, [Finished("a")]), [Call(true, Waiting(0))], []), events,
                 State(Slot(OLD, OLD, None, None, [Finished("a")]),
                       [Call(true, Waiting(0)), Call(false, AtLock), Call(true, AtSoft)], []), TTL, 6.0)
  {
    var slot := Slot(OLD, OLD, None, None, [Finished("a")]);
    var c0 := Call(true, Waiting(0));
    events := [Begin(false)] + ([ReadSoft(1)] + ([Begin(true)] + []));
    Three(
      State(slot, [c0], []), Begin(false),
      State(slot, [c0, Call(false, AtSoft)], []), ReadSoft(1),
      State(slot, [c0, Call(false, AtLock)], []), Begin(true),
      State(slot, [c0, Call(false, AtLock), Call(true, AtSoft)], []), TTL, 6.0);
  }

  lemma Refill() returns (events: seq<Event>)
    ensures Path(State(Slot(OLD, OLD, None, None, [Finished("a")]),
                       [Call(true, Waiting(0)), Call(false, AtLock), Call(true, AtSoft)], []), events,
                 State(Slot(COPY, OLD, Some(1), None, [Finished("a"), Populated("b")]),
                       [Call(true, Waiting(0)), Call(false, AtLock), Call(true, Answered(0))], [FIRST]), TTL, 6.0)
  {
    var slot := Slot(OLD, OLD, None, None, [Finished("a")]);
    var c0, c1 := Call(true, Waiting(0)), Call(false, AtLock);
    events := [ReadSoft(2)] + ([TakeLock(2)] + ([PopulateOk(1, "b")] + []));
    Three(
      State(slot, [c0, c1, Call(true, AtSoft)], []), ReadSoft(2),
      State(slot, [c0, c1, Call(true, AtLock)], []), TakeLock(2),
      State(Slot(COPY, OLD, Some(1), None, [Finished("a"), Running]), [c0, c1, Call(true, Answered(0))], [FIRST]),
      PopulateOk(1, "b"),
      State(Slot(COPY, OLD, Some(1), None, [Finished("a"), Populated("b")]), [c0, c1, Call(true, Answered(0))],
            [FIRST]),
      TTL, 6.0);
  }

  // The worker has written the hard cache only; the non-blocking get fails to
  // take the lock and goes to the hard cache.
  lemma Overtake() returns (events: seq<Event>)
    ensures Path(State(Slot(COPY, OLD, Some(1), None, [Finished("a"), Populated("b")]),
                       [Call(true, Waiting(0)), Call(false, AtLock), Call(true, Answered(0))], [FIRST]), events,
                 State(Slot(COPY, NEW, None, Some(1), [Finished("a"), HardStored("b")]),
                       [Call(true, Waiting(0)), Call(false, AtFallback), Call(true, Answered(0))], [FIRST]), TTL, 6.0)
  {
    var c0, c1, c2 := Call(true, Waiting(0)), Call(false, AtLock), Call(true, Answered(0));
    events := [PopFuture(1, "b")] + ([WriteHard(1, "b")] + ([LockBusy(1)] + []));
    Three(
      State(Slot(COPY, OLD, Some(1), None, [Finished("a"), Populated("b")]), [c0, c1, c2], [FIRST]), PopFuture(1, "b"),
      State(Slot(COPY, OLD, None, Some(1), [Finished("a"), Popped("b")]), [c0, c1, c2], [FIRST]), WriteHard(1, "b"),
      State(Slot(COPY, NEW, None, Some(1), [Finished("a"), HardStored("b")]), [c0, c1, c2], [FIRST]), LockBusy(1),
      State(Slot(COPY, NEW, None, Some(1), [Finished("a"), HardStored("b")]), [c0, Call(false, AtFallback), c2],
            [FIRST]),
      TTL, 6.0);
  }

  // It answers with generation 1; a get begun after that answers with 0.
  lemma Regress() returns (events: seq<Event>)
    ensures Path(State(Slot(COPY, NEW, None, Some(1), [Finished("a"), HardStored("b")]),
                       [Call(true, Waiting(0)), Call(false, AtFallback), Call(true, Answered(0))], [FIRST]), events,
                 END, TTL, 6.0)
  {
    var slot := Slot(COPY, NEW, None, Some(1), [Finished("a"), HardStored("b")]);
    var c0, c1, c2 := Call(true, Waiting(0)), Call(false, Answered(1)), Call(true, Answered(0));
    events := [FallBack(1)] + ([Begin(true)] + ([ReadSoft(3)] + []));
    Three(
      State(slot, [c0, Call(false, AtFallback), c2], [FIRST]), FallBack(1),
      State(slot, [c0, c1, c2], [FIRST, SECOND]), Begin(true),
      State(slot, [c0, c1, c2, Call(true, AtSoft)], [FIRST, SECOND]), ReadSoft(3),
      END, TTL, 6.0);
  }

  /**
   A concrete run in which a get that starts after another one has returned
   "b" returns the older "a".
   */
  lemma GenerationsCanRegress() returns (actions: seq<Action>)
    ensures Runs(START, actions, TTL)
    ensures var log := Final(START, actions, TTL).Of("k").log;
            |log| == 3 && log[1].value == "b" && log[2].value == "a" && log[2].gen < log[1].gen
  {
    var fill := Fill();
    var s0 := State(Slot(OLD, OLD, None, None, [Finished("a")]), [Call(true, Waiting(0))], []);
    actions := PathRuns(START, fill, s0, TTL);
    var sys := Final(START, actions, TTL);
    assert Runs(sys, [Elapse(6.0)], TTL) by {
      Cons(sys, Elapse(6.0), [], TTL);
      assert [Elapse(6.0)] + [] == [Elapse(6.0)];
    }
    Append(START, actions, [Elapse(6.0)], TTL);
    actions := actions + [Elapse(6.0)];
    var later := Final(START, actions, TTL);
    assert later == Do(sys, Elapse(6.0), TTL) by {
      Cons(sys, Elapse(6.0), [], TTL);
      assert [Elapse(6.0)] + [] == [Elapse(6.0)];
    }
    var events := Second();
    var tail := PathRuns(later, events, END, TTL);
    Append(START, actions, tail, TTL);
    actions := actions + tail;
  }

  lemma Second() returns (events: seq<Event>)
    ensures Path(State(Slot(OLD, OLD, None, None, [Finished("a")]), [Call(true, Waiting(0))], []), events,
                 END, TTL, 6.0)
  {
    var a := MissTwice();
    var b := Refill();
    var c := Overtake();
    var d := Regress();
    var c0 := Call(true, Waiting(0));
    var s0 := State(Slot(OLD, OLD, None, None, [Finished("a")]), [c0], []);
    var s1 := State(Slot(OLD, OLD, None, None, [Finished("a")]), [c0, Call(false, AtLock), Call(true, AtSoft)], []);
    var s2 := State(Slot(COPY, OLD, Some(1), None, [Finished("a"), Populated("b")]),
                    [c0, Call(false, AtLock), Call(true, Answered(0))], [FIRST]);
    var s3 := State(Slot(COPY, NEW, None, Some(1), [Finished("a"), HardStored("b")]),
                    [c0, Call(false, AtFallback), Call(true, Answered(0))], [FIRST]);
    PathAppend(s2, c, s3, d, END, TTL, 6.0);
    PathAppend(s1, b, s2, c + d, END, TTL, 6.0);
    PathAppend(s0, a, s1, b + (c + d), END, TTL, 6.0);
    events := a + (b + (c + d));
  }
}
