/** The reschedule counter over whole runs of `reschedule_jobs`, whatever DIRAC decides about statuses. */
module RescheduleRuns {
  import opened Basics
  import opened JobStatus
  import opened JobBatch
  import opened Reschedule

  // The call stores a counter for the job: with a new status, or because its submission check failed.
  ghost predicate Decided(c: Call, t: Tables, id: JobId)
    requires id in t.jobs && id in c.ids
  {
    var b := BatchOf(c, t, FatesOf(c, t.jobs));
    id in Found(b) && ResultOf(b, id).Ok? && Truthy(ResultOf(b, id).value.status)
  }

  ghost predicate Writes(c: Call, t: Tables, id: JobId)
    requires id in t.jobs
  {
    id in c.ids
    && (FateOf(c, id, t.jobs[id]).Spoiled? || (FateOf(c, id, t.jobs[id]).Accepted? && Decided(c, t, id)))
  }

  /** A stored counter is the next one and within the maximum; in every other case it stays as it was. */
  lemma CounterAfter(c: Call, before: Tables, after: Tables, r: Result<RescheduleAnswer, RescheduleError>,
                     records: seq<Record>, id: JobId)
    requires Rescheduled(c, before, after, r, records) && r.Ok? && id in before.jobs
    ensures id in after.jobs && after.jobs[id].vo == before.jobs[id].vo
    ensures var job := before.jobs[id];
            && (!Writes(c, before, id) ==> after.jobs[id].counter == job.counter)
            && (Writes(c, before, id) ==>
                  && job.vo in c.maxima
                  && after.jobs[id].counter == NextCounter(c, job) <= c.maxima[job.vo])
  {
    var fates := FatesOf(c, before.jobs);
    if id in c.ids {
      FateFacts(c, id, before.jobs[id]);
      assert fates[id] == FateOf(c, id, before.jobs[id]);
      assert Survives(fates[id]) ==> AnySurvives(fates);
    }
    if AnySurvives(fates) {
      CounterInBatch(c, before, after, fates, records, id);
    }
  }

  lemma FateFacts(c: Call, id: JobId, job: Job)
    ensures var f := FateOf(c, id, job);
            && (f.Spoiled? || f.Accepted? ==>
                Survives(f) && job.vo in c.maxima && NextCounter(c, job) <= c.maxima[job.vo])
            && (f.Spoiled? ==> Apply(job, f.patch).counter == NextCounter(c, job))
  {
  }

  lemma CounterInBatch(c: Call, before: Tables, after: Tables, fates: Fates, records: seq<Record>, id: JobId)
    requires id in before.jobs && fates.Keys <= before.jobs.Keys
    requires AllOk(ResultsOf(BatchOf(c, before, fates)))
    requires after == After(before.(jobs := Spoil(before.jobs, fates)), ResultsOf(BatchOf(c, before, fates)), records)
    ensures id in after.jobs && after.jobs[id].vo == before.jobs[id].vo
    ensures id !in fates || !(fates[id].Spoiled? || fates[id].Accepted?) ==>
              after.jobs[id].counter == before.jobs[id].counter
    ensures id in fates && fates[id].Spoiled? ==>
              after.jobs[id].counter == Apply(before.jobs[id], fates[id].patch).counter
    ensures id in fates && fates[id].Accepted? ==>
              var b := BatchOf(c, before, fates);
              && id in Found(b) && ResultOf(b, id).Ok?
              && after.jobs[id].counter ==
                   if Truthy(ResultOf(b, id).value.status) then NextCounter(c, before.jobs[id])
                   else before.jobs[id].counter
  {
    BatchKeeps(BatchOf(c, before, fates), before, after, records, id);
    FoundIs(c, before, fates, id);
  }

  // In the batch of a call are the exceeded jobs, without extra attributes, and the accepted ones.
  lemma FoundIs(c: Call, t: Tables, fates: Fates, id: JobId)
    requires id in t.jobs && fates.Keys <= t.jobs.Keys
    ensures var b := BatchOf(c, t, fates);
            && (id in Found(b) <==> id in fates && (fates[id].Exceeded? || fates[id].Accepted?))
            && b.jobs[id] == (if id in fates && fates[id].Spoiled? then Apply(t.jobs[id], fates[id].patch)
                              else t.jobs[id])
            && (id in fates && fates[id].Accepted? ==> Extra(b, id) == ExtraOf(c, t.jobs[id], fates[id]))
            && (id in fates && fates[id].Exceeded? ==> Extra(b, id) == NO_PATCH)
  {
  }

  lemma BatchKeeps(b: Batch, before: Tables, after: Tables, records: seq<Record>, id: JobId)
    requires AllOk(ResultsOf(b)) && after == After(before.(jobs := b.jobs), ResultsOf(b), records) && id in b.jobs
    ensures id in after.jobs && after.jobs[id].vo == b.jobs[id].vo
    ensures id !in Found(b) ==> after.jobs[id] == b.jobs[id]
    ensures id in Found(b) ==>
              && ResultOf(b, id).Ok?
              && after.jobs[id] == Apply(b.jobs[id], ResultOf(b, id).value.patch)
              && after.jobs[id].counter ==
                 (if Truthy(ResultOf(b, id).value.status) then Or(Extra(b, id).counter, b.jobs[id].counter)
                  else b.jobs[id].counter)
              && (Truthy(ResultOf(b, id).value.status) ==> Some(after.jobs[id].status) == ResultOf(b, id).value.status)
  {
    if id in Found(b) {
      assert ResultsOf(b)[id] == ResultOf(b, id);
      StatusNeedsDecision(b.rules, id, b.jobs[id], b.changes[id], WmsTimes(b.log, id), Extra(b, id), b.force, b.now);
    }
  }

  // The attributes a successful call sets for a job.
  ghost function GivenFor(c: Call, t: Tables, fates: Fates, id: JobId): Patch
    requires fates.Keys <= t.jobs.Keys
  {
    var b := BatchOf(c, t, fates);
    if id in fates && fates[id].Spoiled? then fates[id].patch
    else if AnySurvives(fates) && id in Found(b) && ResultOf(b, id).Ok? then ResultOf(b, id).value.patch
    else NO_PATCH
  }

  ghost function Given(c: Call, t: Tables, id: JobId): Patch { GivenFor(c, t, FatesOf(c, t.jobs), id) }

  // The submission check of DIRAC failed and set a status itself.
  predicate CheckSetsStatus(c: Call, id: JobId, job: Job) {
    var check := c.check(id, NextCounter(c, job));
    check.SubmissionError? && check.patch.status.Some?
  }

  /**
   A call sets a counter only for accepted jobs and for those whose submission
   check fails. The counter comes together with a status exactly if the job was
   accepted, or the failing check gives one of its own.
   */
  lemma CounterWithStatus(c: Call, before: Tables, after: Tables, r: Result<RescheduleAnswer, RescheduleError>,
                          records: seq<Record>, id: JobId)
    requires Rescheduled(c, before, after, r, records) && r.Ok? && id in before.jobs
    ensures id in after.jobs && after.jobs[id] == Apply(before.jobs[id], Given(c, before, id))
    ensures Given(c, before, id).counter.Some? <==> Writes(c, before, id)
    ensures Writes(c, before, id) ==>
              (Given(c, before, id).status.Some? <==>
               FateOf(c, id, before.jobs[id]).Accepted? || CheckSetsStatus(c, id, before.jobs[id]))
    ensures Writes(c, before, id) && FateOf(c, id, before.jobs[id]).Accepted? ==>
              Some(after.jobs[id].status) == ResultOf(BatchOf(c, before, FatesOf(c, before.jobs)), id).value.status
  {
    var fates := FatesOf(c, before.jobs);
    JobAfter(c, before, after, fates, r, records, id);
    if id in c.ids {
      assert fates[id] == FateOf(c, id, before.jobs[id]);
      if fates[id].Spoiled? { FailedCheckSets(c, id, before.jobs[id]); }
      assert Survives(fates[id]) ==> AnySurvives(fates);
    }
    GivenHolds(c, before, fates, id);
  }

  lemma JobAfter(c: Call, before: Tables, after: Tables, fates: Fates, r: Result<RescheduleAnswer, RescheduleError>,
                 records: seq<Record>, id: JobId)
    requires fates.Keys <= before.jobs.Keys && RescheduledFor(c, before, after, fates, r, records)
    requires r.Ok? && id in before.jobs
    ensures id in after.jobs && after.jobs[id] == Apply(before.jobs[id], GivenFor(c, before, fates, id))
    ensures AnySurvives(fates) && id in Found(BatchOf(c, before, fates)) ==> ResultOf(BatchOf(c, before, fates), id).Ok?
  {
    if AnySurvives(fates) {
      BatchKeeps(BatchOf(c, before, fates), before, after, records, id);
      FoundIs(c, before, fates, id);
    } else if id in fates {
      assert !Survives(fates[id]);
    }
    ApplyNothing(before.jobs[id]);
  }

  lemma FailedCheckSets(c: Call, id: JobId, job: Job)
    requires FateOf(c, id, job).Spoiled?
    ensures var patch := FateOf(c, id, job).patch;
            patch.counter.Some? && (patch.status.Some? <==> CheckSetsStatus(c, id, job))
  {
  }

  // When what is set for a job holds a counter, and when a status.
  lemma GivenHolds(c: Call, t: Tables, fates: Fates, id: JobId)
    requires fates.Keys <= t.jobs.Keys
    ensures var b, p := BatchOf(c, t, fates), GivenFor(c, t, fates, id);
            && (id !in fates || !(fates[id].Spoiled? || fates[id].Accepted?) ==> p.counter.None?)
            && (id in fates && fates[id].Accepted? ==> (p.counter.Some? <==> p.status.Some?))
            && (id in fates && fates[id].Accepted? && AnySurvives(fates) ==>
                  (p.counter.Some? <==> id in Found(b) && ResultOf(b, id).Ok? && Truthy(ResultOf(b, id).value.status)))
            && (id in fates && fates[id].Accepted? && p.counter.Some? ==> p.status == ResultOf(b, id).value.status)
  {
    var b := BatchOf(c, t, fates);
    if id in t.jobs { FoundIs(c, t, fates, id); }
    if id in Found(b) && ResultOf(b, id).Ok? {
      PatchFacts(b.rules, id, b.jobs[id], b.changes[id], WmsTimes(b.log, id), Extra(b, id), b.force, b.now);
    }
  }

  /**
   No job is both a success and a failure; the successes are the accepted jobs,
   whether or not their counter was stored.
   */
  lemma AnswersDisjoint(c: Call, before: Tables, after: Tables, r: Result<RescheduleAnswer, RescheduleError>,
                        records: seq<Record>)
    requires Rescheduled(c, before, after, r, records) && r.Ok?
    ensures r.value.success.Keys !! r.value.failed.Keys
    ensures forall id :: id in r.value.success <==>
              id in c.ids && id in before.jobs && FateOf(c, id, before.jobs[id]).Accepted?
    ensures forall id :: id in r.value.failed ==> id in c.ids
  {
    var fates := FatesOf(c, before.jobs);
    forall id ensures id in fates <==> id in c.ids && id in before.jobs
              ensures id in fates ==> fates[id] == FateOf(c, id, before.jobs[id]) {
    }
    AnswersFollowFates(c, before, after, r.value, fates, records);
  }

  lemma AnswersFollowFates(c: Call, before: Tables, after: Tables, answer: RescheduleAnswer, fates: Fates,
                           records: seq<Record>)
    requires fates.Keys <= before.jobs.Keys && fates.Keys <= c.ids
    requires answer.failed == FailedOf(c, fates) && Statuses(c, before, after, answer, fates, records)
    ensures answer.success.Keys !! answer.failed.Keys
    ensures forall id :: id in answer.success <==> id in fates && fates[id].Accepted?
    ensures forall id :: id in answer.failed ==> id in c.ids
  {
    SuccessIs(c, before, after, answer, fates, records);
    FailedIsNot(c, fates);
  }

  lemma SuccessIs(c: Call, before: Tables, after: Tables, answer: RescheduleAnswer, fates: Fates, records: seq<Record>)
    requires fates.Keys <= before.jobs.Keys && Statuses(c, before, after, answer, fates, records)
    ensures forall id :: id in answer.success <==> id in fates && fates[id].Accepted?
  {
    if !AnySurvives(fates) {
      forall id | id in fates ensures !fates[id].Accepted? {
        assert !Survives(fates[id]);
      }
    }
  }

  lemma FailedIsNot(c: Call, fates: Fates)
    requires fates.Keys <= c.ids
    ensures forall id :: id in FailedOf(c, fates) ==> id in c.ids && (id in fates ==> !fates[id].Accepted?)
  {
  }

  /** A call after which no job is left writes nothing: jobs over their maximum are reported, and keep their status. */
  lemma NobodyLeftNothingWritten(c: Call, before: Tables, after: Tables, r: Result<RescheduleAnswer, RescheduleError>,
                                 records: seq<Record>)
    requires Rescheduled(c, before, after, r, records) && r.Ok?
    requires forall id :: id in c.ids && id in before.jobs ==> FateOf(c, id, before.jobs[id]) in {Exceeded, Unverified}
    ensures after == before && r.value.success == map[]
    ensures forall id :: id in c.ids && id in before.jobs && FateOf(c, id, before.jobs[id]).Exceeded? ==>
              id in r.value.failed && r.value.failed[id] == TooMany
  {
    var fates := FatesOf(c, before.jobs);
    forall id | id in fates ensures !Survives(fates[id]) {
      assert fates[id] == FateOf(c, id, before.jobs[id]);
    }
    forall id | id in c.ids && id in before.jobs && FateOf(c, id, before.jobs[id]).Exceeded?
      ensures id in r.value.failed && r.value.failed[id] == TooMany
    {
      assert id in fates && fates[id] == Exceeded;
    }
  }

  // The call has logged that the job is over its maximum.
  ghost predicate MarkedFailed(c: Call, before: Tables, after: Tables, id: JobId) {
    |before.log| <= |after.log| && RecordOf(id, Now(c), FAILING) in after.log[|before.log|..]
  }

  /**
   A job over its maximum is marked, and given what is decided for that, exactly
   when some other job of the call is left; otherwise nothing is written at all.
   */
  lemma MarkedExactly(c: Call, before: Tables, after: Tables, r: Result<RescheduleAnswer, RescheduleError>,
                      records: seq<Record>, id: JobId)
    requires Rescheduled(c, before, after, r, records) && r.Ok?
    requires id in c.ids && id in before.jobs && FateOf(c, id, before.jobs[id]).Exceeded?
    ensures MarkedFailed(c, before, after, id) <==> AnySurvives(FatesOf(c, before.jobs))
    ensures !MarkedFailed(c, before, after, id) ==> after == before
    ensures MarkedFailed(c, before, after, id) ==>
              var b := BatchOf(c, before, FatesOf(c, before.jobs));
              && id in Found(b) && b.changes[id] == map[Now(c) := FAILING] && ResultOf(b, id).Ok? && id in after.jobs
              && after.jobs[id] == Apply(before.jobs[id], ResultOf(b, id).value.patch)
  {
    var fates := FatesOf(c, before.jobs);
    assert fates[id] == Exceeded;
    MarkedInBatch(c, before, after, fates, r, records, id);
  }

  lemma MarkedInBatch(c: Call, before: Tables, after: Tables, fates: Fates,
                      r: Result<RescheduleAnswer, RescheduleError>,
                      records: seq<Record>, id: JobId)
    requires fates.Keys <= before.jobs.Keys && RescheduledFor(c, before, after, fates, r, records) && r.Ok?
    requires id in fates && fates[id].Exceeded?
    ensures MarkedFailed(c, before, after, id) <==> AnySurvives(fates)
    ensures !AnySurvives(fates) ==> after == before
    ensures AnySurvives(fates) ==>
              var b := BatchOf(c, before, fates);
              && id in Found(b) && b.changes[id] == map[Now(c) := FAILING] && ResultOf(b, id).Ok? && id in after.jobs
              && after.jobs[id] == Apply(before.jobs[id], ResultOf(b, id).value.patch)
  {
    if AnySurvives(fates) {
      FailureLogged(c, before, after, fates, records, id);
      FailureGiven(c, before, after, fates, records, id);
    } else {
      assert after.log[|before.log|..] == [];
    }
  }

  lemma FailureLogged(c: Call, before: Tables, after: Tables, fates: Fates, records: seq<Record>, id: JobId)
    requires fates.Keys <= before.jobs.Keys && id in fates && fates[id].Exceeded?
    requires after.log == before.log + records
               && Complete(records, BatchOf(c, before, fates).changes, Found(BatchOf(c, before, fates)))
    ensures id in Found(BatchOf(c, before, fates)) && BatchOf(c, before, fates).changes[id] == map[Now(c) := FAILING]
    ensures MarkedFailed(c, before, after, id)
  {
    var changes, found := BatchOf(c, before, fates).changes, Found(BatchOf(c, before, fates));
    FoundIs(c, before, fates, id);
    assert changes[id] == map[Now(c) := FAILING];
    LoggedFor(records, changes, found, id, Now(c));
    assert after.log[|before.log|..] == records;
  }

  lemma LoggedFor(records: seq<Record>, changes: Changes, found: set<JobId>, id: JobId, at: Stamp)
    requires Complete(records, changes, found) && id in found && id in changes && at in changes[id]
    ensures RecordOf(id, at, changes[id][at]) in records
  {
  }

  lemma FailureGiven(c: Call, before: Tables, after: Tables, fates: Fates, records: seq<Record>, id: JobId)
    requires fates.Keys <= before.jobs.Keys && id in fates && fates[id].Exceeded?
    requires AllOk(ResultsOf(BatchOf(c, before, fates)))
    requires after == After(before.(jobs := Spoil(before.jobs, fates)), ResultsOf(BatchOf(c, before, fates)), records)
    ensures id in Found(BatchOf(c, before, fates)) && id in after.jobs && ResultOf(BatchOf(c, before, fates), id).Ok?
    ensures after.jobs[id] == Apply(before.jobs[id], ResultOf(BatchOf(c, before, fates), id).value.patch)
  {
    FoundIs(c, before, fates, id);
    BatchKeeps(BatchOf(c, before, fates), before, after, records, id);
  }

  // ------------------------------------------------------------------
  // Runs
  // ------------------------------------------------------------------

  datatype Step = Step(call: Call, after: Tables, r: Result<RescheduleAnswer, RescheduleError>, records: seq<Record>)

  ghost predicate Run(t: Tables, steps: seq<Step>)
    decreases |steps|
  {
    steps == [] || (Rescheduled(steps[0].call, t, steps[0].after, steps[0].r, steps[0].records)
                    && Run(steps[0].after, steps[1..]))
  }

  function Final(t: Tables, steps: seq<Step>): Tables { if steps == [] then t else steps[|steps| - 1].after }

  // The maximum does not change during the run.
  ghost predicate Fixed(steps: seq<Step>, vo: string, max: int) {
    forall i :: 0 <= i < |steps| && vo in steps[i].call.maxima ==> steps[i].call.maxima[vo] == max
  }

  lemma StepRule(s: Step, t: Tables, id: JobId, max: int)
    requires Rescheduled(s.call, t, s.after, s.r, s.records) && id in t.jobs
    requires t.jobs[id].vo in s.call.maxima ==> s.call.maxima[t.jobs[id].vo] == max
    ensures id in s.after.jobs && s.after.jobs[id].vo == t.jobs[id].vo
    ensures var wrote := s.r.Ok? && Writes(s.call, t, id);
            && (!wrote ==> s.after.jobs[id].counter == t.jobs[id].counter)
            && (wrote ==> s.after.jobs[id].counter == NextCounter(s.call, t.jobs[id]) <= max)
  {
    if s.r.Ok? { CounterAfter(s.call, t, s.after, s.r, s.records, id); }
  }

  /** A counter within the maximum never exceeds it, over any run. */
  lemma {:induction false} CounterNeverExceeds(t: Tables, steps: seq<Step>, id: JobId, max: int)
    requires Run(t, steps) && id in t.jobs && Fixed(steps, t.jobs[id].vo, max)
    requires t.jobs[id].counter <= max
    ensures id in Final(t, steps).jobs && Final(t, steps).jobs[id].counter <= max
    decreases |steps|
  {
    if steps != [] {
      StepRule(steps[0], t, id, max);
      assert Fixed(steps[1..], t.jobs[id].vo, max);
      CounterNeverExceeds(steps[0].after, steps[1..], id, max);
    }
  }

  ghost function Written(t: Tables, steps: seq<Step>, id: JobId): nat
    decreases |steps|
  {
    if steps == [] then 0
    else
      (if steps[0].r.Ok? && id in t.jobs && Writes(steps[0].call, t, id) then 1 else 0)
      + Written(steps[0].after, steps[1..], id)
  }

  /**
   Between resets each stored counter is one more than the one before, so no more
   are stored than the maximum leaves room for.
   */
  lemma {:induction false} AtMostMaxReschedulings(t: Tables, steps: seq<Step>, id: JobId, max: int)
    requires Run(t, steps) && id in t.jobs && Fixed(steps, t.jobs[id].vo, max)
    requires forall i :: 0 <= i < |steps| && id in steps[i].call.ids ==> !steps[i].call.reset
    ensures id in Final(t, steps).jobs
    ensures Final(t, steps).jobs[id].counter == t.jobs[id].counter + Written(t, steps, id)
    ensures Written(t, steps, id) > 0 ==> t.jobs[id].counter + Written(t, steps, id) <= max
    decreases |steps|
  {
    if steps != [] {
      StepRule(steps[0], t, id, max);
      assert Fixed(steps[1..], t.jobs[id].vo, max);
      AtMostMaxReschedulings(steps[0].after, steps[1..], id, max);
    }
  }

  /**
   After a reset, a job is rescheduled with a stored counter at most the maximum
   number of times before the next one.
   */
  lemma AfterReset(t: Tables, reset: Step, steps: seq<Step>, id: JobId, max: int)
    requires Run(t, [reset] + steps) && id in t.jobs && Fixed([reset] + steps, t.jobs[id].vo, max)
    requires reset.call.reset && reset.r.Ok? && Writes(reset.call, t, id)
    requires forall i :: 0 <= i < |steps| && id in steps[i].call.ids ==> !steps[i].call.reset
    ensures Written(reset.after, steps, id) <= max
  {
    var all := [reset] + steps;
    assert all[0] == reset && all[1..] == steps;
    StepRule(reset, t, id, max);
    forall i | 0 <= i < |steps| && t.jobs[id].vo in steps[i].call.maxima
      ensures steps[i].call.maxima[t.jobs[id].vo] == max
    {
      assert steps[i] == all[i + 1];
    }
    AtMostMaxReschedulings(reset.after, steps, id, max);
  }
}
