/** What one call of `reschedule_jobs` answers for each job, and what it writes for it. */
module RescheduleOutcome {
  import opened Basics
  import opened JobStatus
  import opened JobBatch
  import opened Reschedule
  import opened RescheduleRuns

  // ------------------------------------------------------------------
  // The answer
  // ------------------------------------------------------------------

  // The jobs of a call that exist, are verified, and are not over their maximum.
  predicate Left(c: Call, jobs: map<JobId, Job>, id: JobId) {
    && id in c.ids && id in jobs && jobs[id].verified && jobs[id].vo in c.maxima
    && (if c.reset then 0 else jobs[id].counter + 1) <= c.maxima[jobs[id].vo]
  }

  // What DIRAC answers for such a job.
  function CheckOf(c: Call, job: Job, id: JobId): Check { c.check(id, if c.reset then 0 else job.counter + 1) }

  lemma FateIs(c: Call, jobs: map<JobId, Job>, id: JobId)
    requires id in c.ids && id in jobs
    ensures var f := FateOf(c, id, jobs[id]);
            && id in FatesOf(c, jobs) && FatesOf(c, jobs)[id] == f
            && (Survives(f) <==> Left(c, jobs, id))
            && (f.Unverified? <==> !jobs[id].verified)
            && (f.Unconfigured? <==> jobs[id].verified && jobs[id].vo !in c.maxima)
            && (f.Exceeded? <==> jobs[id].verified && jobs[id].vo in c.maxima && !Left(c, jobs, id))
            && (f.Jdlless? <==> Left(c, jobs, id) && id !in c.jdls)
            && (f.Accepted? <==> Left(c, jobs, id) && id in c.jdls && CheckOf(c, jobs[id], id).Prepared?)
            && (f.Accepted? ==> CheckOf(c, jobs[id], id) == Prepared(f.site, f.priority))
  {
  }

  /**
   The answer for each job asked for: it is rescheduled exactly if it is verified,
   within its maximum and passes the checks, and otherwise the first reason
   against it is given; an unknown job is only mentioned if no job is known.
   */
  lemma AnswerExactly(c: Call, before: Tables, after: Tables, r: Result<RescheduleAnswer, RescheduleError>,
                      records: seq<Record>, id: JobId)
    requires Rescheduled(c, before, after, r, records) && r.Ok? && id in c.ids
    ensures id !in before.jobs ==>
              id !in r.value.success
              && (id in r.value.failed <==> c.ids !! before.jobs.Keys)
              && (id in r.value.failed ==> r.value.failed[id] == NotFound)
    ensures id in before.jobs ==>
              var job := before.jobs[id];
              var next := if c.reset then 0 else job.counter + 1;
              && (job.verified ==> job.vo in c.maxima)
              && (id in r.value.success <==>
                   job.verified && next <= c.maxima[job.vo] && c.check(id, next).Prepared?)
              && (id in r.value.failed <==> id !in r.value.success)
              && (id in r.value.failed ==>
                   r.value.failed[id] == if !job.verified then NotVerified
                                         else if next > c.maxima[job.vo] then TooMany else CheckFailed)
  {
    var fates := FatesOf(c, before.jobs);
    assert fates.Keys == c.ids * before.jobs.Keys;
    assert r.value.failed == FailedOf(c, fates) && Workable(fates);
    AnswersDisjoint(c, before, after, r, records);
    FailedExactly(c, fates, id);
    if id in before.jobs { FateIs(c, before.jobs, id); }
    if id !in before.jobs && c.ids !! before.jobs.Keys { assert fates.Keys == {}; }
  }

  lemma FailedExactly(c: Call, fates: Fates, id: JobId)
    requires fates.Keys <= c.ids && id in c.ids
    ensures id !in fates ==>
              (id in FailedOf(c, fates) <==> fates.Keys == {})
              && (id in FailedOf(c, fates) ==> FailedOf(c, fates)[id] == NotFound)
    ensures id in fates ==>
              (id in FailedOf(c, fates) <==> fates[id] in {Unverified, Exceeded, Unfit} || fates[id].Spoiled?)
              && (id in FailedOf(c, fates) ==>
                   FailedOf(c, fates)[id] == if fates[id].Unverified? then NotVerified
                                             else if fates[id].Exceeded? then TooMany else CheckFailed)
  {
  }

  /** When a call raises before anything is written: a verified job without configuration, or a job left without JDL. */
  lemma RaisesExactly(c: Call, before: Tables, after: Tables, r: Result<RescheduleAnswer, RescheduleError>,
                      records: seq<Record>)
    requires Rescheduled(c, before, after, r, records)
    ensures var bare := exists id :: id in c.ids && id in before.jobs && before.jobs[id].verified
                                     && before.jobs[id].vo !in c.maxima;
            var jdlless := exists id :: id in c.ids && id in before.jobs && before.jobs[id].verified && id !in c.jdls
                             && before.jobs[id].vo in c.maxima
                             && (if c.reset then 0 else before.jobs[id].counter + 1) <= c.maxima[before.jobs[id].vo];
            && (r == Err(NoOperations) <==> bare)
            && (r == Err(NoJdl) <==> !bare && jdlless)
            && (r.Err? ==> after == before)
            && (r.Err? && r.error.InStatuses? ==> !bare && !jdlless)
  {
    var fates := FatesOf(c, before.jobs);
    forall id ensures id in fates <==> id in c.ids && id in before.jobs {}
    forall id | id in fates
      ensures fates[id].Unconfigured? <==> before.jobs[id].verified && before.jobs[id].vo !in c.maxima
      ensures fates[id].Jdlless? <==> Left(c, before.jobs, id) && id !in c.jdls
    {
      FateIs(c, before.jobs, id);
    }
  }

  // ------------------------------------------------------------------
  // What is written
  // ------------------------------------------------------------------

  const RESCHEDULING := Update(Some("Received"), Some("Job Rescheduled"), Some("Unknown"), "Unknown")
  const GIVING_UP := Update(Some("Failed"), Some("Maximum of reschedulings reached"), Some("Unknown"), "Unknown")

  ghost predicate AskedLogged(c: Call, before: Tables, after: Tables, id: JobId, u: Update) {
    && |before.log| <= |after.log|
    && exists r :: r in after.log[|before.log|..] && Logs(r, id, Stamp(c.now, true), u)
  }

  // What DIRAC decides on this one update of the job.
  function DecisionOn(c: Call, job: Job, id: JobId, u: Update, latest: int): Option<Decision> {
    c.rules.decide(id, latest, map[Stamp(c.now, true) := u],
                   if job.status == "Stalled" then "Running" else job.status, false)
  }

  ghost predicate AskedStored(c: Call, job: Job, after: Job, log: seq<Record>, id: JobId, u: Update, extra: Patch) {
    forall latest :: LatestLog(WmsTimes(log, id), latest) ==>
      && (c.now < latest ==> StatusColumns(after, job))
      && (c.now >= latest ==>
           && DecisionOn(c, job, id, u, latest).Some?
           && Stored(job, after, DecisionOn(c, job, id, u, latest).value, extra, c.now))
  }

  // A batch of this call that succeeded.
  ghost predicate Wrote(c: Call, before: Tables, after: Tables, b: Batch, records: seq<Record>) {
    && b.rules == c.rules && b.now == c.now && !b.force && b.log == before.log
    && AllOk(ResultsOf(b)) && Complete(records, b.changes, Found(b))
    && after == After(before.(jobs := b.jobs), ResultsOf(b), records)
  }

  lemma BatchWrote(c: Call, before: Tables, after: Tables, fates: Fates, answer: RescheduleAnswer, records: seq<Record>)
    requires fates.Keys <= before.jobs.Keys && Statuses(c, before, after, answer, fates, records) && AnySurvives(fates)
    ensures Wrote(c, before, after, BatchOf(c, before, fates), records)
  {
  }

  lemma AskedInBatch(c: Call, before: Tables, after: Tables, b: Batch, records: seq<Record>, id: JobId, u: Update)
    requires Wrote(c, before, after, b, records)
    requires id in before.jobs && id in b.jobs && b.jobs[id] == before.jobs[id]
    requires id in Found(b) && b.changes[id] == map[Stamp(c.now, true) := u]
    ensures AskedLogged(c, before, after, id, u)
    ensures id in after.jobs
    ensures AskedStored(c, before.jobs[id], after.jobs[id], before.log, id, u, Extra(b, id))
  {
    LoggedInBatch(c, before, after, b, records, id, u);
    StoredInBatch(c, before, after, b, records, id, u);
  }

  lemma LoggedInBatch(c: Call, before: Tables, after: Tables, b: Batch, records: seq<Record>, id: JobId, u: Update)
    requires id in Found(b) && b.changes[id] == map[Stamp(c.now, true) := u]
    requires Complete(records, b.changes, Found(b)) && after.log == before.log + records
    ensures AskedLogged(c, before, after, id, u)
  {
    var at := Stamp(c.now, true);
    LoggedFor(records, b.changes, Found(b), id, at);
    assert after.log[|before.log|..] == records;
    assert Logs(RecordOf(id, at, u), id, at, u);
  }

  lemma StoredInBatch(c: Call, before: Tables, after: Tables, b: Batch, records: seq<Record>, id: JobId, u: Update)
    requires b.rules == c.rules && b.now == c.now && !b.force && b.log == before.log
    requires id in before.jobs && id in b.jobs && b.jobs[id] == before.jobs[id]
    requires id in Found(b) && b.changes[id] == map[Stamp(c.now, true) := u] && AllOk(ResultsOf(b))
    requires after == After(before.(jobs := b.jobs), ResultsOf(b), records)
    ensures id in after.jobs
    ensures AskedStored(c, before.jobs[id], after.jobs[id], before.log, id, u, Extra(b, id))
  {
    BatchKeeps(b, before, after, records, id);
    var job, at, wms := before.jobs[id], Stamp(c.now, true), WmsTimes(before.log, id);
    assert at in b.changes[id] && b.changes[id].Keys == {at};
    forall latest | LatestLog(wms, latest)
      ensures c.now < latest ==> StatusColumns(after.jobs[id], job)
      ensures c.now >= latest ==>
                && DecisionOn(c, job, id, u, latest).Some?
                && Stored(job, after.jobs[id], DecisionOn(c, job, id, u, latest).value, Extra(b, id), c.now)
    {
      DecisionStored(c.rules, id, job, b.changes[id], wms, Extra(b, id), false, c.now, latest);
      assert AllBefore(b.changes[id], latest) <==> c.now < latest;
    }
  }

  predicate Accepts(c: Call, jobs: map<JobId, Job>, id: JobId) {
    Left(c, jobs, id) && CheckOf(c, jobs[id], id).Prepared?
  }

  predicate Spoils(c: Call, jobs: map<JobId, Job>, id: JobId) {
    Left(c, jobs, id) && CheckOf(c, jobs[id], id).SubmissionError?
  }

  ghost predicate GivesUp(c: Call, jobs: map<JobId, Job>, id: JobId) {
    id in c.ids && id in jobs && jobs[id].verified && !Left(c, jobs, id) && exists k :: Left(c, jobs, k)
  }

  /** A job that passes the checks is asked to be Received again, with its site, its priority and the next counter. */
  lemma AcceptedWritten(c: Call, before: Tables, after: Tables, r: Result<RescheduleAnswer, RescheduleError>,
                        records: seq<Record>, id: JobId)
    requires Rescheduled(c, before, after, r, records) && r.Ok? && Accepts(c, before.jobs, id)
    ensures id in after.jobs && AskedLogged(c, before, after, id, RESCHEDULING)
    ensures var job := before.jobs[id];
            var check := CheckOf(c, job, id);
            AskedStored(c, job, after.jobs[id], before.log, id, RESCHEDULING,
                        NO_PATCH.(site := Some(check.site), priority := Some(check.priority),
                                  rescheduled := Some(c.now),
                                  counter := Some(if c.reset then 0 else job.counter + 1)))
  {
    var fates := FatesOf(c, before.jobs);
    FateIs(c, before.jobs, id);
    assert Workable(fates) && Survives(fates[id]);
    AcceptedFor(c, before, after, fates, r.value, records, id);
  }

  /** A job over its maximum is asked to be Failed, if some other job is left. */
  lemma GivenUpWritten(c: Call, before: Tables, after: Tables, r: Result<RescheduleAnswer, RescheduleError>,
                       records: seq<Record>, id: JobId)
    requires Rescheduled(c, before, after, r, records) && r.Ok? && GivesUp(c, before.jobs, id)
    ensures id in after.jobs && AskedLogged(c, before, after, id, GIVING_UP)
    ensures AskedStored(c, before.jobs[id], after.jobs[id], before.log, id, GIVING_UP, NO_PATCH)
  {
    var fates := FatesOf(c, before.jobs);
    FateIs(c, before.jobs, id);
    SurvivorsAre(c, before.jobs);
    assert Workable(fates);
    ExceededFor(c, before, after, fates, r.value, records, id);
  }

  /** A submission error sets what it says, and the next counter, at once. */
  lemma SpoiledWritten(c: Call, before: Tables, after: Tables, r: Result<RescheduleAnswer, RescheduleError>,
                       records: seq<Record>, id: JobId)
    requires Rescheduled(c, before, after, r, records) && r.Ok? && Spoils(c, before.jobs, id)
    ensures id in after.jobs
    ensures var job := before.jobs[id];
            var set_ := CheckOf(c, job, id).patch;
            after.jobs[id] == Apply(job, set_).(
              counter := if c.reset then 0 else job.counter + 1,
              lastUpdate := if set_.status.Some? then c.now else Or(set_.lastUpdate, job.lastUpdate))
  {
    var fates := FatesOf(c, before.jobs);
    FateIs(c, before.jobs, id);
    SurvivorsAre(c, before.jobs);
    assert Workable(fates) && FateOf(c, id, before.jobs[id]).Spoiled?;
    SpoiledApplied(c, before.jobs[id], id);
    UnaskedFor(c, before, after, fates, r.value, records, id);
  }

  lemma SpoiledApplied(c: Call, job: Job, id: JobId)
    requires FateOf(c, id, job).Spoiled?
    ensures CheckOf(c, job, id).SubmissionError?
    ensures var set_ := CheckOf(c, job, id).patch;
            Apply(job, FateOf(c, id, job).patch) == Apply(job, set_).(
              counter := if c.reset then 0 else job.counter + 1,
              lastUpdate := if set_.status.Some? then c.now else Or(set_.lastUpdate, job.lastUpdate))
  {
  }

  /** Every other job stays as it is, asked for or not. */
  lemma OthersKept(c: Call, before: Tables, after: Tables, r: Result<RescheduleAnswer, RescheduleError>,
                   records: seq<Record>, id: JobId)
    requires Rescheduled(c, before, after, r, records) && r.Ok? && id in before.jobs
    requires !Accepts(c, before.jobs, id) && !Spoils(c, before.jobs, id) && !GivesUp(c, before.jobs, id)
    ensures id in after.jobs && after.jobs[id] == before.jobs[id]
  {
    var fates := FatesOf(c, before.jobs);
    SurvivorsAre(c, before.jobs);
    assert Workable(fates);
    if id in c.ids { FateIs(c, before.jobs, id); }
    UnaskedFor(c, before, after, fates, r.value, records, id);
  }

  lemma SurvivorsAre(c: Call, jobs: map<JobId, Job>)
    ensures AnySurvives(FatesOf(c, jobs)) <==> exists k :: Left(c, jobs, k)
  {
    var fates := FatesOf(c, jobs);
    if k :| Left(c, jobs, k) {
      FateIs(c, jobs, k);
      assert Survives(fates[k]);
    }
    if k :| k in fates && Survives(fates[k]) { FateIs(c, jobs, k); }
  }

  lemma AcceptedInBatch(c: Call, t: Tables, fates: Fates, id: JobId)
    requires fates.Keys <= t.jobs.Keys && id in fates && fates[id].Accepted?
    ensures var b := BatchOf(c, t, fates);
            && id in Found(b) && b.jobs[id] == t.jobs[id] && Extra(b, id) == ExtraOf(c, t.jobs[id], fates[id])
            && b.changes[id] == map[Stamp(c.now, true) := RESCHEDULING]
  {
    FoundIs(c, t, fates, id);
  }

  lemma ExceededInBatch(c: Call, t: Tables, fates: Fates, id: JobId)
    requires fates.Keys <= t.jobs.Keys && id in fates && fates[id].Exceeded?
    ensures var b := BatchOf(c, t, fates);
            && id in Found(b) && b.jobs[id] == t.jobs[id] && Extra(b, id) == NO_PATCH
            && b.changes[id] == map[Stamp(c.now, true) := GIVING_UP]
  {
    FoundIs(c, t, fates, id);
  }

  // The same by fates.
  lemma AcceptedFor(c: Call, before: Tables, after: Tables, fates: Fates, answer: RescheduleAnswer,
                    records: seq<Record>,
                    id: JobId)
    requires fates.Keys <= before.jobs.Keys && Statuses(c, before, after, answer, fates, records)
    requires AnySurvives(fates) && id in fates && fates[id].Accepted?
    ensures id in after.jobs && AskedLogged(c, before, after, id, RESCHEDULING)
    ensures AskedStored(c, before.jobs[id], after.jobs[id], before.log, id, RESCHEDULING,
                        ExtraOf(c, before.jobs[id], fates[id]))
  {
    BatchWrote(c, before, after, fates, answer, records);
    AcceptedInBatch(c, before, fates, id);
    AskedInBatch(c, before, after, BatchOf(c, before, fates), records, id, RESCHEDULING);
  }

  lemma ExceededFor(c: Call, before: Tables, after: Tables, fates: Fates, answer: RescheduleAnswer,
                    records: seq<Record>,
                    id: JobId)
    requires fates.Keys <= before.jobs.Keys && Statuses(c, before, after, answer, fates, records)
    requires AnySurvives(fates) && id in fates && fates[id].Exceeded?
    ensures id in after.jobs && AskedLogged(c, before, after, id, GIVING_UP)
    ensures AskedStored(c, before.jobs[id], after.jobs[id], before.log, id, GIVING_UP, NO_PATCH)
  {
    BatchWrote(c, before, after, fates, answer, records);
    ExceededInBatch(c, before, fates, id);
    AskedInBatch(c, before, after, BatchOf(c, before, fates), records, id, GIVING_UP);
  }

  // A job that is not in the batch.
  lemma UnaskedFor(c: Call, before: Tables, after: Tables, fates: Fates, answer: RescheduleAnswer, records: seq<Record>,
                   id: JobId)
    requires fates.Keys <= before.jobs.Keys && Statuses(c, before, after, answer, fates, records)
    requires id in before.jobs && (id in fates && AnySurvives(fates) ==> !fates[id].Accepted? && !fates[id].Exceeded?)
    requires id in fates && fates[id].Spoiled? ==> AnySurvives(fates)
    ensures id in after.jobs
    ensures after.jobs[id] == if id in fates && fates[id].Spoiled? then Apply(before.jobs[id], fates[id].patch)
                              else before.jobs[id]
  {
    if AnySurvives(fates) {
      FoundIs(c, before, fates, id);
      BatchKeeps(BatchOf(c, before, fates), before, after, records, id);
    }
  }
}
