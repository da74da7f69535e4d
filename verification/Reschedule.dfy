/** `reschedule_jobs`, and the counter that limits it. */
module Reschedule {
  import opened Basics
  import opened JobStatus
  import opened JobBatch

  // What the checks of DIRAC answer for a job; a submission error also sets attributes.
  datatype Check = Prepared(site: string, priority: int) | SubmissionError(patch: Patch) | OtherError

  datatype Call = Call(
    rules: Rules, maxima: map<string, int>, ids: set<JobId>, jdls: set<JobId>,
    check: (JobId, int) -> Check, reset: bool, now: int)

  datatype Reason = NotFound | NotVerified | TooMany | CheckFailed

  datatype RescheduleError = NoOperations | NoJdl | InStatuses(error: Error)

  datatype RescheduleAnswer = RescheduleAnswer(success: map<JobId, (Patch, Patch)>, failed: map<JobId, Reason>)

  // ------------------------------------------------------------------
  // One job
  // ------------------------------------------------------------------

  datatype Fate =
    | Unverified
    | Unconfigured
    | Exceeded
    | Jdlless
    | Spoiled(patch: Patch)
    | Unfit
    | Accepted(site: string, priority: int)

  function NextCounter(c: Call, job: Job): int { if c.reset then 0 else job.counter + 1 }

  function FateOf(c: Call, id: JobId, job: Job): Fate {
    if !job.verified then Unverified
    else if job.vo !in c.maxima then Unconfigured
    else if NextCounter(c, job) > c.maxima[job.vo] then Exceeded
    else if id !in c.jdls then Jdlless
    else
      match c.check(id, NextCounter(c, job))
      case Prepared(site, priority) => Accepted(site, priority)
      case SubmissionError(patch) => Spoiled(SpoiledPatch(c, job, patch))
      case OtherError => Unfit
  }

  // The attributes written at once when a submission check fails: the counter is among them.
  function SpoiledPatch(c: Call, job: Job, patch: Patch): Patch {
    var counted := patch.(counter := Some(NextCounter(c, job)));
    if patch.status.Some? then counted.(lastUpdate := Some(c.now)) else counted
  }

  predicate Survives(f: Fate) { f.Jdlless? || f.Spoiled? || f.Unfit? || f.Accepted? }

  function Now(c: Call): Stamp { Stamp(c.now, true) }

  const FAILING := Update(Some("Failed"), Some("Maximum of reschedulings reached"), Some("Unknown"), "Unknown")
  const RECEIVING := Update(Some("Received"), Some("Job Rescheduled"), Some("Unknown"), "Unknown")

  function ExtraOf(c: Call, job: Job, f: Fate): Patch
    requires f.Accepted?
  {
    NO_PATCH.(site := Some(f.site), priority := Some(f.priority), rescheduled := Some(c.now),
              counter := Some(NextCounter(c, job)))
  }

  // ------------------------------------------------------------------
  // A whole call
  // ------------------------------------------------------------------

  type Fates = map<JobId, Fate>

  function FatesOf(c: Call, jobs: map<JobId, Job>): Fates {
    map id | id in c.ids && id in jobs :: FateOf(c, id, jobs[id])
  }

  ghost predicate Workable(fates: Fates) {
    forall id :: id in fates ==> !fates[id].Unconfigured? && !fates[id].Jdlless?
  }

  ghost predicate AnySurvives(fates: Fates) { exists id :: id in fates && Survives(fates[id]) }

  ghost function Exceeding(fates: Fates): set<JobId> { set id | id in fates && fates[id].Exceeded? }
  ghost function Accepting(fates: Fates): set<JobId> { set id | id in fates && fates[id].Accepted? }

  // The status changes asked for: failures first, then the rescheduled jobs.
  function ChangesOf(c: Call, exceeded: set<JobId>, accepted: set<JobId>): Changes {
    (map id | id in exceeded :: map[Now(c) := FAILING]) + map id | id in accepted :: map[Now(c) := RECEIVING]
  }

  function ExtrasOf(c: Call, jobs: map<JobId, Job>, fates: Fates): map<JobId, Patch>
    requires fates.Keys <= jobs.Keys
  {
    map id | id in fates && fates[id].Accepted? :: ExtraOf(c, jobs[id], fates[id])
  }

  function Spoil(jobs: map<JobId, Job>, fates: Fates): map<JobId, Job> {
    map id | id in jobs :: if id in fates && fates[id].Spoiled? then Apply(jobs[id], fates[id].patch) else jobs[id]
  }

  function ReasonOf(f: Fate): Option<Reason> {
    match f
    case Unverified => Some(NotVerified)
    case Exceeded => Some(TooMany)
    case Spoiled(_) => Some(CheckFailed)
    case Unfit => Some(CheckFailed)
    case _ => None
  }

  // The batch of status changes that follows the checks.
  ghost function BatchOf(c: Call, t: Tables, fates: Fates): Batch
    requires fates.Keys <= t.jobs.Keys
  {
    Batch(c.rules, ChangesOf(c, Exceeding(fates), Accepting(fates)), ExtrasOf(c, t.jobs, fates), false, c.now,
          Spoil(t.jobs, fates), t.log)
  }

  ghost function FailedOf(c: Call, fates: Fates): map<JobId, Reason> {
    if fates.Keys == {} then map id | id in c.ids :: NotFound
    else map id | id in fates && ReasonOf(fates[id]).Some? :: ReasonOf(fates[id]).value
  }

  ghost predicate Statuses(c: Call, before: Tables, after: Tables, answer: RescheduleAnswer, fates: Fates,
                           records: seq<Record>)
    requires fates.Keys <= before.jobs.Keys
  {
    if !AnySurvives(fates) then after == before && answer.success == map[]
    else
      var b := BatchOf(c, before, fates);
      var res := ResultsOf(b);
      && AllOk(res)
      && after == After(before.(jobs := Spoil(before.jobs, fates)), res, records)
      && Complete(records, b.changes, Found(b))
      && Successes(c, before.jobs, fates, res, answer.success)
  }

  // The accepted jobs, with the attributes that came with them and those that were set.
  ghost predicate Successes(c: Call, jobs: map<JobId, Job>, fates: Fates, res: Results,
                            success: map<JobId, (Patch, Patch)>)
    requires fates.Keys <= jobs.Keys && AllOk(res)
  {
    && (forall id :: id in success <==> id in fates && fates[id].Accepted?)
    && (forall id :: id in success ==>
        id in res && success[id] == (ExtraOf(c, jobs[id], fates[id]), res[id].value.patch))
  }

  // Every job can be handled, and if any is left, so can the batch of status changes.
  ghost predicate Succeeds(c: Call, t: Tables, fates: Fates)
    requires fates.Keys <= t.jobs.Keys
  {
    Workable(fates) && (AnySurvives(fates) ==> AllOk(ResultsOf(BatchOf(c, t, fates))))
  }

  // The configuration is looked up before any JDL, and both before the batch.
  ghost predicate Explains(c: Call, t: Tables, fates: Fates, e: RescheduleError)
    requires fates.Keys <= t.jobs.Keys
  {
    match e
    case NoOperations => exists id :: id in fates && fates[id].Unconfigured?
    case NoJdl =>
      (forall id :: id in fates ==> !fates[id].Unconfigured?) && exists id :: id in fates && fates[id].Jdlless?
    case InStatuses(why) =>
      Workable(fates) && AnySurvives(fates)
      && var res := ResultsOf(BatchOf(c, t, fates)); exists id :: id in res && res[id] == Err(why)
  }

  ghost predicate RescheduledFor(c: Call, before: Tables, after: Tables, fates: Fates,
                                 r: Result<RescheduleAnswer, RescheduleError>, records: seq<Record>)
    requires fates.Keys <= before.jobs.Keys
  {
    && (r.Ok? <==> Succeeds(c, before, fates))
    && (r.Err? ==> after == before && Explains(c, before, fates, r.error))
    && (r.Ok? ==> r.value.failed == FailedOf(c, fates) && Statuses(c, before, after, r.value, fates, records))
  }

  /**
   When a call succeeds, what it then answers and writes, and why it raises
   otherwise, which leaves the tables as they were: its transaction is rolled back.
   */
  ghost predicate Rescheduled(c: Call, before: Tables, after: Tables, r: Result<RescheduleAnswer, RescheduleError>,
                              records: seq<Record>) {
    RescheduledFor(c, before, after, FatesOf(c, before.jobs), r, records)
  }

  // What the job parameters gain stays, even when the batch fails.
  ghost predicate ParametersFor(c: Call, t: Tables, fates: Fates, before: Parameters, after: Parameters, all: bool)
    requires fates.Keys <= t.jobs.Keys
  {
    if Workable(fates) && AnySurvives(fates) then
      var b := BatchOf(c, t, fates);
      Upserted(b.jobs, ResultsOf(b), before, after, all)
    else after == before
  }

  // ------------------------------------------------------------------
  // The loops
  // ------------------------------------------------------------------

  datatype Screened = Screened(counters: map<JobId, int>, exceeded: set<JobId>, failed: map<JobId, Reason>)

  ghost predicate ScreenedSoFar(c: Call, jobs: map<JobId, Job>, fates: Fates, done: set<JobId>, s: Screened)
    requires fates.Keys <= jobs.Keys
  {
    && done <= fates.Keys
    && (forall id :: id in done ==> !fates[id].Unconfigured?)
    && (forall id :: id in s.counters <==> id in done && Survives(fates[id]))
    && (forall id :: id in s.counters ==> s.counters[id] == NextCounter(c, jobs[id]))
    && (forall id :: id in s.exceeded <==> id in done && fates[id].Exceeded?)
    && (forall id :: id in s.failed <==> id in done && (fates[id].Unverified? || fates[id].Exceeded?))
    && (forall id :: id in s.failed ==> s.failed[id] == if fates[id].Unverified? then NotVerified else TooMany)
  }

  method Screen(c: Call, jobs: map<JobId, Job>, found: set<JobId>) returns (r: Option<Screened>)
    requires found == FatesOf(c, jobs).Keys
    ensures r.None? <==> exists id :: id in found && FatesOf(c, jobs)[id].Unconfigured?
    ensures r.Some? ==> ScreenedSoFar(c, jobs, FatesOf(c, jobs), found, r.value)
  {
    ghost var fates := FatesOf(c, jobs);
    var s := Screened(map[], {}, map[]);
    var todo := found;
    while todo != {}
      invariant todo <= found
      invariant ScreenedSoFar(c, jobs, fates, found - todo, s)
      decreases todo
    {
      var id :| id in todo;
      DoneGrows(found, todo, id);
      var job := jobs[id];
      assert fates[id] == FateOf(c, id, job);
      if !job.verified {
        s := s.(failed := s.failed[id := NotVerified]);
      } else {
        if job.vo !in c.maxima { return None; }
        var counter := if c.reset then 0 else job.counter + 1;
        if counter > c.maxima[job.vo] {
          s := s.(exceeded := s.exceeded + {id}, failed := s.failed[id := TooMany]);
        } else {
          s := s.(counters := s.counters[id := counter]);
        }
      }
      todo := todo - {id};
    }
    assert found - todo == found;
    return Some(s);
  }

  datatype Ready = Ready(accepted: map<JobId, Patch>, spoiled: map<JobId, Patch>, unfit: set<JobId>)

  ghost predicate ReadySoFar(c: Call, jobs: map<JobId, Job>, fates: Fates, done: set<JobId>, y: Ready)
    requires fates.Keys <= jobs.Keys
  {
    && done <= fates.Keys
    && (forall id :: id in done ==> Survives(fates[id]) && !fates[id].Jdlless?)
    && (forall id :: id in y.accepted <==> id in done && fates[id].Accepted?)
    && (forall id :: id in y.accepted ==> y.accepted[id] == ExtraOf(c, jobs[id], fates[id]))
    && (forall id :: id in y.spoiled <==> id in done && fates[id].Spoiled?)
    && (forall id :: id in y.spoiled ==> y.spoiled[id] == fates[id].patch)
    && (forall id :: id in y.unfit <==> id in done && (fates[id].Spoiled? || fates[id].Unfit?))
  }

  function Grow(c: Call, job: Job, y: Ready, id: JobId, f: Fate): Ready {
    match f
    case Accepted(_, _) => y.(accepted := y.accepted[id := ExtraOf(c, job, f)])
    case Spoiled(patch) => y.(spoiled := y.spoiled[id := patch], unfit := y.unfit + {id})
    case _ => y.(unfit := y.unfit + {id})
  }

  lemma MoreReady(c: Call, jobs: map<JobId, Job>, fates: Fates, done: set<JobId>, y: Ready, id: JobId)
    requires fates.Keys <= jobs.Keys && ReadySoFar(c, jobs, fates, done, y) && id in fates && id !in done
    requires Survives(fates[id]) && !fates[id].Jdlless?
    ensures ReadySoFar(c, jobs, fates, done + {id}, Grow(c, jobs[id], y, id, fates[id]))
  {
  }

  method CheckOne(c: Call, id: JobId, job: Job, counter: int) returns (f: Fate)
    requires Survives(FateOf(c, id, job)) && counter == NextCounter(c, job)
    ensures f == FateOf(c, id, job)
  {
    if id !in c.jdls { return Jdlless; }
    match c.check(id, counter) {
      case Prepared(site, priority) => f := Accepted(site, priority);
      case SubmissionError(patch) => f := Spoiled(SpoiledPatch(c, job, patch));
      case OtherError => f := Unfit;
    }
  }

  method Prepare(c: Call, jobs: map<JobId, Job>, ghost fates: Fates, s: Screened) returns (r: Option<Ready>)
    requires fates == FatesOf(c, jobs) && ScreenedSoFar(c, jobs, fates, fates.Keys, s)
    ensures r.None? <==> exists id :: id in fates && fates[id].Jdlless?
    ensures r.Some? ==> ReadySoFar(c, jobs, fates, s.counters.Keys, r.value)
  {
    var y := Ready(map[], map[], {});
    var found := s.counters.Keys;
    var todo := found;
    while todo != {}
      invariant todo <= found
      invariant ReadySoFar(c, jobs, fates, found - todo, y)
      decreases todo
    {
      var id :| id in todo;
      DoneGrows(found, todo, id);
      var job := jobs[id];
      var f := CheckOne(c, id, job, s.counters[id]);
      if f.Jdlless? { return None; }
      MoreReady(c, jobs, fates, found - todo, y, id);
      y := Grow(c, job, y, id, f);
      todo := todo - {id};
    }
    assert found - todo == found;
    return Some(y);
  }

  method RescheduleJobs(db: JobDatabases, c: Call)
    returns (r: Result<RescheduleAnswer, RescheduleError>, ghost records: seq<Record>)
    modifies db
    ensures Rescheduled(c, old(db.View()), db.View(), r, records)
    ensures ParametersFor(c, old(db.View()), FatesOf(c, old(db.jobs)), old(db.parameters), db.parameters, r.Ok?)
  {
    records := [];
    var saved := db.jobs;
    ghost var fates := FatesOf(c, saved);
    var found := set id | id in c.ids && id in db.jobs;
    assert found == fates.Keys;
    var screened := Screen(c, saved, found);
    if screened.None? { return Err(NoOperations), []; }
    var s := screened.value;
    var ready := Prepare(c, saved, fates, s);
    if ready.None? { return Err(NoJdl), []; }
    r, records := Finish(db, c, fates, s, ready.value);
  }

  // What follows the two loops.
  method Finish(db: JobDatabases, c: Call, ghost fates: Fates, s: Screened, y: Ready)
    returns (r: Result<RescheduleAnswer, RescheduleError>, ghost records: seq<Record>)
    requires fates.Keys <= db.jobs.Keys && fates.Keys == (set id | id in c.ids && id in db.jobs)
    requires ScreenedSoFar(c, db.jobs, fates, fates.Keys, s) && ReadySoFar(c, db.jobs, fates, s.counters.Keys, y)
    modifies db
    ensures RescheduledFor(c, old(db.View()), db.View(), fates, r, records)
    ensures ParametersFor(c, old(db.View()), fates, old(db.parameters), db.parameters, r.Ok?)
  {
    records := [];
    var saved := db.jobs;
    var found := set id | id in c.ids && id in db.jobs;
    var failed := if found == {} then map id | id in c.ids :: NotFound
                  else s.failed + (map id | id in y.unfit :: CheckFailed);
    FailedIs(c, saved, fates, s, y);
    if s.counters.Keys == {} {
      NoneSurvives(c, saved, fates, s);
      NobodyLeft(c, db.View(), fates, failed);
      return Ok(RescheduleAnswer(map[], failed)), [];
    }
    SomeSurvives(c, saved, fates, s);
    r, records := SetStatuses(db, c, fates, s, y, failed);
  }

  lemma NobodyLeft(c: Call, t: Tables, fates: Fates, failed: map<JobId, Reason>)
    requires fates.Keys <= t.jobs.Keys && Workable(fates) && !AnySurvives(fates) && failed == FailedOf(c, fates)
    ensures RescheduledFor(c, t, t, fates, Ok(RescheduleAnswer(map[], failed)), [])
  {
  }

  // The attributes written by failed submission checks, then the statuses of all the others.
  method SetStatuses(db: JobDatabases, c: Call, ghost fates: Fates, s: Screened, y: Ready, failed: map<JobId, Reason>)
    returns (r: Result<RescheduleAnswer, RescheduleError>, ghost records: seq<Record>)
    requires fates.Keys <= db.jobs.Keys && AnySurvives(fates) && Workable(fates)
    requires ScreenedSoFar(c, db.jobs, fates, fates.Keys, s) && ReadySoFar(c, db.jobs, fates, s.counters.Keys, y)
    modifies db
    requires failed == FailedOf(c, fates)
    ensures RescheduledFor(c, old(db.View()), db.View(), fates, r, records)
    ensures ParametersFor(c, old(db.View()), fates, old(db.parameters), db.parameters, r.Ok?)
  {
    var saved := db.jobs;
    ghost var before := db.View();
    ghost var parameters := db.parameters;
    var changes := ChangesOf(c, s.exceeded, y.accepted.Keys);
    BatchIs(c, before, fates, s, y);
    ChangesAware(c, s.exceeded, y.accepted.Keys);
    db.jobs := Updated(db.jobs, y.spoiled);
    var answer;
    answer, records := db.SetJobStatuses(c.rules, changes, y.accepted, false, c.now);
    ParametersAre(c, before, fates, parameters, db.parameters, answer.Ok?);
    if answer.Err? {
      Refuses(c, before, fates, answer.error);
      // The request fails as a whole: what the submission checks wrote is rolled back.
      db.jobs := saved;
      assert db.View() == before;
      return Err(InStatuses(answer.error)), [];
    }
    r := Ok(RescheduleAnswer(Granted(y, answer.value), failed));
    Concludes(c, before, db.View(), fates, y, answer.value, failed, records);
  }

  lemma ParametersAre(c: Call, t: Tables, fates: Fates, before: Parameters, after: Parameters, all: bool)
    requires fates.Keys <= t.jobs.Keys && AnySurvives(fates) && Workable(fates)
    requires var b := BatchOf(c, t, fates); Upserted(b.jobs, ResultsOf(b), before, after, all)
    ensures ParametersFor(c, t, fates, before, after, all)
  {
  }

  lemma Refuses(c: Call, t: Tables, fates: Fates, why: Error)
    requires fates.Keys <= t.jobs.Keys && AnySurvives(fates) && Workable(fates)
    requires var res := ResultsOf(BatchOf(c, t, fates)); exists id :: id in res && res[id] == Err(why)
    ensures RescheduledFor(c, t, t, fates, Err(InStatuses(why)), [])
  {
  }

  // The answers for the accepted jobs, with the attributes that came with them.
  function Granted(y: Ready, answer: Answer): map<JobId, (Patch, Patch)> {
    map id | id in answer.success && id in y.accepted :: (y.accepted[id], answer.success[id])
  }

  lemma Concludes(c: Call, before: Tables, after: Tables, fates: Fates, y: Ready, answer: Answer,
                  failed: map<JobId, Reason>, records: seq<Record>)
    requires fates.Keys <= before.jobs.Keys && AnySurvives(fates) && Workable(fates) && failed == FailedOf(c, fates)
    requires y.accepted == ExtrasOf(c, before.jobs, fates)
    requires var res := ResultsOf(BatchOf(c, before, fates));
             && AllOk(res) && answer.success == Success(res)
             && after == After(before.(jobs := Spoil(before.jobs, fates)), res, records)
             && Complete(records, BatchOf(c, before, fates).changes, Found(BatchOf(c, before, fates)))
    ensures RescheduledFor(c, before, after, fates, Ok(RescheduleAnswer(Granted(y, answer), failed)), records)
  {
    var b := BatchOf(c, before, fates);
    forall id | id in fates && fates[id].Accepted? ensures id in ResultsOf(b) {
      assert id in b.changes && id in b.jobs;
    }
  }

  lemma FailedIs(c: Call, jobs: map<JobId, Job>, fates: Fates, s: Screened, y: Ready)
    requires fates.Keys <= jobs.Keys
    requires ScreenedSoFar(c, jobs, fates, fates.Keys, s) && ReadySoFar(c, jobs, fates, s.counters.Keys, y)
    ensures Workable(fates)
    ensures fates.Keys != {} ==> FailedOf(c, fates) == s.failed + (map id | id in y.unfit :: CheckFailed)
  {
    forall id | id in fates ensures !fates[id].Unconfigured? && !fates[id].Jdlless? {
      if Survives(fates[id]) { assert id in s.counters.Keys; }
    }
    forall id | id in fates
      ensures id in s.failed || id in y.unfit <==> ReasonOf(fates[id]).Some?
      ensures id in y.unfit ==> ReasonOf(fates[id]) == Some(CheckFailed)
      ensures id in s.failed && id !in y.unfit ==> ReasonOf(fates[id]) == Some(s.failed[id])
    {
      assert Survives(fates[id]) <==> id in s.counters.Keys;
    }
  }

  lemma NoneSurvives(c: Call, jobs: map<JobId, Job>, fates: Fates, s: Screened)
    requires fates.Keys <= jobs.Keys && ScreenedSoFar(c, jobs, fates, fates.Keys, s) && s.counters.Keys == {}
    ensures !AnySurvives(fates)
  {
    assert forall id :: id in fates && Survives(fates[id]) ==> id in s.counters.Keys;
  }

  lemma SomeSurvives(c: Call, jobs: map<JobId, Job>, fates: Fates, s: Screened)
    requires fates.Keys <= jobs.Keys && ScreenedSoFar(c, jobs, fates, fates.Keys, s) && s.counters.Keys != {}
    ensures AnySurvives(fates)
  {
    var id :| id in s.counters.Keys;
    assert Survives(fates[id]);
  }

  lemma BatchIs(c: Call, t: Tables, fates: Fates, s: Screened, y: Ready)
    requires fates.Keys <= t.jobs.Keys
    requires ScreenedSoFar(c, t.jobs, fates, fates.Keys, s) && ReadySoFar(c, t.jobs, fates, s.counters.Keys, y)
    ensures BatchOf(c, t, fates) ==
            Batch(c.rules, ChangesOf(c, s.exceeded, y.accepted.Keys), y.accepted, false, c.now,
                  Updated(t.jobs, y.spoiled), t.log)
    ensures y.accepted == ExtrasOf(c, t.jobs, fates)
  {
    AcceptedIs(c, t.jobs, fates, s, y);
    SpoiledIs(c, t.jobs, fates, s, y);
  }

  lemma AcceptedIs(c: Call, jobs: map<JobId, Job>, fates: Fates, s: Screened, y: Ready)
    requires fates.Keys <= jobs.Keys
    requires ScreenedSoFar(c, jobs, fates, fates.Keys, s) && ReadySoFar(c, jobs, fates, s.counters.Keys, y)
    ensures y.accepted == ExtrasOf(c, jobs, fates)
    ensures y.accepted.Keys == Accepting(fates) && s.exceeded == Exceeding(fates)
  {
    forall id | id in fates && fates[id].Accepted? ensures id in y.accepted {
      assert id in s.counters.Keys;
    }
  }

  lemma ChangesAware(c: Call, exceeded: set<JobId>, accepted: set<JobId>)
    ensures AllAware(ChangesOf(c, exceeded, accepted))
  {
  }

  lemma SpoiledIs(c: Call, jobs: map<JobId, Job>, fates: Fates, s: Screened, y: Ready)
    requires fates.Keys <= jobs.Keys
    requires ScreenedSoFar(c, jobs, fates, fates.Keys, s) && ReadySoFar(c, jobs, fates, s.counters.Keys, y)
    ensures Spoil(jobs, fates) == Updated(jobs, y.spoiled)
  {
    forall id | id in jobs ensures id in y.spoiled <==> id in fates && fates[id].Spoiled? {
      if id in fates && fates[id].Spoiled? { assert id in s.counters.Keys; }
    }
  }
}
