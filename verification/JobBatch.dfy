/** `set_job_statuses`: one batch of updates written to the job tables. */
module JobBatch {
  import opened Basics
  import opened JobStatus

  type Changes = map<JobId, Updates>

  datatype Command = Command(job: JobId, command: string)

  // `failed` gives "Not found" for each of its ids.
  datatype Answer = Answer(success: map<JobId, Patch>, failed: set<JobId>)

  // The parameters of a whole batch, with what the databases held before it.
  datatype Batch = Batch(rules: Rules, changes: Changes, extras: map<JobId, Patch>, force: bool, now: int,
                         jobs: map<JobId, Job>, log: seq<Record>)

  function Found(b: Batch): set<JobId> { b.changes.Keys * b.jobs.Keys }

  function Extra(b: Batch, id: JobId): Patch { if id in b.extras then b.extras[id] else NO_PATCH }

  ghost function ResultOf(b: Batch, id: JobId): Result<Outcome, Error>
    requires id in Found(b)
  {
    OutcomeOf(b.rules, id, b.jobs[id], b.changes[id], WmsTimes(b.log, id), Extra(b, id), b.force, b.now)
  }

  // What each found job is to get.
  type Results = map<JobId, Result<Outcome, Error>>

  ghost function ResultsOf(b: Batch): Results { map id | id in Found(b) :: ResultOf(b, id) }

  ghost predicate AllOk(res: Results) { forall id :: id in res ==> res[id].Ok? }

  predicate AllAware(changes: Changes) { forall id :: id in changes ==> Aware(changes[id]) }

  ghost function Success(res: Results): map<JobId, Patch>
    requires AllOk(res)
  {
    map id | id in res :: res[id].value.patch
  }

  ghost function JobsAfter(jobs: map<JobId, Job>, res: Results): map<JobId, Job>
    requires AllOk(res)
  {
    map id | id in jobs :: if id in res then Apply(jobs[id], res[id].value.patch) else jobs[id]
  }

  predicate Ends(o: Outcome) { o.status == Some("Deleted") || o.status == Some("Killed") }

  // Jobs that end Deleted or Killed by this batch.
  ghost function Killed(res: Results): set<JobId>
    requires AllOk(res)
  {
    set id | id in res && Ends(res[id].value)
  }

  function Commands(killed: set<JobId>): set<Command> { set id | id in killed :: Command(id, "Kill") }

  // ------------------------------------------------------------------
  // Log records
  // ------------------------------------------------------------------

  function Cut(s: string, n: nat): string { if |s| <= n then s else s[..n] }

  // As stored: long texts are cut.
  function RecordOf(id: JobId, t: Stamp, u: Update): Record {
    Record(id, Or(u.status, "idem"), Or(u.minor, "idem"), Cut(Or(u.application, "idem"), 255), t, Cut(u.source, 32))
  }

  // One record for each update of each of these jobs, in order of time for each job.
  ghost predicate Complete(records: seq<Record>, changes: Changes, ids: set<JobId>) {
    Genuine(records, changes, ids) && Covering(records, changes, ids) && Ordered(records)
  }

  ghost predicate Genuine(records: seq<Record>, changes: Changes, ids: set<JobId>) {
    forall r :: r in records ==>
      r.job in ids && r.job in changes && r.date in changes[r.job]
          && r == RecordOf(r.job, r.date, changes[r.job][r.date])
  }

  ghost predicate Covering(records: seq<Record>, changes: Changes, ids: set<JobId>) {
    forall id, t :: id in ids && id in changes && t in changes[id] ==> RecordOf(id, t, changes[id][t]) in records
  }

  ghost predicate Ordered(records: seq<Record>) {
    forall i, j :: 0 <= i < j < |records| && records[i].job == records[j].job ==>
        records[i].date.at < records[j].date.at
  }

  // The records of one job.
  ghost predicate OneJob(more: seq<Record>, id: JobId, updates: Updates, times: seq<Stamp>) {
    && Chronological(times) && (forall t :: t in times <==> t in updates)
    && |more| == |times| && forall i :: 0 <= i < |times| ==> more[i] == RecordOf(id, times[i], updates[times[i]])
  }

  method RecordsOf(id: JobId, updates: Updates, times: seq<Stamp>) returns (records: seq<Record>)
    requires Chronological(times) && forall t :: t in times <==> t in updates
    ensures OneJob(records, id, updates, times)
  {
    records := [];
    for i := 0 to |times|
      invariant |records| == i
      invariant forall j :: 0 <= j < i ==> records[j] == RecordOf(id, times[j], updates[times[j]])
    {
      assert times[i] in times;
      records := records + [RecordOf(id, times[i], updates[times[i]])];
    }
  }

  lemma MoreRecords(records: seq<Record>, changes: Changes, done: set<JobId>, id: JobId, times: seq<Stamp>,
                    more: seq<Record>)
    requires Complete(records, changes, done) && id in changes && id !in done
    requires OneJob(more, id, changes[id], times)
    ensures Complete(records + more, changes, done + {id})
  {
    MoreGenuine(records, changes, done, id, times, more);
    MoreCovering(records, changes, done, id, times, more);
    MoreOrdered(records, changes, done, id, times, more);
  }

  lemma MoreGenuine(records: seq<Record>, changes: Changes, done: set<JobId>, id: JobId, times: seq<Stamp>,
                    more: seq<Record>)
    requires Genuine(records, changes, done) && id in changes
    requires OneJob(more, id, changes[id], times)
    ensures Genuine(records + more, changes, done + {id})
  {
    forall r | r in more
      ensures r.job == id && r.date in changes[id] && r == RecordOf(id, r.date, changes[id][r.date])
    {
      var i :| 0 <= i < |more| && more[i] == r;
      assert times[i] in times;
    }
  }

  lemma MoreCovering(records: seq<Record>, changes: Changes, done: set<JobId>, id: JobId, times: seq<Stamp>,
                     more: seq<Record>)
    requires Covering(records, changes, done) && id in changes
    requires OneJob(more, id, changes[id], times)
    ensures Covering(records + more, changes, done + {id})
  {
    forall t | t in changes[id] ensures RecordOf(id, t, changes[id][t]) in more {
      assert t in times;
      var i :| 0 <= i < |times| && times[i] == t;
      assert more[i] in more;
    }
  }

  lemma MoreOrdered(records: seq<Record>, changes: Changes, done: set<JobId>, id: JobId, times: seq<Stamp>,
                    more: seq<Record>)
    requires Ordered(records) && Genuine(records, changes, done) && id in changes && id !in done
    requires OneJob(more, id, changes[id], times)
    ensures Ordered(records + more)
  {
    var all := records + more;
    forall i, j | 0 <= i < j < |all| && all[i].job == all[j].job ensures all[i].date.at < all[j].date.at {
      if i < |records| {
        assert records[i] in records;
        assert all[j].job != id;
        assert j < |records|;
      } else {
        assert all[i] == more[i - |records|] && all[j] == more[j - |records|];
      }
    }
  }

  // ------------------------------------------------------------------
  // The databases
  // ------------------------------------------------------------------

  type Parameters = map<(string, JobId), Option<string>>

  // What the job parameters gain from these jobs: the status decided, even none,
  // of each job whose updates were new enough to be decided on.
  ghost function Upserts(jobs: map<JobId, Job>, res: Results, done: set<JobId>): Parameters
    requires done <= res.Keys <= jobs.Keys && forall id :: id in done ==> res[id].Ok?
  {
    map id | id in done && res[id].value.upserted :: (jobs[id].vo, id) := res[id].value.status
  }

  ghost predicate UpsertedFor(jobs: map<JobId, Job>, res: Results, before: Parameters, after: Parameters,
                              done: set<JobId>)
    requires res.Keys <= jobs.Keys
  {
    done <= res.Keys && (forall id :: id in done ==> res[id].Ok?) && after == before + Upserts(jobs, res, done)
  }

  // All jobs were handled, or those before the one that failed.
  ghost predicate Upserted(jobs: map<JobId, Job>, res: Results, before: Parameters, after: Parameters, all: bool)
    requires res.Keys <= jobs.Keys
  {
    exists done: set<JobId> :: UpsertedFor(jobs, res, before, after, done) && (all ==> done == res.Keys)
  }

  function WithUpsert(p: Parameters, vo: string, id: JobId, o: Outcome): Parameters {
    if o.upserted then p[(vo, id) := o.status] else p
  }

  lemma MoreUpserts(jobs: map<JobId, Job>, res: Results, before: Parameters, after: Parameters, done: set<JobId>,
                    id: JobId)
    requires res.Keys <= jobs.Keys && UpsertedFor(jobs, res, before, after, done)
    requires id in res && id !in done && res[id].Ok?
    ensures UpsertedFor(jobs, res, before, WithUpsert(after, jobs[id].vo, id, res[id].value), done + {id})
  {
  }

  datatype Tables = Tables(jobs: map<JobId, Job>, log: seq<Record>, commands: multiset<Command>, queued: set<JobId>)

  /** What a batch leaves in the tables. */
  ghost function After(t: Tables, res: Results, records: seq<Record>): Tables
    requires AllOk(res)
  {
    Tables(JobsAfter(t.jobs, res), t.log + records, t.commands + multiset(Commands(Killed(res))),
           t.queued - Killed(res))
  }

  /**
   A batch succeeds exactly when every found job has an outcome; then the ids
   asked for are split into those found and those that are not, the tables
   hold what the outcomes say, and each update of a found job has its record.
   */
  ghost predicate Committed(b: Batch, before: Tables, after: Tables, r: Result<Answer, Error>, records: seq<Record>) {
    var res := ResultsOf(b);
    && (r.Ok? <==> AllOk(res))
    && (r.Err? ==> after == before && exists id :: id in res && res[id] == Err(r.error))
    && (r.Ok? ==>
          && r.value == Answer(Success(res), b.changes.Keys - b.jobs.Keys)
          && after == After(before, res, records)
          && Complete(records, b.changes, Found(b)))
  }

  class JobDatabases {
    var jobs: map<JobId, Job>
    var log: seq<Record>
    var commands: multiset<Command>
    var queued: set<JobId>
    // The status kept with the job parameters, by VO and job. They are in
    // another database, written at once and never rolled back.
    var parameters: Parameters

    constructor (jobs: map<JobId, Job>, log: seq<Record>)
      ensures View() == Tables(jobs, log, multiset{}, {}) && parameters == map[]
    {
      this.jobs, this.log, commands, queued, parameters := jobs, log, multiset{}, {}, map[];
    }

    ghost function View(): Tables
      reads this
    {
      Tables(jobs, log, commands, queued)
    }

    method SetJobStatuses(rules: Rules, changes: Changes, extras: map<JobId, Patch>, force: bool, now: int)
      returns (r: Result<Answer, Error>, ghost records: seq<Record>)
      modifies this
      ensures !AllAware(changes) ==> r == Err(NaiveTimestamp) && View() == old(View()) && parameters == old(parameters)
      ensures AllAware(changes) ==>
        Committed(Batch(rules, changes, extras, force, now, old(jobs), old(log)), old(View()), View(), r, records)
      ensures AllAware(changes) ==>
        Upserted(old(jobs), ResultsOf(Batch(rules, changes, extras, force, now, old(jobs), old(log))),
                 old(parameters), parameters, r.Ok?)
    {
      var naive := FindNaive(changes);
      if naive { return Err(NaiveTimestamp), []; }
      r, records := SetAware(rules, changes, extras, force, now);
    }

    method SetAware(rules: Rules, changes: Changes, extras: map<JobId, Patch>, force: bool, now: int)
      returns (r: Result<Answer, Error>, ghost records: seq<Record>)
      requires AllAware(changes)
      modifies this
      ensures Committed(Batch(rules, changes, extras, force, now, old(jobs), old(log)), old(View()), View(), r, records)
      ensures Upserted(old(jobs), ResultsOf(Batch(rules, changes, extras, force, now, old(jobs), old(log))),
                       old(parameters), parameters, r.Ok?)
    {
      ghost var b := Batch(rules, changes, extras, force, now, jobs, log);
      ghost var res := ResultsOf(b);
      ghost var before := View();
      records := [];
      var found := changes.Keys * jobs.Keys;
      assert found == Found(b) == res.Keys;
      if found == {} {
        NothingFound(before, res);
        NoRecords(changes, found);
        NoUpserts(jobs, res, parameters);
        return Ok(Answer(map[], changes.Keys)), [];
      }
      var collected := Collect(rules, changes, extras, force, now, found);
      if collected.Err? { return Err(collected.error), []; }
      var c := collected.value;
      Write(c, res);
      return Ok(Answer(Reported(c), changes.Keys - found)), c.records;
    }

    // What follows the loop: the four tables are written.
    method Write(c: Collected, ghost res: Results)
      requires res.Keys <= jobs.Keys && Gathered(res, res.Keys, c)
      modifies this
      ensures AllOk(res) && Success(res) == Reported(c)
      ensures View() == After(old(View()), res, c.records) && parameters == old(parameters)
    {
      AllGathered(View(), res, c);
      jobs := Updated(jobs, c.updates);
      queued := queued - c.killed;
      commands := commands + multiset(Commands(c.killed));
      log := log + c.records;
    }

    // `job_parameters_db.upsert`, for a job that was decided on.
    method UpsertStatus(vo: string, id: JobId, o: Outcome)
      modifies `parameters
      ensures parameters == WithUpsert(old(parameters), vo, id, o)
    {
      if o.upserted { parameters := parameters[(vo, id) := o.status]; }
    }

    // The loop over the jobs that were found.
    method Collect(rules: Rules, changes: Changes, extras: map<JobId, Patch>, force: bool, now: int, found: set<JobId>)
      returns (r: Result<Collected, Error>)
      requires AllAware(changes) && found == changes.Keys * jobs.Keys
      modifies `parameters
      ensures var res := ResultsOf(Batch(rules, changes, extras, force, now, jobs, log));
              && (r.Ok? <==> AllOk(res))
              && (r.Ok? ==> Gathered(res, found, r.value) && Complete(r.value.records, changes, found))
              && (r.Err? ==> exists id :: id in res && res[id] == Err(r.error))
              && Upserted(jobs, res, old(parameters), parameters, r.Ok?)
    {
      ghost var res := ResultsOf(Batch(rules, changes, extras, force, now, jobs, log));
      ghost var known := parameters;
      var c := Collected(map[], {}, {}, []);
      var todo := found;
      while todo != {}
        invariant todo <= found
        invariant Progress(res, changes, found - todo, c)
        invariant UpsertedFor(jobs, res, known, parameters, found - todo)
        decreases todo
      {
        var id :| id in todo;
        DoneGrows(found, todo, id);
        var next := CollectJob(rules, changes, extras, force, now, c, id, res, known, found - todo);
        if next.Err? { return next; }
        c, todo := next.value, todo - {id};
      }
      assert found - todo == found;
      assert AllOk(res);
      return Ok(c);
    }

    // The body of the loop, for one job.
    method CollectJob(rules: Rules, changes: Changes, extras: map<JobId, Patch>, force: bool, now: int, c: Collected,
                      id: JobId, ghost res: Results, ghost known: Parameters, ghost done: set<JobId>)
      returns (r: Result<Collected, Error>)
      requires AllAware(changes) && id in changes && id in jobs && id !in done && done + {id} <= res.Keys <= jobs.Keys
      requires res[id] == ResultOf(Batch(rules, changes, extras, force, now, jobs, log), id)
      requires Progress(res, changes, done, c) && UpsertedFor(jobs, res, known, parameters, done)
      modifies `parameters
      ensures r.Ok? <==> res[id].Ok?
      ensures r.Err? ==> res[id] == Err(r.error) && parameters == old(parameters)
      ensures r.Ok? ==>
        Progress(res, changes, done + {id}, r.value) && UpsertedFor(jobs, res, known, parameters, done + {id})
    {
      var extra := if id in extras then extras[id] else NO_PATCH;
      var one, times := UpdateOne(rules, id, jobs[id], changes[id], WmsTimes(log, id), extra, force, now);
      assert one == res[id];
      if one.Err? { return Err(one.error); }
      var more := RecordsOf(id, changes[id], times);
      MoreUpserts(jobs, res, known, parameters, done, id);
      OneMoreJob(res, changes, done, c, id, times, more);
      UpsertStatus(jobs[id].vo, id, one.value);
      r := Ok(Gather(c, id, one.value, more));
    }
  }

  lemma DoneGrows(found: set<JobId>, todo: set<JobId>, id: JobId)
    requires id in todo && todo <= found
    ensures found - (todo - {id}) == found - todo + {id} && id !in found - todo
  {
  }

  // The dictionaries, the sets and the list filled by the loop.
  datatype Collected = Collected(updates: map<JobId, Patch>, skipped: set<JobId>, killed: set<JobId>,
                                 records: seq<Record>)

  function Gather(c: Collected, id: JobId, o: Outcome, more: seq<Record>): Collected {
    Collected(if o.patch != NO_PATCH then c.updates[id := o.patch] else c.updates,
              if o.patch != NO_PATCH then c.skipped else c.skipped + {id},
              if Ends(o) then c.killed + {id} else c.killed,
              c.records + more)
  }

  function Reported(c: Collected): map<JobId, Patch> { c.updates + map id | id in c.skipped :: NO_PATCH }

  // UPDATE Jobs: the rows of the table that are named change.
  function Updated(jobs: map<JobId, Job>, updates: map<JobId, Patch>): map<JobId, Job> {
    map id | id in jobs :: if id in updates then Apply(jobs[id], updates[id]) else jobs[id]
  }

  method FindNaive(changes: Changes) returns (naive: bool)
    ensures naive <==> !AllAware(changes)
  {
    var todo := changes.Keys;
    while todo != {}
      invariant todo <= changes.Keys
      invariant forall id :: id in changes.Keys - todo ==> Aware(changes[id])
      decreases todo
    {
      var id :| id in todo;
      var times := changes[id].Keys;
      while times != {}
        invariant times <= changes[id].Keys
        invariant forall t :: t in changes[id].Keys - times ==> t.aware
        decreases times
      {
        var t :| t in times;
        if !t.aware {
          assert !Aware(changes[id]);
          return true;
        }
        times := times - {t};
      }
      todo := todo - {id};
    }
    return false;
  }

  // What the loop has collected after these jobs.
  ghost predicate Gathered(res: Results, done: set<JobId>, c: Collected) {
    && done <= res.Keys
    && (forall id :: id in done ==> res[id].Ok?)
    && (forall id :: id in c.updates <==> id in done && res[id].value.patch != NO_PATCH)
    && (forall id :: id in c.updates ==> c.updates[id] == res[id].value.patch)
    && (forall id :: id in c.skipped <==> id in done && res[id].value.patch == NO_PATCH)
    && (forall id :: id in c.killed <==> id in done && Ends(res[id].value))
  }

  ghost predicate Progress(res: Results, changes: Changes, done: set<JobId>, c: Collected) {
    Gathered(res, done, c) && Complete(c.records, changes, done)
  }

  lemma OneMoreJob(res: Results, changes: Changes, done: set<JobId>, c: Collected, id: JobId, times: seq<Stamp>,
                   more: seq<Record>)
    requires Progress(res, changes, done, c) && id in res && id in changes && id !in done && res[id].Ok?
    requires OneJob(more, id, changes[id], times)
    ensures Progress(res, changes, done + {id}, Gather(c, id, res[id].value, more))
  {
    MoreRecords(c.records, changes, done, id, times, more);
    MoreGathered(res, done, c, id, more);
  }

  lemma MoreGathered(res: Results, done: set<JobId>, c: Collected, id: JobId, more: seq<Record>)
    requires Gathered(res, done, c) && id in res && id !in done && res[id].Ok?
    ensures Gathered(res, done + {id}, Gather(c, id, res[id].value, more))
  {
  }

  lemma ApplyNothing(job: Job)
    ensures Apply(job, NO_PATCH) == job
  {
  }

  lemma NothingFound(t: Tables, res: Results)
    requires res.Keys == {}
    ensures AllOk(res) && Success(res) == map[] && After(t, res, []) == t
  {
    assert Killed(res) == {} && Commands({}) == {};
    assert JobsAfter(t.jobs, res) == t.jobs;
  }

  lemma NoUpserts(jobs: map<JobId, Job>, res: Results, p: Parameters)
    requires res.Keys == {}
    ensures Upserted(jobs, res, p, p, true)
  {
    assert UpsertedFor(jobs, res, p, p, {});
  }

  lemma NoRecords(changes: Changes, ids: set<JobId>)
    requires ids == {}
    ensures Complete([], changes, ids)
  {
  }

  lemma AllGathered(t: Tables, res: Results, c: Collected)
    requires res.Keys <= t.jobs.Keys && Gathered(res, res.Keys, c)
    ensures AllOk(res) && Success(res) == Reported(c)
    ensures After(t, res, c.records)
         == Tables(Updated(t.jobs, c.updates), t.log + c.records, t.commands + multiset(Commands(c.killed)),
                   t.queued - c.killed)
  {
    assert Killed(res) == c.killed;
    SameJobs(t.jobs, res, c);
    SameSuccess(res, c);
  }

  lemma SameSuccess(res: Results, c: Collected)
    requires Gathered(res, res.Keys, c)
    ensures AllOk(res) && Success(res) == Reported(c)
  {
  }

  lemma SameJobs(jobs: map<JobId, Job>, res: Results, c: Collected)
    requires res.Keys <= jobs.Keys && Gathered(res, res.Keys, c)
    ensures AllOk(res) && JobsAfter(jobs, res) == Updated(jobs, c.updates)
  {
    forall id | id in jobs ensures JobsAfter(jobs, res)[id] == Updated(jobs, c.updates)[id] {
      if id in res { ApplyNothing(jobs[id]); }
    }
  }

  // ------------------------------------------------------------------
  // What a batch promises
  // ------------------------------------------------------------------

  /** The requested ids are split between success and failed; a failed id is one that does not exist. */
  lemma BatchPartitions(b: Batch, before: Tables, after: Tables, r: Result<Answer, Error>, records: seq<Record>)
    requires Committed(b, before, after, r, records) && r.Ok?
    ensures r.value.success.Keys + r.value.failed == b.changes.Keys && r.value.success.Keys !! r.value.failed
    ensures forall id :: id in r.value.failed <==> id in b.changes && id !in b.jobs
  {
    assert r.value.success.Keys == Found(b);
  }

  // A record of the log: what the update leaves out is "idem"; long texts are cut.
  predicate Logs(r: Record, id: JobId, t: Stamp, u: Update) {
    && r.job == id && r.date == t
    && r.status == (if u.status.Some? then u.status.value else "idem")
    && r.minor == (if u.minor.Some? then u.minor.value else "idem")
    && Cuts(r.application, if u.application.Some? then u.application.value else "idem", 255)
    && Cuts(r.source, u.source, 32)
  }

  predicate Cuts(stored: string, text: string, n: nat) {
    stored <= text && |stored| <= n && (|text| <= n ==> stored == text) && (|text| > n ==> |stored| == n)
  }

  /** Each update of a found job is logged exactly once, and nothing else is. */
  lemma LoggedOnce(b: Batch, before: Tables, after: Tables, r: Result<Answer, Error>, records: seq<Record>, id: JobId,
                   t: Stamp)
    requires Committed(b, before, after, r, records) && r.Ok? && AllAware(b.changes)
    ensures after.log == before.log + records
    ensures id in Found(b) && t in b.changes[id] <==>
            exists i :: 0 <= i < |records| && records[i].job == id && records[i].date == t
    ensures forall i, j :: 0 <= i < j < |records| ==>
              !(records[i].job == records[j].job && records[i].date == records[j].date)
    ensures forall i :: 0 <= i < |records| && records[i].job == id && records[i].date == t ==>
              id in b.changes && t in b.changes[id] && records[i] == RecordOf(id, t, b.changes[id][t])
              && Logs(records[i], id, t, b.changes[id][t])
  {
    if id in Found(b) && t in b.changes[id] {
      assert RecordOf(id, t, b.changes[id][t]) in records;
    }
    forall i | 0 <= i < |records| && records[i].job == id && records[i].date == t
      ensures id in Found(b) && t in b.changes[id] && records[i] == RecordOf(id, t, b.changes[id][t])
    {
      assert records[i] in records;
    }
  }

  /** A job found in the batch changes as its outcome says, every other job stays as it is. */
  lemma OnlyFoundChange(b: Batch, before: Tables, after: Tables, r: Result<Answer, Error>, records: seq<Record>,
                        id: JobId)
    requires Committed(b, before, after, r, records) && r.Ok? && before.jobs == b.jobs && id in b.jobs
    ensures id in after.jobs
    ensures id !in b.changes ==> after.jobs[id] == b.jobs[id]
    ensures id in b.changes ==> after.jobs[id] == Apply(b.jobs[id], r.value.success[id])
    ensures id in b.changes && b.changes[id].Keys != {}
              && Last(b.changes[id].Keys) < LatestKnown(WmsTimes(b.log, id)) ==>
              after.jobs[id].status == b.jobs[id].status
  {
    if id in b.changes {
      assert id in Found(b) && ResultsOf(b)[id] == ResultOf(b, id);
    }
  }

  ghost function LatestKnown(wms: map<string, int>): int { if wms == map[] then 0 else Max(wms) }

  /** Kill is sent once to exactly the jobs whose new status is Deleted or Killed, and those leave the queues. */
  lemma KillsExactly(b: Batch, before: Tables, after: Tables, r: Result<Answer, Error>, records: seq<Record>, id: JobId)
    requires Committed(b, before, after, r, records) && r.Ok?
    ensures var ends := GivenEnd(ResultsOf(b), id);
            && after.commands[Command(id, "Kill")] == before.commands[Command(id, "Kill")] + (if ends then 1 else 0)
            && (id in after.queued <==> id in before.queued && !ends)
  {
    var killed := Killed(ResultsOf(b));
    assert id in killed <==> GivenEnd(ResultsOf(b), id);
    assert Command(id, "Kill") in Commands(killed) <==> id in killed;
  }

  ghost predicate GivenEnd(res: Results, id: JobId) {
    id in res && res[id].Ok? && (res[id].value.status == Some("Deleted") || res[id].value.status == Some("Killed"))
  }

  /**
   What DIRAC decides for a job of a batch that succeeds is what its row holds
   afterwards; the job leaves the queues, and is sent Kill once, exactly if it is
   decided to be Deleted or Killed.
   */
  lemma DecisionWritten(b: Batch, before: Tables, after: Tables, r: Result<Answer, Error>, records: seq<Record>,
                        id: JobId, latest: int)
    requires Committed(b, before, after, r, records) && r.Ok? && before.jobs == b.jobs
    requires id in b.jobs && id in b.changes && LatestLog(WmsTimes(b.log, id), latest)
    requires !AllBefore(b.changes[id], latest)
    ensures var shown := if b.jobs[id].status == "Stalled" then "Running" else b.jobs[id].status;
            var d := b.rules.decide(id, latest, b.changes[id], shown, b.force);
            var extra := if id in b.extras then b.extras[id] else NO_PATCH;
            && d.Some? && id in after.jobs && Stored(b.jobs[id], after.jobs[id], d.value, extra, b.now)
            && var ends := d.value.status == Some("Deleted") || d.value.status == Some("Killed");
               && (id in after.queued <==> id in before.queued && !ends)
               && after.commands[Command(id, "Kill")] == before.commands[Command(id, "Kill")] + (if ends then 1 else 0)
  {
    assert id in Found(b) && ResultsOf(b)[id] == ResultOf(b, id);
    DecisionStored(b.rules, id, b.jobs[id], b.changes[id], WmsTimes(b.log, id), Extra(b, id), b.force, b.now, latest);
    KillsExactly(b, before, after, r, records, id);
  }

  /**
   The job parameters keep the status decided for each job of a batch that
   succeeds, be it none; those of jobs that were not decided on stay.
   */
  lemma ParametersWritten(jobs: map<JobId, Job>, res: Results, before: Parameters, after: Parameters, id: JobId)
    requires res.Keys <= jobs.Keys && Upserted(jobs, res, before, after, true)
    requires id in jobs
    ensures var key := (jobs[id].vo, id);
            && (id in res ==> res[id].Ok?)
            && (id in res && res[id].value.upserted ==> key in after && after[key] == res[id].value.status)
            && (!(id in res && res[id].value.upserted) ==>
                 (key in after <==> key in before) && (key in before ==> after[key] == before[key]))
  {
    var done :| UpsertedFor(jobs, res, before, after, done) && done == res.Keys;
    var key := (jobs[id].vo, id);
    assert key in Upserts(jobs, res, done) <==> id in res && res[id].value.upserted;
  }

  /** A batch is refused exactly for a found job without a log, without updates, or without a decision on new ones. */
  lemma RefusedExactly(b: Batch, before: Tables, after: Tables, r: Result<Answer, Error>, records: seq<Record>)
    requires Committed(b, before, after, r, records)
    ensures r.Err? <==> exists id :: id in Found(b) && ResultOf(b, id).Err?
    ensures r.Err? ==> after == before && exists id :: id in Found(b) && ResultOf(b, id) == Err(r.error)
  {
    var res := ResultsOf(b);
    if r.Err? {
      var id :| id in res && res[id] == Err(r.error);
      assert id in Found(b) && ResultOf(b, id) == Err(r.error);
    }
    if id :| id in Found(b) && ResultOf(b, id).Err? {
      assert res[id].Err?;
    }
  }

  // A found job that stops its batch.
  ghost predicate Stops(b: Batch, id: JobId)
    requires id in Found(b)
  {
    || (forall i :: 0 <= i < |b.log| ==> b.log[i].job != id)
    || b.changes[id].Keys == {}
    || (exists latest ::
          && LatestLog(WmsTimes(b.log, id), latest) && !AllBefore(b.changes[id], latest)
          && b.rules.decide(id, latest, b.changes[id],
                            if b.jobs[id].status == "Stalled" then "Running" else b.jobs[id].status, b.force) == None)
  }

  /** A job stops its batch if it has no log, has no updates, or no decision is taken on updates newer than its log. */
  lemma StopsExactly(b: Batch, id: JobId)
    requires id in Found(b)
    ensures ResultOf(b, id).Err? <==> Stops(b, id)
  {
    var wms := WmsTimes(b.log, id);
    LoggedTimes(b.log, id);
    NothingToDecide(b.rules, id, b.jobs[id], b.changes[id], wms, Extra(b, id), b.force, b.now);
    if wms != map[] && b.changes[id].Keys != {} {
      MaxIsLatest(wms);
      forall latest | LatestLog(wms, latest) ensures latest == Max(wms) { LatestLogIs(wms, latest); }
      DecisionStored(b.rules, id, b.jobs[id], b.changes[id], wms, Extra(b, id), b.force, b.now, Max(wms));
    }
  }

  lemma MaxIsLatest(wms: map<string, int>)
    requires wms != map[]
    ensures LatestLog(wms, Max(wms))
  {
    var at := Max(wms);
    var s :| IsMax(wms, s) && wms[s] == at;
  }

  lemma {:induction false} LoggedTimes(log: seq<Record>, id: JobId)
    ensures WmsTimes(log, id) == map[] <==> forall i :: 0 <= i < |log| ==> log[i].job != id
  {
    if log != [] {
      var n := |log| - 1;
      LoggedTimes(log[..n], id);
      if log[n].job == id { assert log[n].status in WmsTimes(log, id); }
    }
  }
}
