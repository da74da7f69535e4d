/**
 Reschedules that are accepted, against counters that are stored: how the two
 differ over a run, and runs in which a job is accepted any number of times.
 */
module RescheduleAcceptance {
  import opened Basics
  import opened JobStatus
  import opened JobBatch
  import opened Reschedule
  import opened RescheduleRuns

  // ------------------------------------------------------------------
  // Counting
  // ------------------------------------------------------------------

  // The answer of the step lists the job among its successes.
  predicate AcceptedIn(s: Step, id: JobId) { s.r.Ok? && id in s.r.value.success }

  ghost predicate UndecidedIn(s: Step, t: Tables, id: JobId) {
    AcceptedIn(s, id) && id in t.jobs && id in s.call.ids && !Decided(s.call, t, id)
  }

  predicate SpoiledIn(s: Step, t: Tables, id: JobId) {
    s.r.Ok? && id in s.call.ids && id in t.jobs && FateOf(s.call, id, t.jobs[id]).Spoiled?
  }

  function One(b: bool): nat { if b then 1 else 0 }

  function AcceptedTimes(steps: seq<Step>, id: JobId): nat {
    if steps == [] then 0 else One(AcceptedIn(steps[0], id)) + AcceptedTimes(steps[1..], id)
  }

  // Accepted, but given no new status, so that no counter was stored.
  ghost function UndecidedTimes(t: Tables, steps: seq<Step>, id: JobId): nat
    decreases |steps|
  {
    if steps == [] then 0 else One(UndecidedIn(steps[0], t, id)) + UndecidedTimes(steps[0].after, steps[1..], id)
  }

  // Refused by the submission check, with a counter stored all the same.
  function SpoiledTimes(t: Tables, steps: seq<Step>, id: JobId): nat
    decreases |steps|
  {
    if steps == [] then 0 else One(SpoiledIn(steps[0], t, id)) + SpoiledTimes(steps[0].after, steps[1..], id)
  }

  lemma StepBalance(s: Step, t: Tables, id: JobId)
    requires Rescheduled(s.call, t, s.after, s.r, s.records) && id in t.jobs
    ensures One(AcceptedIn(s, id)) + One(SpoiledIn(s, t, id))
         == One(s.r.Ok? && Writes(s.call, t, id)) + One(UndecidedIn(s, t, id))
  {
    if s.r.Ok? { AnswersDisjoint(s.call, t, s.after, s.r, s.records); }
  }

  /** Accepted reschedules and stored counters differ by the undecided and the spoiled ones, exactly. */
  lemma {:induction false} AcceptedBalance(t: Tables, steps: seq<Step>, id: JobId, max: int)
    requires Run(t, steps) && id in t.jobs && Fixed(steps, t.jobs[id].vo, max)
    ensures AcceptedTimes(steps, id) + SpoiledTimes(t, steps, id)
              == Written(t, steps, id) + UndecidedTimes(t, steps, id)
    decreases |steps|
  {
    if steps != [] {
      StepBalance(steps[0], t, id);
      StepRule(steps[0], t, id, max);
      assert Fixed(steps[1..], t.jobs[id].vo, max);
      AcceptedBalance(steps[0].after, steps[1..], id, max);
    }
  }

  ghost predicate NoReset(steps: seq<Step>, id: JobId) {
    forall i :: 0 <= i < |steps| && id in steps[i].call.ids ==> !steps[i].call.reset
  }

  /**
   Between resets a job within its maximum is accepted at most as often as the
   maximum leaves room for, exactly if no more acceptances go undecided than
   counters are left or were spoiled; in particular if each is decided.
   */
  lemma AcceptedWithinMaximum(t: Tables, steps: seq<Step>, id: JobId, max: int)
    requires Run(t, steps) && id in t.jobs && Fixed(steps, t.jobs[id].vo, max) && NoReset(steps, id)
    requires t.jobs[id].counter <= max
    ensures id in Final(t, steps).jobs && Final(t, steps).jobs[id].counter <= max
    ensures AcceptedTimes(steps, id) <= max - t.jobs[id].counter <==>
            UndecidedTimes(t, steps, id) <= max - Final(t, steps).jobs[id].counter + SpoiledTimes(t, steps, id)
    ensures UndecidedTimes(t, steps, id) == 0 ==> AcceptedTimes(steps, id) <= max - t.jobs[id].counter
  {
    AcceptedBalance(t, steps, id, max);
    AtMostMaxReschedulings(t, steps, id, max);
    CounterNeverExceeds(t, steps, id, max);
  }

  /** So it is after a reset, with the whole maximum as room. */
  lemma AcceptedAfterReset(t: Tables, reset: Step, steps: seq<Step>, id: JobId, max: int)
    requires Run(t, [reset] + steps) && id in t.jobs && Fixed([reset] + steps, t.jobs[id].vo, max)
    requires reset.call.reset && reset.r.Ok? && Writes(reset.call, t, id) && NoReset(steps, id)
    ensures UndecidedTimes(reset.after, steps, id) == 0 ==> AcceptedTimes(steps, id) <= max
    ensures id in Final(reset.after, steps).jobs
    ensures AcceptedTimes(steps, id) <= max <==>
            UndecidedTimes(reset.after, steps, id)
            <= max - Final(reset.after, steps).jobs[id].counter + SpoiledTimes(reset.after, steps, id)
  {
    var all := [reset] + steps;
    assert all[0] == reset && all[1..] == steps;
    StepRule(reset, t, id, max);
    forall i | 0 <= i < |steps| && t.jobs[id].vo in steps[i].call.maxima
      ensures steps[i].call.maxima[t.jobs[id].vo] == max
    {
      assert steps[i] == all[i + 1];
    }
    AcceptedWithinMaximum(reset.after, steps, id, max);
  }

  // ------------------------------------------------------------------
  // A job that is accepted for ever
  // ------------------------------------------------------------------

  // DIRAC decides on no new status, and on no times.
  const SILENT := Rules(
    (id: JobId, at: int, updates: Updates, status: string, force: bool) => Some(UNDECIDED),
    (start: Option<int>, end: Option<int>, updates: Updates, wms: map<string, int>) => (None, None))

  function Asking(id: JobId, vo: string, max: int): Call {
    Call(SILENT, map[vo := max], {id}, {id}, (id: JobId, counter: int) => Prepared("ANY", 0), false, 0)
  }

  lemma SilentOutcome(id: JobId, job: Job, wms: map<string, int>, extra: Patch)
    requires wms != map[]
    ensures var r := OutcomeOf(SILENT, id, job, map[Stamp(0, true) := RECEIVING], wms, extra, false, 0);
            r.Ok? && r.value.patch == NO_PATCH && r.value.status == None
  {
    var updates := map[Stamp(0, true) := RECEIVING];
    assert updates.Keys == {Stamp(0, true)};
    assert !IsBeat("Unknown") by { assert "Unknown"[0] == 'U' && "Job"[0] == 'J'; }
    assert Beats(updates) == {};
  }

  // The one job of the call is accepted, and decided on with no result.
  lemma AskingFates(t: Tables, id: JobId, max: int)
    requires id in t.jobs && t.jobs[id].verified && t.jobs[id].counter < max
    ensures var c := Asking(id, t.jobs[id].vo, max);
            && FatesOf(c, t.jobs) == map[id := Accepted("ANY", 0)]
            && ChangesOf(c, Exceeding(FatesOf(c, t.jobs)), Accepting(FatesOf(c, t.jobs)))
               == map[id := map[Stamp(0, true) := RECEIVING]]
            && Spoil(t.jobs, FatesOf(c, t.jobs)) == t.jobs
  {
    var c := Asking(id, t.jobs[id].vo, max);
    var fates := FatesOf(c, t.jobs);
    assert fates.Keys == {id} && fates[id] == Accepted("ANY", 0);
    assert Exceeding(fates) == {} && Accepting(fates) == {id};
  }

  function RecordsFor(id: JobId): seq<Record> { [RecordOf(id, Stamp(0, true), RECEIVING)] }

  lemma AskingResults(t: Tables, id: JobId, max: int)
    requires id in t.jobs && t.jobs[id].verified && t.jobs[id].counter < max && WmsTimes(t.log, id) != map[]
    ensures var c := Asking(id, t.jobs[id].vo, max);
            var b := BatchOf(c, t, FatesOf(c, t.jobs));
            var res := ResultsOf(b);
            && Found(b) == {id} == res.Keys && res[id].Ok? && res[id].value.patch == NO_PATCH
                 && res[id].value.status == None
            && b.changes == map[id := map[Stamp(0, true) := RECEIVING]] && Complete(RecordsFor(id), b.changes, {id})
  {
    var c := Asking(id, t.jobs[id].vo, max);
    AskingFates(t, id, max);
    var b := BatchOf(c, t, FatesOf(c, t.jobs));
    SilentOutcome(id, t.jobs[id], WmsTimes(t.log, id), Extra(b, id));
    assert Found(b) == {id};
  }

  // Nothing is written but one record, and the job counts as rescheduled.
  lemma AskingAccepts(t: Tables, id: JobId, max: int) returns (s: Step)
    requires id in t.jobs && t.jobs[id].verified && t.jobs[id].counter < max && WmsTimes(t.log, id) != map[]
    ensures Rescheduled(s.call, t, s.after, s.r, s.records) && !s.call.reset
              && s.call.maxima == map[t.jobs[id].vo := max]
    ensures AcceptedIn(s, id) && s.after.jobs == t.jobs && WmsTimes(s.after.log, id) != map[]
  {
    var c := Asking(id, t.jobs[id].vo, max);
    AskingFates(t, id, max);
    AskingResults(t, id, max);
    var fates := FatesOf(c, t.jobs);
    var res := ResultsOf(BatchOf(c, t, fates));
    var after := After(t, res, RecordsFor(id));
    SilentTables(t, res, id);
    var answer := RescheduleAnswer(map[id := (ExtraOf(c, t.jobs[id], fates[id]), NO_PATCH)], map[]);
    LoneFacts(c, t.jobs, fates, id, res, answer.success);
    LoneStatuses(c, t, fates, id, BatchOf(c, t, fates), res, answer, after, RecordsFor(id));
    s := Step(c, after, Ok(answer), RecordsFor(id));
  }

  lemma LoneFacts(c: Call, jobs: map<JobId, Job>, fates: Fates, id: JobId, res: Results,
                  success: map<JobId, (Patch, Patch)>)
    requires id in jobs && fates == map[id := Accepted("ANY", 0)]
    requires res.Keys == {id} && res[id].Ok? && res[id].value.patch == NO_PATCH
    requires success == map[id := (ExtraOf(c, jobs[id], fates[id]), NO_PATCH)]
    ensures Workable(fates) && AnySurvives(fates) && FailedOf(c, fates) == map[]
    ensures AllOk(res) && Successes(c, jobs, fates, res, success)
  {
    LoneNotFailed(c, fates, id);
    LoneResult(res, id);
    LoneSuccess(c, jobs, fates, id, res, success);
  }

  lemma LoneEnds(c: Call, t: Tables, after: Tables, fates: Fates, res: Results, answer: RescheduleAnswer,
                 records: seq<Record>)
    requires fates.Keys <= t.jobs.Keys && Workable(fates)
    requires res == ResultsOf(BatchOf(c, t, fates)) && AllOk(res)
    requires answer.failed == FailedOf(c, fates) && Statuses(c, t, after, answer, fates, records)
    ensures RescheduledFor(c, t, after, fates, Ok(answer), records)
  {
  }

  lemma LoneSuccess(c: Call, jobs: map<JobId, Job>, fates: Fates, id: JobId, res: Results,
                    success: map<JobId, (Patch, Patch)>)
    requires id in jobs && fates == map[id := Accepted("ANY", 0)] && AllOk(res)
    requires res.Keys == {id} && res[id].value.patch == NO_PATCH
    requires success == map[id := (ExtraOf(c, jobs[id], fates[id]), NO_PATCH)]
    ensures Successes(c, jobs, fates, res, success)
  {
  }

  lemma LoneStatuses(c: Call, t: Tables, fates: Fates, id: JobId, b: Batch, res: Results, answer: RescheduleAnswer,
                     after: Tables, records: seq<Record>)
    requires fates.Keys <= t.jobs.Keys && Spoil(t.jobs, fates) == t.jobs && Workable(fates) && AnySurvives(fates)
    requires b == BatchOf(c, t, fates) && res == ResultsOf(b) && AllOk(res)
    requires after == After(t, res, records) && Found(b) == {id} && Complete(records, b.changes, {id})
    requires answer.failed == FailedOf(c, fates) && Successes(c, t.jobs, fates, res, answer.success)
    ensures RescheduledFor(c, t, after, fates, Ok(answer), records)
  {
    assert t.(jobs := Spoil(t.jobs, fates)) == t;
    LoneEnds(c, t, after, fates, res, answer, records);
  }

  lemma LoneResult(res: Results, id: JobId)
    requires res.Keys == {id} && res[id].Ok?
    ensures AllOk(res)
  {
  }

  lemma LoneNotFailed(c: Call, fates: Fates, id: JobId)
    requires fates == map[id := Accepted("ANY", 0)]
    ensures FailedOf(c, fates) == map[] && Workable(fates) && AnySurvives(fates)
  {
    assert Survives(fates[id]);
    assert id in fates.Keys && ReasonOf(fates[id]) == None;
  }

  lemma SilentTables(t: Tables, res: Results, id: JobId)
    requires id in t.jobs && res.Keys == {id} && res[id].Ok? && res[id].value.patch == NO_PATCH
    ensures AllOk(res) && After(t, res, RecordsFor(id)).jobs == t.jobs
    ensures WmsTimes(After(t, res, RecordsFor(id)).log, id) != map[]
  {
    ApplyNothing(t.jobs[id]);
    var log := t.log + RecordsFor(id);
    assert log[..|log| - 1] == t.log && log[|log| - 1].job == id;
    assert RecordsFor(id)[0].status in WmsTimes(log, id);
  }

  /**
   A job that is not at its maximum is accepted n times, for any n, without a
   reset, while DIRAC grants it no new status; its counter stays as it was.
   */
  lemma {:induction false} AcceptedForEver(t: Tables, id: JobId, max: int, n: nat) returns (steps: seq<Step>)
    requires id in t.jobs && t.jobs[id].verified && t.jobs[id].counter < max && WmsTimes(t.log, id) != map[]
    ensures |steps| == n && Run(t, steps) && NoReset(steps, id) && Fixed(steps, t.jobs[id].vo, max)
    ensures AcceptedTimes(steps, id) == n && Final(t, steps).jobs == t.jobs
    decreases n
  {
    steps := [];
    if n > 0 {
      var s := AskingAccepts(t, id, max);
      var rest := AcceptedForEver(s.after, id, max, n - 1);
      steps := OnceMore(t, s, rest, id, max);
    }
  }

  lemma OnceMore(t: Tables, s: Step, rest: seq<Step>, id: JobId, max: int) returns (steps: seq<Step>)
    requires id in t.jobs && Rescheduled(s.call, t, s.after, s.r, s.records) && AcceptedIn(s, id)
    requires !s.call.reset && s.call.maxima == map[t.jobs[id].vo := max] && s.after.jobs == t.jobs
    requires Run(s.after, rest) && NoReset(rest, id) && Fixed(rest, t.jobs[id].vo, max)
    requires AcceptedTimes(rest, id) == |rest| && Final(s.after, rest).jobs == t.jobs
    ensures |steps| == |rest| + 1 && Run(t, steps) && NoReset(steps, id) && Fixed(steps, t.jobs[id].vo, max)
    ensures AcceptedTimes(steps, id) == |steps| && Final(t, steps).jobs == t.jobs
  {
    steps := [s] + rest;
    RunCons(t, s, rest, id);
    NoResetCons(s, rest, id, t.jobs[id].vo, max);
  }

  lemma NoResetCons(s: Step, rest: seq<Step>, id: JobId, vo: string, max: int)
    requires !s.call.reset && s.call.maxima == map[vo := max] && NoReset(rest, id) && Fixed(rest, vo, max)
    ensures NoReset([s] + rest, id) && Fixed([s] + rest, vo, max)
  {
    assert forall i :: 0 < i < |[s] + rest| ==> ([s] + rest)[i] == rest[i - 1];
  }

  lemma RunCons(t: Tables, s: Step, rest: seq<Step>, id: JobId)
    requires Rescheduled(s.call, t, s.after, s.r, s.records) && Run(s.after, rest)
    ensures Run(t, [s] + rest) && Final(t, [s] + rest) == Final(s.after, rest)
    ensures AcceptedTimes([s] + rest, id) == One(AcceptedIn(s, id)) + AcceptedTimes(rest, id)
  {
    assert ([s] + rest)[1..] == rest;
  }

  const JOB := JobId(1)

  // A verified job of the VO "lhcb" with this counter, and its first log record.
  function Tables1(counter: int): Tables {
    Tables(map[JOB := Job("Failed", "", "", 0, None, None, None, "lhcb", true, counter, None, "ANY", 0)],
           [Record(JOB, "Received", "", "", Stamp(0, true), "Unknown")], multiset{}, {})
  }

  /** Four acceptances without a reset where three reschedulings are allowed. */
  lemma MoreThanMaximumAccepted() returns (steps: seq<Step>)
    ensures Run(Tables1(0), steps) && NoReset(steps, JOB) && Fixed(steps, "lhcb", 3)
    ensures AcceptedTimes(steps, JOB) == 4 && Final(Tables1(0), steps).jobs == Tables1(0).jobs
  {
    var t := Tables1(0);
    assert t.log[..0] == [] && t.log[0].status in WmsTimes(t.log, JOB);
    steps := AcceptedForEver(t, JOB, 3, 4);
  }

  // ------------------------------------------------------------------
  // A counter without a status
  // ------------------------------------------------------------------

  function Failing(id: JobId, vo: string, max: int): Call {
    Call(SILENT, map[vo := max], {id}, {id}, (id: JobId, counter: int) => SubmissionError(NO_PATCH), false, 0)
  }

  /**
   A job whose submission check fails and sets nothing: the call answers that
   the check failed, and stores the next counter beside the old status.
   */
  lemma CounterWithoutStatus(t: Tables, id: JobId, max: int) returns (s: Step)
    requires id in t.jobs && t.jobs[id].verified && t.jobs[id].counter < max
    ensures s.call == Failing(id, t.jobs[id].vo, max) && Rescheduled(s.call, t, s.after, s.r, s.records)
    ensures s.r == Ok(RescheduleAnswer(map[], map[id := CheckFailed]))
    ensures s.after == t.(jobs := t.jobs[id := t.jobs[id].(counter := t.jobs[id].counter + 1)])
  {
    var c, job := Failing(id, t.jobs[id].vo, max), t.jobs[id];
    var fates := FatesOf(c, t.jobs);
    var f := FateOf(c, id, job);
    assert f == Spoiled(NO_PATCH.(counter := Some(job.counter + 1)));
    assert fates.Keys == {id} && fates[id] == f && Survives(f);
    assert Spoil(t.jobs, fates) == t.jobs[id := job.(counter := job.counter + 1)];
    var b := BatchOf(c, t, fates);
    assert Exceeding(fates) == {} && Accepting(fates) == {} && b.changes == map[];
    NothingFound(t.(jobs := b.jobs), ResultsOf(b));
    assert FailedOf(c, fates) == map[id := CheckFailed];
    s := Step(c, t.(jobs := b.jobs), Ok(RescheduleAnswer(map[], map[id := CheckFailed])), []);
    NoRecords(b.changes, Found(b));
  }

  /** The same at an input: counter 1 and still "Failed". */
  lemma CounterAlone() returns (s: Step)
    ensures Rescheduled(s.call, Tables1(0), s.after, s.r, s.records) && s.r.Ok?
    ensures s.after.jobs[JOB].counter == 1 && s.after.jobs[JOB].status == "Failed" && s.after.log == Tables1(0).log
  {
    s := CounterWithoutStatus(Tables1(0), JOB, 3);
  }
}
