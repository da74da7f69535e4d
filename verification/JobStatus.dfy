/** Status updates of jobs: what one update changes, and what a batch writes to the databases. */
module JobStatus {
  import opened Basics

  // An instant, and whether the datetime said in which time zone it is.
  datatype Stamp = Stamp(at: int, aware: bool)

  datatype Update = Update(status: Option<string>, minor: Option<string>, application: Option<string>, source: string)

  type Updates = map<Stamp, Update>

  // The columns of the Jobs table that are read or written here.
  datatype Job = Job(
    status: string, minor: string, application: string,
    lastUpdate: int, heartBeat: Option<int>, start: Option<int>, end: Option<int>,
    vo: string, verified: bool, counter: int, rescheduled: Option<int>, site: string, priority: int)

  // Attributes to set; a column that is absent keeps its value.
  datatype Patch = Patch(
    status: Option<string>, minor: Option<string>, application: Option<string>,
    lastUpdate: Option<int>, heartBeat: Option<int>, start: Option<int>, end: Option<int>,
    counter: Option<int>, rescheduled: Option<int>, site: Option<string>, priority: Option<int>)

  const NO_PATCH := Patch(None, None, None, None, None, None, None, None, None, None, None)

  function Or<T>(new_: Option<T>, old_: T): T { if new_.Some? then new_.value else old_ }

  function Apply(job: Job, p: Patch): Job {
    Job(Or(p.status, job.status), Or(p.minor, job.minor), Or(p.application, job.application),
        Or(p.lastUpdate, job.lastUpdate),
        if p.heartBeat.Some? then p.heartBeat else job.heartBeat,
        if p.start.Some? then p.start else job.start,
        if p.end.Some? then p.end else job.end,
        job.vo, job.verified, Or(p.counter, job.counter),
        if p.rescheduled.Some? then p.rescheduled else job.rescheduled,
        Or(p.site, job.site), Or(p.priority, job.priority))
  }

  datatype Record = Record(job: JobId, status: string, minor: string, application: string, date: Stamp, source: string)

  datatype Error = NaiveTimestamp | NoLog | NoUpdates | Refused

  // None and the empty string are both falsy.
  predicate Truthy(s: Option<string>) { s.Some? && s.value != "" }

  datatype Decision = Decision(status: Option<string>, minor: Option<string>, application: Option<string>)

  const UNDECIDED := Decision(None, None, None)

  // The two functions of DIRAC that decide on statuses and on start and end times.
  datatype Rules = Rules(
    decide: (JobId, int, Updates, string, bool) -> Option<Decision>,
    startAndEnd: (Option<int>, Option<int>, Updates, map<string, int>) -> (Option<int>, Option<int>))

  // ------------------------------------------------------------------
  // Times
  // ------------------------------------------------------------------

  predicate Aware(updates: Updates) { forall t :: t in updates ==> t.aware }

  predicate Chronological(times: seq<Stamp>) { forall i, j :: 0 <= i < j < |times| ==> times[i].at < times[j].at }

  ghost predicate IsLast(keys: set<Stamp>, t: Stamp) { t in keys && forall k :: k in keys ==> k.at <= t.at }

  lemma {:induction false} HasLast(keys: set<Stamp>)
    requires keys != {}
    ensures exists t :: IsLast(keys, t)
    decreases keys
  {
    var k :| k in keys;
    if keys == {k} {
      assert IsLast(keys, k);
    } else {
      HasLast(keys - {k});
      var t :| IsLast(keys - {k}, t);
      assert IsLast(keys, if k.at <= t.at then t else k);
    }
  }

  ghost function Last(keys: set<Stamp>): (at: int)
    requires keys != {}
    ensures exists t :: IsLast(keys, t) && t.at == at
  {
    HasLast(keys);
    var t :| IsLast(keys, t);
    t.at
  }

  lemma LastIs(keys: set<Stamp>, t: Stamp)
    requires IsLast(keys, t)
    ensures keys != {} && Last(keys) == t.at
  {
    var u :| IsLast(keys, u) && u.at == Last(keys);
  }

  // sorted(...) of datetimes that all carry a time zone.
  method Sort(keys: set<Stamp>) returns (times: seq<Stamp>)
    requires forall k :: k in keys ==> k.aware
    ensures Chronological(times) && forall k :: k in times <==> k in keys
  {
    times := [];
    var todo := keys;
    while todo != {}
      invariant todo <= keys && Chronological(times)
      invariant forall k :: k in times <==> k in keys - todo
      invariant forall k, i :: k in todo && 0 <= i < |times| ==> times[i].at < k.at
      decreases todo
    {
      var first := First(todo);
      times := times + [first];
      todo := todo - {first};
    }
  }

  method First(keys: set<Stamp>) returns (first: Stamp)
    requires keys != {} && forall k :: k in keys ==> k.aware
    ensures first in keys && forall k :: k in keys && k != first ==> first.at < k.at
  {
    first :| first in keys;
    var todo := keys - {first};
    while todo != {}
      invariant todo <= keys && first in keys - todo
      invariant forall k :: k in keys - todo && k != first ==> first.at < k.at
      decreases todo
    {
      var k :| k in todo;
      todo := todo - {k};
      if k.at < first.at { first := k; }
    }
  }

  // The last time of each status in a job's log.
  function WmsTimes(log: seq<Record>, id: JobId): map<string, int> {
    if log == [] then map[]
    else
      var earlier := WmsTimes(log[..|log| - 1], id);
      var r := log[|log| - 1];
      if r.job == id then earlier[r.status := r.date.at] else earlier
  }

  ghost predicate IsMax(times: map<string, int>, s: string) {
    s in times && forall r :: r in times ==> times[r] <= times[s]
  }

  lemma {:induction false} HasMax(times: map<string, int>, keys: set<string>)
    requires keys != {} && keys <= times.Keys
    ensures exists s :: s in keys && forall r :: r in keys ==> times[r] <= times[s]
    decreases keys
  {
    var k :| k in keys;
    if keys != {k} {
      HasMax(times, keys - {k});
      var t :| t in keys - {k} && forall r :: r in keys - {k} ==> times[r] <= times[t];
      var best := if times[k] <= times[t] then t else k;
      assert best in keys && forall r :: r in keys ==> times[r] <= times[best];
    }
  }

  ghost function Max(times: map<string, int>): (at: int)
    requires times != map[]
    ensures exists s :: IsMax(times, s) && times[s] == at
  {
    assert times.Keys != {};
    HasMax(times, times.Keys);
    var s :| s in times && forall r :: r in times ==> times[r] <= times[s];
    assert IsMax(times, s);
    times[s]
  }

  // ------------------------------------------------------------------
  // One job
  // ------------------------------------------------------------------

  // The updates that count as heartbeats.
  predicate IsBeat(source: string) { source == "Heartbeat" || "Job" <= source }

  function Beats(updates: Updates): set<Stamp> { set t | t in updates && IsBeat(updates[t].source) }

  ghost function LastBeat(updates: Updates): Option<int> {
    if Beats(updates) == {} then None else Some(Last(Beats(updates)))
  }

  // The attributes set for a job: extra ones only together with a new status.
  ghost function PatchOf(rules: Rules, job: Job, updates: Updates, wms: map<string, int>, extra: Patch, d: Decision,
                         now: int): Patch {
    var base := if Truthy(d.status) then extra.(status := d.status, lastUpdate := Some(now)) else NO_PATCH;
    var (start, end) := rules.startAndEnd(job.start, job.end, updates, wms);
    base.(
      minor := if Truthy(d.minor) then d.minor else base.minor,
      application := if Truthy(d.application) then d.application else base.application,
      heartBeat := if LastBeat(updates).Some? then LastBeat(updates) else base.heartBeat,
      start := if job.start.None? && start.Some? then start else base.start,
      end := if job.end.None? && end.Some? then end else base.end)
  }

  // `upserted` tells whether the status went to the job parameters too.
  datatype Outcome = Outcome(patch: Patch, status: Option<string>, upserted: bool)

  // A stalled job that is heard of again counts as running.
  function Current(job: Job): string { if job.status == "Stalled" then "Running" else job.status }

  ghost function OutcomeOf(rules: Rules, id: JobId, job: Job, updates: Updates, wms: map<string, int>,
                           extra: Patch, force: bool, now: int): Result<Outcome, Error> {
    if wms == map[] then Err(NoLog)
    else if updates.Keys == {} then Err(NoUpdates)
    else if Last(updates.Keys) < Max(wms) then
      Ok(Outcome(PatchOf(rules, job, updates, wms, extra, UNDECIDED, now), None, false))
    else
      var d := rules.decide(id, Max(wms), updates, Current(job), force);
      if d.None? then Err(Refused)
      else Ok(Outcome(PatchOf(rules, job, updates, wms, extra, d.value, now), d.value.status, true))
  }

  method LatestOf(wms: map<string, int>) returns (latest: int)
    requires wms != map[]
    ensures latest == Max(wms)
  {
    assert wms.Keys != {};
    var best :| best in wms;
    var todo := wms.Keys - {best};
    while todo != {}
      invariant todo <= wms.Keys && best in wms
      invariant forall s :: s in wms.Keys - todo ==> wms[s] <= wms[best]
      decreases todo
    {
      var s :| s in todo;
      todo := todo - {s};
      if wms[s] > wms[best] { best := s; }
    }
    assert IsMax(wms, best);
    latest := wms[best];
  }

  method UpdateOne(rules: Rules, id: JobId, job: Job, updates: Updates, wms: map<string, int>,
                   extra: Patch, force: bool, now: int)
    returns (r: Result<Outcome, Error>, times: seq<Stamp>)
    requires Aware(updates)
    ensures r == OutcomeOf(rules, id, job, updates, wms, extra, force, now)
    ensures Chronological(times) && forall t :: t in times <==> t in updates
  {
    times := Sort(updates.Keys);
    if wms == map[] { return Err(NoLog), times; }
    var latest := LatestOf(wms);
    var (start, end) := rules.startAndEnd(job.start, job.end, updates, wms);
    if |times| == 0 {
      assert updates.Keys == {};
      return Err(NoUpdates), times;
    }
    var last := times[|times| - 1];
    assert IsLast(updates.Keys, last);
    LastIs(updates.Keys, last);
    var patch := NO_PATCH;
    var d := UNDECIDED;
    var upserted := last.at >= latest;
    if upserted {
      var decided := rules.decide(id, latest, updates, Current(job), force);
      if decided.None? { return Err(Refused), times; }
      d := decided.value;
      if Truthy(d.status) { patch := extra.(status := d.status, lastUpdate := Some(now)); }
      if Truthy(d.minor) { patch := patch.(minor := d.minor); }
      if Truthy(d.application) { patch := patch.(application := d.application); }
    }
    var beat := BeatOf(updates, times);
    if beat.Some? { patch := patch.(heartBeat := beat); }
    if job.start.None? && start.Some? { patch := patch.(start := start); }
    if job.end.None? && end.Some? { patch := patch.(end := end); }
    return Ok(Outcome(patch, d.status, upserted)), times;
  }

  method BeatOf(updates: Updates, times: seq<Stamp>) returns (beat: Option<int>)
    requires Chronological(times) && forall t :: t in times <==> t in updates
    ensures beat == LastBeat(updates)
  {
    beat := None;
    ghost var at: Option<Stamp> := None;
    for i := 0 to |times|
      invariant beat == if at.Some? then Some(at.value.at) else None
      invariant at.None? ==> forall j :: 0 <= j < i ==> !IsBeat(updates[times[j]].source)
      invariant at.Some? ==> at.value in Beats(updates)
      invariant at.Some? ==> forall j :: 0 <= j < i && IsBeat(updates[times[j]].source) ==> times[j].at <= at.value.at
      invariant at.Some? ==> at.value in times[..i]
    {
      if IsBeat(updates[times[i]].source) {
        beat := Some(times[i].at);
        at := Some(times[i]);
      }
    }
    if at.Some? {
      assert IsLast(Beats(updates), at.value);
      LastIs(Beats(updates), at.value);
    } else {
      assert Beats(updates) == {};
    }
  }

  /** Updates that are all older than what the log knows never change the status, and never carry extra attributes. */
  lemma OldUpdatesKeepStatus(rules: Rules, id: JobId, job: Job, updates: Updates, wms: map<string, int>,
                             extra: Patch, force: bool, now: int)
    requires OutcomeOf(rules, id, job, updates, wms, extra, force, now).Ok?
    requires updates.Keys != {} && Last(updates.Keys) < Max(wms)
    ensures var o := OutcomeOf(rules, id, job, updates, wms, extra, force, now).value;
            var after := Apply(job, o.patch);
            && !o.upserted
            && after == job.(heartBeat := after.heartBeat, start := after.start, end := after.end)
  {
  }

  /** The status changes exactly when a new one was decided, and only then do extra attributes change. */
  lemma StatusNeedsDecision(rules: Rules, id: JobId, job: Job, updates: Updates, wms: map<string, int>,
                            extra: Patch, force: bool, now: int)
    requires OutcomeOf(rules, id, job, updates, wms, extra, force, now).Ok?
    ensures var o := OutcomeOf(rules, id, job, updates, wms, extra, force, now).value;
            var after := Apply(job, o.patch);
            && (Truthy(o.status) ==> after.status == o.status.value && after.counter == Or(extra.counter, job.counter)
                                     && after.site == Or(extra.site, job.site) && after.lastUpdate == now)
            && (!Truthy(o.status) ==> after.status == job.status && after.counter == job.counter
                                      && after.site == job.site && after.priority == job.priority
                                      && after.rescheduled == job.rescheduled && after.lastUpdate == job.lastUpdate)
  {
  }

  // The last time in the log of a job, whatever the status.
  ghost predicate LatestLog(wms: map<string, int>, at: int) {
    (exists s :: s in wms && wms[s] == at) && forall s :: s in wms ==> wms[s] <= at
  }

  predicate AllBefore(updates: Updates, at: int) { forall t :: t in updates ==> t.at < at }

  // A new text, unless it is absent or empty.
  function Unless(text: Option<string>, otherwise: string): string {
    match text
    case Some(t) => if t == "" then otherwise else t
    case None => otherwise
  }

  lemma LatestLogIs(wms: map<string, int>, at: int)
    requires LatestLog(wms, at)
    ensures wms != map[] && Max(wms) == at
  {
    var s :| IsMax(wms, s) && wms[s] == Max(wms);
  }

  lemma LastBefore(keys: set<Stamp>, at: int)
    requires keys != {}
    ensures Last(keys) < at <==> forall t :: t in keys ==> t.at < at
  {
    var last := Last(keys);
    var t :| IsLast(keys, t) && t.at == last;
  }

  /**
   What a decision becomes: each of the three statuses that is not empty goes to
   its own column, and with a status go the extra attributes and the time. A
   stalled job is shown to DIRAC as running; updates that are all older than the
   log are not shown at all.
   */
  lemma DecisionStored(rules: Rules, id: JobId, job: Job, updates: Updates, wms: map<string, int>,
                       extra: Patch, force: bool, now: int, latest: int)
    requires LatestLog(wms, latest) && updates.Keys != {}
    ensures var r := OutcomeOf(rules, id, job, updates, wms, extra, force, now);
            var shown := if job.status == "Stalled" then "Running" else job.status;
            var d := rules.decide(id, latest, updates, shown, force);
            && (r.Err? <==> !AllBefore(updates, latest) && d == None)
            && (r.Err? ==> r.error == Refused)
            && (r.Ok? && AllBefore(updates, latest) ==>
                 r.value.status == None && !r.value.upserted && StatusColumns(Apply(job, r.value.patch), job))
            && (r.Ok? && !AllBefore(updates, latest) ==>
                 && r.value.status == d.value.status && r.value.upserted
                 && Stored(job, Apply(job, r.value.patch), d.value, extra, now))
  {
    LatestLogIs(wms, latest);
    LastBefore(updates.Keys, latest);
  }

  /**
   Status, minor status and application status are each stored in the column of
   that name when they are decided and not empty, and stay as they were otherwise.
   */
  lemma DecidedColumns(rules: Rules, id: JobId, job: Job, updates: Updates, wms: map<string, int>,
                       extra: Patch, force: bool, now: int, latest: int, newest: Stamp, d: Decision)
    requires (exists s :: s in wms && wms[s] == latest) && forall s :: s in wms ==> wms[s] <= latest
    requires newest in updates && latest <= newest.at
    requires rules.decide(id, latest, updates, if job.status == "Stalled" then "Running" else job.status, force)
               == Some(d)
    requires extra.minor.None? && extra.application.None?
    ensures var r := OutcomeOf(rules, id, job, updates, wms, extra, force, now);
            && r.Ok? && r.value.status == d.status
            && var after := Apply(job, r.value.patch);
               && after.status == (if d.status.Some? && d.status.value != "" then d.status.value else job.status)
               && after.minor == (if d.minor.Some? && d.minor.value != "" then d.minor.value else job.minor)
               && after.application
                  == (if d.application.Some? && d.application.value != "" then d.application.value else job.application)
               && after.lastUpdate == (if d.status.Some? && d.status.value != "" then now else job.lastUpdate)
  {
    assert updates.Keys != {} && !AllBefore(updates, latest);
    DecisionStored(rules, id, job, updates, wms, extra, force, now, latest);
  }

  // The columns that a decision may change.
  predicate StatusColumns(a: Job, b: Job) {
    && a.status == b.status && a.minor == b.minor && a.application == b.application && a.lastUpdate == b.lastUpdate
    && a.counter == b.counter && a.rescheduled == b.rescheduled && a.site == b.site && a.priority == b.priority
  }

  predicate Stored(job: Job, after: Job, d: Decision, extra: Patch, now: int) {
    var with := Unless(d.status, "") != "";
    var base := if with then Apply(job, extra).(status := d.status.value, lastUpdate := now) else job;
    StatusColumns(after, base.(minor := Unless(d.minor, base.minor),
                               application := Unless(d.application, base.application)))
  }

  /** A job without a log, or else without updates, has no outcome. */
  lemma NothingToDecide(rules: Rules, id: JobId, job: Job, updates: Updates, wms: map<string, int>,
                        extra: Patch, force: bool, now: int)
    ensures OutcomeOf(rules, id, job, updates, wms, extra, force, now) == Err(NoLog) <==> wms == map[]
    ensures OutcomeOf(rules, id, job, updates, wms, extra, force, now) == Err(NoUpdates)
            <==> wms != map[] && updates.Keys == {}
  {
  }

  // Row i is the last one of the job with this status.
  predicate LastRow(log: seq<Record>, id: JobId, status: string, i: int) {
    && 0 <= i < |log| && log[i].job == id && log[i].status == status
    && forall j :: i < j < |log| ==> !(log[j].job == id && log[j].status == status)
  }

  /** The log of a job as the updates see it: for each status the time of its last row. */
  lemma {:induction false} WmsTimesAre(log: seq<Record>, id: JobId, status: string)
    ensures status in WmsTimes(log, id) <==> exists i :: LastRow(log, id, status, i)
    ensures forall i :: LastRow(log, id, status, i) ==> WmsTimes(log, id)[status] == log[i].date.at
  {
    if log != [] {
      var n := |log| - 1;
      var rest := log[..n];
      WmsTimesAre(rest, id, status);
      if log[n].job == id && log[n].status == status {
        assert LastRow(log, id, status, n);
      } else {
        assert forall i :: LastRow(log, id, status, i) <==> LastRow(rest, id, status, i);
      }
    }
  }

  /** The heartbeat is the last update whose source is "Heartbeat" or starts with "Job". */
  lemma HeartBeatIs(updates: Updates, t: Stamp)
    requires t in updates && (updates[t].source == "Heartbeat" || "Job" <= updates[t].source)
    ensures LastBeat(updates).Some? && t.at <= LastBeat(updates).value
    ensures exists u :: u in updates && (updates[u].source == "Heartbeat" || "Job" <= updates[u].source)
              && u.at == LastBeat(updates).value
  {
    assert t in Beats(updates);
    var last := Last(Beats(updates));
    var u :| IsLast(Beats(updates), u) && u.at == last;
  }

  lemma NoHeartBeat(updates: Updates)
    requires forall t :: t in updates ==> updates[t].source != "Heartbeat" && !("Job" <= updates[t].source)
    ensures LastBeat(updates).None?
  {
    assert Beats(updates) == {};
  }

  // A patch holds a status and the extra counter together or not at all.
  lemma PatchFacts(rules: Rules, id: JobId, job: Job, updates: Updates, wms: map<string, int>,
                   extra: Patch, force: bool, now: int)
    requires OutcomeOf(rules, id, job, updates, wms, extra, force, now).Ok?
    ensures var o := OutcomeOf(rules, id, job, updates, wms, extra, force, now).value;
            && o.patch.status == (if Truthy(o.status) then o.status else None)
            && o.patch.counter == (if Truthy(o.status) then extra.counter else None)
  {
  }

  /**
   Start and end are set once, to what DIRAC says, and never change after that
   unless an extra attribute does it; the heartbeat is the last one known.
   */
  lemma TimesSetOnce(rules: Rules, id: JobId, job: Job, updates: Updates, wms: map<string, int>,
                     extra: Patch, force: bool, now: int)
    requires OutcomeOf(rules, id, job, updates, wms, extra, force, now).Ok?
    ensures var o := OutcomeOf(rules, id, job, updates, wms, extra, force, now).value;
            var after := Apply(job, o.patch);
            var (start, end) := rules.startAndEnd(job.start, job.end, updates, wms);
            var given := if o.status.Some? && o.status.value != "" then extra else NO_PATCH;
            && after.start == First3(if job.start.None? then start else None, given.start, job.start)
            && after.end == First3(if job.end.None? then end else None, given.end, job.end)
            && after.heartBeat == First3(LastBeat(updates), given.heartBeat, job.heartBeat)
  {
  }

  // The first of three that is there.
  function First3<T>(a: Option<T>, b: Option<T>, c: Option<T>): Option<T> {
    if a.Some? then a else if b.Some? then b else c
  }
}
