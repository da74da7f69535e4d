/** Who may act on which jobs: the WMS access policy and its count-based ownership check. */
module AccessPolicy {
  import opened Basics

  datatype Action = Create | Read | Manage | Query | Pilot

  datatype Owner = Owner(name: string, vo: string)

  // A row of `SELECT Owner, VO, COUNT(JobID) ... GROUP BY Owner, VO`.
  datatype Row = Row(owner: Owner, count: int)

  // JobID is the primary key of the table.
  type Jobs = map<JobId, Owner>

  ghost function OwnedBy(jobs: Jobs, ids: set<JobId>, owner: Owner): set<JobId> {
    set id | id in ids && id in jobs && jobs[id] == owner
  }

  // What the database may answer: one row for each owner of a requested job, in any order.
  ghost predicate IsSummary(rows: seq<Row>, jobs: Jobs, ids: set<JobId>) {
    && (forall i, j :: 0 <= i < j < |rows| ==> rows[i].owner != rows[j].owner)
    && (forall i :: 0 <= i < |rows| ==> rows[i].count == |OwnedBy(jobs, ids, rows[i].owner)| > 0)
    && (forall id :: id in ids && id in jobs ==> exists i :: 0 <= i < |rows| && rows[i].owner == jobs[id])
  }

  ghost predicate AllOwned(jobs: Jobs, ids: set<JobId>, owner: Owner) {
    forall id :: id in ids ==> id in jobs && jobs[id] == owner
  }

  lemma {:induction false} FullSubset(a: set<JobId>, b: set<JobId>)
    requires a <= b && |a| == |b|
    ensures a == b
    decreases |b|
  {
    if x :| x in b {
      if x !in a {
        Smaller(a, b - {x});
      } else {
        FullSubset(a - {x}, b - {x});
        assert b == b - {x} + {x};
        assert a == a - {x} + {x};
      }
    } else {
      assert b == {};
    }
  }

  lemma {:induction false} Smaller(a: set<JobId>, b: set<JobId>)
    requires a <= b
    ensures |a| <= |b|
    decreases a
  {
    if x :| x in a { Smaller(a - {x}, b - {x}); }
  }

  /** One row with the right owner and as many jobs as were asked for: exactly when all are there and are the user's. */
  lemma CountMeansOwned(rows: seq<Row>, jobs: Jobs, ids: set<JobId>, owner: Owner)
    requires IsSummary(rows, jobs, ids) && ids != {}
    ensures rows == [Row(owner, |ids|)] <==> AllOwned(jobs, ids, owner)
  {
    var own := OwnedBy(jobs, ids, owner);
    if rows == [Row(owner, |ids|)] {
      assert rows[0].owner == owner;
      FullSubset(own, ids);
    }
    if AllOwned(jobs, ids, owner) {
      assert own == ids;
      forall i | 0 <= i < |rows| ensures rows[i].owner == owner {
        NotEmpty(OwnedBy(jobs, ids, rows[i].owner));
        var id :| id in OwnedBy(jobs, ids, rows[i].owner);
      }
      NotEmpty(ids);
      var id :| id in ids;
      var i :| 0 <= i < |rows| && rows[i].owner == jobs[id];
      if |rows| > 1 { TwoOwners(rows, owner); }
    }
  }

  lemma TwoOwners(rows: seq<Row>, owner: Owner)
    requires |rows| > 1 && forall i, j :: 0 <= i < j < |rows| ==> rows[i].owner != rows[j].owner
    ensures exists i :: 0 <= i < |rows| && rows[i].owner != owner
  {
    assert rows[0].owner != rows[1].owner;
  }

  lemma NotEmpty(s: set<JobId>)
    requires s != {} || |s| > 0
    ensures exists x :: x in s
  {
    assert (forall x :: x !in s) ==> s == {};
  }

  /** Without ids there is no row, so the comparison fails. */
  lemma NoIdsNoRow(rows: seq<Row>, jobs: Jobs, owner: Owner)
    requires IsSummary(rows, jobs, {})
    ensures rows != [Row(owner, 0)]
  {
    assert |rows| > 0 ==> rows[0].count > 0;
  }

  // ------------------------------------------------------------------
  // WMSAccessPolicy.policy
  // ------------------------------------------------------------------

  datatype Decision = Allowed | Forbidden | NotImplemented | AssertionFailed

  datatype User = User(owner: Owner, properties: set<string>)

  predicate Admin(u: User) { "JobAdministrator" in u.properties }
  predicate Normal(u: User) { "NormalUser" in u.properties }
  predicate PilotUser(u: User) { "GenericPilot" in u.properties }

  function Policy(action: Option<Action>, hasDb: bool, jobIds: Option<seq<JobId>>, user: User,
                  summary: seq<Row>): Decision {
    if action.None? || !hasDb then AssertionFailed
    else
      var act := if action.value == Pilot then Manage else action.value;
      if act == Create then
        if jobIds.Some? then NotImplemented
        else if !Normal(user) then Forbidden
        else Allowed
      else if PilotUser(user) && act == Manage then Allowed
      else if Admin(user) then Allowed
      else if !Normal(user) then Forbidden
      else if act == Query then
        if jobIds.Some? then NotImplemented else Allowed
      else if jobIds.None? then NotImplemented
      else if summary == [Row(user.owner, |set id | id in jobIds.value|)] then Allowed
      else Forbidden
  }

  // The rules, for a call made as the routers make it.
  ghost predicate Entitled(action: Action, ids: set<JobId>, user: User, jobs: Jobs) {
    var normal, admin := "NormalUser" in user.properties, "JobAdministrator" in user.properties;
    match action
    case Create => normal
    case Query => normal || admin
    case Read => admin || (normal && ids != {} && AllOwned(jobs, ids, user.owner))
    case _ =>
      || "GenericPilot" in user.properties || admin
      || (normal && ids != {} && AllOwned(jobs, ids, user.owner))
  }

  /** On calls with ids exactly where they are needed, the policy allows exactly what the user is entitled to. */
  lemma PolicyMeans(action: Action, jobIds: Option<seq<JobId>>, user: User, jobs: Jobs, summary: seq<Row>)
    requires jobIds.None? <==> action in {Create, Query}
    requires jobIds.Some? ==> IsSummary(summary, jobs, set id | id in jobIds.value)
    ensures Policy(Some(action), true, jobIds, user, summary)
            == if Entitled(action, (if jobIds.Some? then set id | id in jobIds.value else {}), user, jobs)
                then Allowed else Forbidden
    ensures var normal, admin := "NormalUser" in user.properties, "JobAdministrator" in user.properties;
            var own := jobIds.Some? && jobIds.value != []
                       && forall id :: id in jobIds.value ==> id in jobs && jobs[id] == user.owner;
            Policy(Some(action), true, jobIds, user, summary) == Allowed <==>
              match action
              case Create => normal
              case Query => normal || admin
              case Read => admin || (normal && own)
              case _ => "GenericPilot" in user.properties || admin || (normal && own)
  {
    if jobIds.Some? {
      var ids := set id | id in jobIds.value;
      if jobIds.value != [] { assert jobIds.value[0] in ids; }
      if ids == {} {
        NoIdsNoRow(summary, jobs, user.owner);
      } else {
        CountMeansOwned(summary, jobs, ids, user.owner);
      }
    }
  }

  /**
   The other calls never get past the checks a plain user meets; only pilots and
   administrators escape them. A call without action or database is a bug; one
   with ids where there should be none, or without where there should be some, is
   refused to a plain user as not implemented.
   */
  lemma MisusesRefused(action: Option<Action>, hasDb: bool, jobIds: Option<seq<JobId>>, user: User, summary: seq<Row>)
    requires action.None? || !hasDb || (jobIds.None? <==> action.value !in {Create, Query})
    ensures var normal, admin := "NormalUser" in user.properties, "JobAdministrator" in user.properties;
            var pilot := "GenericPilot" in user.properties;
            var d := Policy(action, hasDb, jobIds, user, summary);
            && (d == AssertionFailed <==> action.None? || !hasDb)
            && (d == Allowed <==>
                 && action.Some? && hasDb
                 && ((action.value in {Manage, Pilot} && pilot) || (action.value != Create && admin)))
            && (d == NotImplemented <==>
                 && action.Some? && hasDb
                 && (action.value == Create || (normal && !admin && !(action.value in {Manage, Pilot} && pilot))))
  {
  }

  /** Who may act on a list of jobs may act on any part of it, in any order and however often repeated. */
  lemma PartsAllowed(action: Action, ids: seq<JobId>, part: seq<JobId>, user: User, jobs: Jobs, summary: seq<Row>,
                     partSummary: seq<Row>)
    requires action in {Read, Manage, Pilot} && part != [] && forall i :: 0 <= i < |part| ==> part[i] in ids
    requires IsSummary(summary, jobs, set id | id in ids) && IsSummary(partSummary, jobs, set id | id in part)
    requires Policy(Some(action), true, Some(ids), user, summary) == Allowed
    ensures Policy(Some(action), true, Some(part), user, partSummary) == Allowed
  {
    PolicyMeans(action, Some(ids), user, jobs, summary);
    PolicyMeans(action, Some(part), user, jobs, partSummary);
    var whole, some := (set id | id in ids), (set id | id in part);
    assert part[0] in part && part[0] in some;
    assert some <= whole;
  }
}
