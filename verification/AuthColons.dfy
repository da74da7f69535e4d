/**
 A VO with a colon in its name: refreshing a token changes the subject, so the
 revocation after a detected reuse misses tokens, and the subject is refreshed
 again without a login. This is the only way the promise can break.
 */
module AuthColons {
  import opened Basics
  import opened Scope
  import opened AuthTables
  import opened AuthService
  import opened AuthInvariants
  import opened AuthRotation
  import opened AuthRuns

  const SETTINGS := Settings("client", {}, 10.0, 10.0, 10.0)

  // One VO with one group, in which all these users are.
  function Members(vo: string, users: map<string, string>): Config {
    map[vo := Vo(users, map["group" := Group(users.Keys, {})], "group")]
  }

  function At(config: Config, jti: Jti): Env { Env(config, {}, SETTINGS, 0.0, jti, 0.0) }

  function Subject(vo: string, user: string): string { vo + ":" + user }

  function IdentityOf(vo: string, user: string, users: map<string, string>): Identity
    requires user in users
  {
    Identity(Subject(vo, user), vo, "group", {}, users[user])
  }

  lemma MemberIdentified(vo: string, users: map<string, string>, user: string)
    requires Nameable(vo) && user in users
    ensures Parse("vo:" + vo, Members(vo, users), {}).Ok?
    ensures Identify("vo:" + vo, user, Members(vo, users), {}) == Ok(IdentityOf(vo, user, users))
  {
    var scope := "vo:" + vo;
    var config := Members(vo, users);
    NameableIsNamed(vo);
    assert !StartsWith(scope, "group:") && !StartsWith(scope, "property:");
    assert Named({scope}, "group:") == {} && Named({scope}, "property:") == {};
    var r := ParsedScope(vo, "group", {});
    assert Accepted(scope, config, {}, r);
    ParseMeans(scope, config, {}, r);
  }

  // ------------------------------------------------------------------
  // Steps
  // ------------------------------------------------------------------

  const JWT := Jwt(false, 600.0)

  // A token that can be refreshed: its row, its signed part and its login.
  ghost predicate Has(s: State, jti: Jti, scope: string, sub: string, root: nat) {
    && jti in s.tables.tokens && s.tables.tokens[jti] == RefreshToken(CREATED, scope, sub)
    && jti in s.issued && s.issued[jti] == JWT
    && jti in s.family && s.family[jti] == root
  }

  // Nothing but one more token, and one more entry of the log.
  ghost predicate Adds(s: State, t: State, jti: Jti, scope: string, sub: string, root: nat, e: Entry) {
    && t.tables.tokens == s.tables.tokens[jti := RefreshToken(CREATED, scope, sub)]
    && t.issued == s.issued[jti := JWT] && t.family == s.family[jti := root]
    && t.log == s.log + [e]
  }

  lemma Expiry()
    ensures WholeSeconds(0.0 + 60.0 * 10.0) == 600.0 && WholeSeconds(0.0 + (600.0 - 0.0)) == 600.0
  {
  }

  function Waiting(scope: string, code: string): DeviceFlow {
    DeviceFlow(PENDING, 0.0, "client", scope, Sha256(code), None)
  }

  lemma StartLogin(s: State, config: Config, scope: string, code: string)
    requires Parse(scope, config, {}).Ok? && !DeviceConflict(s.tables, code, code)
    ensures Serve(s, StartDevice(code, code, "client", scope), At(config, ""))
         == s.(tables := InsertDevice(s.tables, code, Waiting(scope, code)))
  {
  }

  lemma ApproveLogin(s: State, config: Config, scope: string, code: string, user: string)
    requires code in s.tables.devices && s.tables.devices[code] == Waiting(scope, code)
    ensures Serve(s, ApproveDevice(code, user), At(config, ""))
         == s.(tables := StoreDeviceIdToken(s.tables, code, user))
  {
  }

  lemma RedeemLogin(s: State, config: Config, scope: string, code: string, user: string, id: Identity, jti: Jti)
    requires DevicesWith(s.tables, code) == {code} && jti !in s.tables.tokens
    requires s.tables.devices[code] == Approved(scope, code, user)
    requires Identify(scope, user, config, {}) == Ok(id)
    ensures var t := Serve(s, RedeemDevice(code, "client"), At(config, jti));
            && Adds(s, t, jti, scope, id.sub, |s.log|, Minted(ByDevice(code, code), id, 0.0, |s.log|, Some(jti)))
            && t.tables.devices == SetDeviceStatus(s.tables, code, DONE).devices
  {
    Expiry();
    assert One(DevicesWith(s.tables, code)) == Some(code);
  }

  // Some steps lead from one state to another.
  ghost predicate Leads(s: State, steps: seq<Step>, t: State) { Runs(s, steps, SETTINGS) && After(s, steps) == t }

  lemma Then(s: State, step: Step, rest: seq<Step>, t: State)
    requires step.env.settings == SETTINGS && FreshCode(s, step.request)
    requires Leads(Serve(s, step.request, step.env), rest, t)
    ensures Leads(s, [step] + rest, t)
  {
    assert ([step] + rest)[1..] == rest;
  }

  lemma Uncons(s: State, steps: seq<Step>, t: State)
    requires steps != [] && Leads(s, steps, t)
    ensures steps[0].env.settings == SETTINGS && FreshCode(s, steps[0].request)
    ensures Leads(Serve(s, steps[0].request, steps[0].env), steps[1..], t)
  {
  }

  lemma {:induction false} Joined(s: State, a: seq<Step>, t: State, b: seq<Step>, u: State)
    requires Leads(s, a, t) && Leads(t, b, u)
    ensures Leads(s, a + b, u)
    decreases |a|
  {
    if a == [] {
      assert a + b == b;
    } else {
      Regrouped(a, b);
      Uncons(s, a, t);
      Joined(Serve(s, a[0].request, a[0].env), a[1..], t, b, u);
      Then(s, a[0], a[1..] + b, u);
    }
  }

  lemma SoleDevice(a: Tables, b: Tables, code: string)
    requires !DeviceConflict(a, code, code) && b.devices.Keys == a.devices.Keys + {code}
    requires forall u :: u in b.devices ==>
               b.devices[u].deviceCode == if u == code then Sha256(code) else a.devices[u].deviceCode
    ensures DevicesWith(b, code) == {code}
  {
    assert forall u :: u in a.devices ==> u !in DevicesWith(a, code);
  }

  function Redeem(config: Config, code: string, jti: Jti): seq<Step> {
    [Step(RedeemDevice(code, "client"), At(config, jti))] + []
  }

  function Approve(config: Config, code: string, user: string, jti: Jti): seq<Step> {
    [Step(ApproveDevice(code, user), At(config, ""))] + Redeem(config, code, jti)
  }

  function Login(config: Config, scope: string, code: string, user: string, jti: Jti): seq<Step> {
    [Step(StartDevice(code, code, "client", scope), At(config, ""))] + Approve(config, code, user, jti)
  }

  // A device flow with this code has minted one token, for this user.
  ghost predicate LoggedIn(s: State, t: State, scope: string, code: string, id: Identity, jti: Jti) {
    && Adds(s, t, jti, scope, id.sub, |s.log|, Minted(ByDevice(code, code), id, 0.0, |s.log|, Some(jti)))
    && t.tables.devices.Keys == s.tables.devices.Keys + {code}
    && forall u :: u in t.tables.devices ==>
         t.tables.devices[u].deviceCode == if u == code then Sha256(code) else s.tables.devices[u].deviceCode
  }

  lemma RedeemAdds(s: State, s2: State, config: Config, scope: string, code: string, user: string, id: Identity,
                   jti: Jti)
    returns (t: State)
    requires !DeviceConflict(s.tables, code, code) && jti !in s.tables.tokens
    requires Identify(scope, user, config, {}) == Ok(id)
    requires s2 == s.(tables := s.tables.(devices := s.tables.devices[code := Approved(scope, code, user)]))
    ensures Leads(s2, Redeem(config, code, jti), t) && LoggedIn(s, t, scope, code, id, jti)
  {
    SoleDevice(s.tables, s2.tables, code);
    RedeemLogin(s2, config, scope, code, user, id, jti);
    t := Serve(s2, RedeemDevice(code, "client"), At(config, jti));
    RedeemedIsLoggedIn(s, s2, t, scope, code, user, id, jti);
    Single(s2, Step(RedeemDevice(code, "client"), At(config, jti)), t);
  }

  lemma Single(s: State, step: Step, t: State)
    requires step.env.settings == SETTINGS && FreshCode(s, step.request) && t == Serve(s, step.request, step.env)
    ensures Leads(s, [step] + [], t)
  {
    assert Leads(t, [], t);
    Then(s, step, [], t);
  }

  lemma RedeemedIsLoggedIn(s: State, s2: State, t: State, scope: string, code: string, user: string, id: Identity,
                           jti: Jti)
    requires s2 == s.(tables := s.tables.(devices := s.tables.devices[code := Approved(scope, code, user)]))
    requires Adds(s2, t, jti, scope, id.sub, |s2.log|, Minted(ByDevice(code, code), id, 0.0, |s2.log|, Some(jti)))
    requires t.tables.devices == SetDeviceStatus(s2.tables, code, DONE).devices
    ensures LoggedIn(s, t, scope, code, id, jti)
  {
  }

  function Approved(scope: string, code: string, user: string): DeviceFlow {
    Waiting(scope, code).(status := READY, idToken := Some(user))
  }

  lemma ApproveAdds(s: State, s1: State, config: Config, scope: string, code: string, user: string, id: Identity,
                    jti: Jti)
    returns (t: State)
    requires !DeviceConflict(s.tables, code, code) && jti !in s.tables.tokens
    requires Identify(scope, user, config, {}) == Ok(id)
    requires s1 == s.(tables := InsertDevice(s.tables, code, Waiting(scope, code)))
    ensures Leads(s1, Approve(config, code, user, jti), t) && LoggedIn(s, t, scope, code, id, jti)
  {
    ApproveLogin(s1, config, scope, code, user);
    var s2 := s1.(tables := StoreDeviceIdToken(s1.tables, code, user));
    assert s2.tables.devices == s.tables.devices[code := Approved(scope, code, user)];
    t := RedeemAdds(s, s2, config, scope, code, user, id, jti);
    Then(s1, Step(ApproveDevice(code, user), At(config, "")), Redeem(config, code, jti), t);
  }

  lemma LoginAdds(s: State, config: Config, scope: string, code: string, user: string, id: Identity, jti: Jti)
    returns (t: State)
    requires !DeviceConflict(s.tables, code, code) && jti !in s.tables.tokens
    requires Identify(scope, user, config, {}) == Ok(id)
    ensures Leads(s, Login(config, scope, code, user, jti), t) && LoggedIn(s, t, scope, code, id, jti)
  {
    StartLogin(s, config, scope, code);
    var s1 := s.(tables := InsertDevice(s.tables, code, Waiting(scope, code)));
    t := ApproveAdds(s, s1, config, scope, code, user, id, jti);
    Then(s, Step(StartDevice(code, code, "client", scope), At(config, "")), Approve(config, code, user, jti), t);
  }

  lemma RefreshAdds(s: State, config: Config, scope: string, sub: string, root: nat, old_: Jti, user: string,
                    id: Identity, jti: Jti)
    requires Has(s, old_, scope, sub, root) && jti !in s.tables.tokens
    requires AfterColon(sub) == Some(user) && Identify(scope, user, config, {}) == Ok(id)
    ensures var t := Serve(s, Refresh(old_), At(config, jti));
            var revoked := s.(tables := RevokeToken(s.tables, old_));
            Adds(revoked, t, jti, scope, id.sub, root, Minted(ByRefresh(old_), id, 0.0, root, Some(jti)))
  {
    Expiry();
  }

  // Refreshing a token that its owner has revoked.
  lemma ReuseRevokes(s: State, config: Config, scope: string, sub: string, jti: Jti)
    requires jti in s.tables.tokens && s.tables.tokens[jti] == RefreshToken(CREATED, scope, sub)
    requires jti in s.issued && s.issued[jti] == JWT
    ensures var s1 := Serve(s, Revoke(jti, None), At(config, ""));
            && s1 == s.(tables := RevokeToken(s.tables, jti))
            && Serve(s1, Refresh(jti), At(config, ""))
               == s1.(tables := RevokeSubject(s1.tables, sub), log := s1.log + [ReuseDetected(sub, jti)])
  {
  }

  // ------------------------------------------------------------------
  // The run
  // ------------------------------------------------------------------

  // What refreshing puts in front of a user of this VO.
  function Residue(vo: string): (q: string)
    requires !ColonFree(vo)
    ensures q != []
  {
    ResidueIs(vo, "");
    AfterColon(vo + ":").value
  }

  lemma {:induction false} ResidueIs(vo: string, user: string)
    requires !ColonFree(vo)
    ensures AfterColon(vo + ":").Some? && AfterColon(vo + ":").value != []
    ensures AfterColon(Subject(vo, user)) == Some(AfterColon(vo + ":").value + user)
  {
    assert (vo + ":")[1..] == vo[1..] + ":";
    assert Subject(vo, user)[1..] == Subject(vo[1..], user);
    if vo[0] == ':' {
      assert vo[1..] + ":" + user == (vo[1..] + ":") + user;
    } else {
      assert vo == [vo[0]] + vo[1..];
      ResidueIs(vo[1..], user);
    }
  }

  // The users the run needs: one, and what a refresh and two make of it.
  function Users(vo: string): map<string, string>
    requires !ColonFree(vo)
  {
    var q := Residue(vo);
    map["u" := "", q + "u" := "", q + (q + "u") := ""]
  }

  function Reuse(config: Config, jti: Jti): seq<Step> {
    [Step(Revoke(jti, None), At(config, ""))] + ([Step(Refresh(jti), At(config, ""))] + [])
  }

  lemma ReuseLeads(s: State, config: Config, scope: string, sub: string, jti: Jti) returns (t: State)
    requires jti in s.tables.tokens && s.tables.tokens[jti] == RefreshToken(CREATED, scope, sub)
    requires jti in s.issued && s.issued[jti] == JWT
    ensures Leads(s, Reuse(config, jti), t)
    ensures t == s.(tables := RevokeSubject(RevokeToken(s.tables, jti), sub), log := s.log + [ReuseDetected(sub, jti)])
  {
    ReuseRevokes(s, config, scope, sub, jti);
    var s1 := Serve(s, Revoke(jti, None), At(config, ""));
    t := Serve(s1, Refresh(jti), At(config, ""));
    Single(s1, Step(Refresh(jti), At(config, "")), t);
    Then(s, Step(Revoke(jti, None), At(config, "")), [Step(Refresh(jti), At(config, ""))] + [], t);
  }

  function Logins(vo: string): seq<Step>
    requires !ColonFree(vo)
  {
    var config := Members(vo, Users(vo));
    Login(config, "vo:" + vo, "1", "u", "j1") + Login(config, "vo:" + vo, "2", Residue(vo) + "u", "j2")
  }

  predicate FirstLogin(s: State, vo: string) {
    |s.log| > 0 && s.log[0].Minted? && s.log[0].identity.sub == Subject(vo, "u") && s.log[0].refresh == Some("j1")
  }

  lemma LoginsLead(vo: string) returns (t: State)
    requires !ColonFree(vo) && Nameable(vo)
    ensures Leads(START, Logins(vo), t) && |t.log| == 2 && t.tables.tokens.Keys == {"j1", "j2"}
    ensures Has(t, "j1", "vo:" + vo, Subject(vo, "u"), 0)
    ensures Has(t, "j2", "vo:" + vo, Subject(vo, Residue(vo) + "u"), 1)
    ensures FirstLogin(t, vo)
  {
    var users, scope, second := Users(vo), "vo:" + vo, Residue(vo) + "u";
    var config := Members(vo, users);
    MemberIdentified(vo, users, "u");
    MemberIdentified(vo, users, second);
    var s := LoginAdds(START, config, scope, "1", "u", IdentityOf(vo, "u", users), "j1");
    t := LoginAdds(s, config, scope, "2", second, IdentityOf(vo, second, users), "j2");
    Joined(START, Login(config, scope, "1", "u", "j1"), s, Login(config, scope, "2", second, "j2"), t);
    TwoLogins(s, t, vo, users);
  }

  lemma TwoLogins(s: State, t: State, vo: string, users: map<string, string>)
    requires !ColonFree(vo) && "u" in users && Residue(vo) + "u" in users
    requires LoggedIn(START, s, "vo:" + vo, "1", IdentityOf(vo, "u", users), "j1")
    requires LoggedIn(s, t, "vo:" + vo, "2", IdentityOf(vo, Residue(vo) + "u", users), "j2")
    ensures |t.log| == 2 && t.tables.tokens.Keys == {"j1", "j2"} && FirstLogin(t, vo)
    ensures Has(t, "j1", "vo:" + vo, Subject(vo, "u"), 0)
    ensures Has(t, "j2", "vo:" + vo, Subject(vo, Residue(vo) + "u"), 1)
  {
  }

  function ReuseSteps(vo: string): seq<Step>
    requires !ColonFree(vo)
  {
    Logins(vo) + Reuse(Members(vo, Users(vo)), "j2")
  }

  // After the reuse the subject of the second user has no live token, and the first user still has one.
  lemma ReuseRun(vo: string) returns (t: State)
    requires !ColonFree(vo) && Nameable(vo)
    ensures Leads(START, ReuseSteps(vo), t)
    ensures |t.log| == 3 && t.log[2] == ReuseDetected(Subject(vo, Residue(vo) + "u"), "j2")
    ensures FirstLogin(t, vo)
    ensures Has(t, "j1", "vo:" + vo, Subject(vo, "u"), 0)
    ensures t.tables.tokens.Keys == {"j1", "j2"}
  {
    var s := LoginsLead(vo);
    var config, sub := Members(vo, Users(vo)), Subject(vo, Residue(vo) + "u");
    t := ReuseLeads(s, config, "vo:" + vo, sub, "j2");
    Joined(START, Logins(vo), s, Reuse(config, "j2"), t);
    assert |Subject(vo, "u")| < |sub|;
  }

  function First(config: Config): seq<Step> { [Step(Refresh("j1"), At(config, "j3"))] + [] }
  function Again(config: Config): seq<Step> { [Step(Refresh("j3"), At(config, "j4"))] + [] }

  // The first user is refreshed into the second one, and that one once more.
  lemma EscapeLeads(s: State, vo: string) returns (t: State)
    requires !ColonFree(vo) && Nameable(vo)
    requires Has(s, "j1", "vo:" + vo, Subject(vo, "u"), 0) && s.tables.tokens.Keys == {"j1", "j2"}
    ensures Leads(s, First(Members(vo, Users(vo))) + Again(Members(vo, Users(vo))), t)
    ensures |t.log| == |s.log| + 2 && t.log[..|s.log|] == s.log
    ensures Refreshes(t, |s.log| + 1, Subject(vo, Residue(vo) + "u")) && t.log[|s.log| + 1].family == 0
    ensures var second := IdentityOf(vo, Residue(vo) + "u", Users(vo));
            t.log[|s.log|] == Minted(ByRefresh("j1"), second, 0.0, 0, Some("j3"))
  {
    var users, scope, second := Users(vo), "vo:" + vo, Residue(vo) + "u";
    var config, third := Members(vo, users), Residue(vo) + second;
    ResidueIs(vo, "u");
    ResidueIs(vo, second);
    MemberIdentified(vo, users, second);
    MemberIdentified(vo, users, third);
    var s1 := RefreshFirst(s, config, scope, Subject(vo, "u"), second, IdentityOf(vo, second, users));
    t := RefreshAgain(s1, config, scope, Subject(vo, second), third, IdentityOf(vo, third, users));
    Joined(s, First(config), s1, Again(config), t);
    assert t.log[..|s.log|] == t.log[..|s1.log|][..|s.log|];
    assert t.log[|s.log|] == t.log[..|s1.log|][|s.log|];
  }

  lemma RefreshFirst(s: State, config: Config, scope: string, sub: string, user: string,
                     id: Identity)
    returns (t: State)
    requires Has(s, "j1", scope, sub, 0) && s.tables.tokens.Keys == {"j1", "j2"}
    requires AfterColon(sub) == Some(user) && Identify(scope, user, config, {}) == Ok(id)
    ensures Leads(s, First(config), t)
    ensures |t.log| == |s.log| + 1 && t.log[..|s.log|] == s.log
    ensures Has(t, "j3", scope, id.sub, 0) && "j4" !in t.tables.tokens
    ensures t.log[|s.log|] == Minted(ByRefresh("j1"), id, 0.0, 0, Some("j3"))
  {
    RefreshAdds(s, config, scope, sub, 0, "j1", user, id, "j3");
    t := Serve(s, Refresh("j1"), At(config, "j3"));
    Single(s, Step(Refresh("j1"), At(config, "j3")), t);
    assert t.log[..|s.log|] == s.log;
  }

  lemma RefreshAgain(s: State, config: Config, scope: string, sub: string, user: string,
                     id: Identity)
    returns (t: State)
    requires Has(s, "j3", scope, sub, 0) && "j4" !in s.tables.tokens
    requires AfterColon(sub) == Some(user) && Identify(scope, user, config, {}) == Ok(id)
    ensures Leads(s, Again(config), t)
    ensures |t.log| == |s.log| + 1 && t.log[..|s.log|] == s.log
    ensures Refreshes(t, |s.log|, sub) && t.log[|s.log|].family == 0
  {
    RefreshAdds(s, config, scope, sub, 0, "j3", user, id, "j4");
    t := Serve(s, Refresh("j3"), At(config, "j4"));
    Single(s, Step(Refresh("j3"), At(config, "j4")), t);
    assert t.log[..|s.log|] == s.log;
  }

  function Steps(vo: string): seq<Step>
    requires !ColonFree(vo)
  {
    ReuseSteps(vo) + (First(Members(vo, Users(vo))) + Again(Members(vo, Users(vo))))
  }

  /**
   A run over the one VO in which a reuse is detected for a subject, and the
   subject is then refreshed although its token descends from an older login.
   */
  lemma ColonEscapes(vo: string)
    requires !ColonFree(vo) && Nameable(vo)
    ensures Runs(START, Steps(vo), SETTINGS)
    ensures var s := After(START, Steps(vo));
            var sub := Subject(vo, Residue(vo) + "u");
            && |s.log| == 5 && s.log[2] == ReuseDetected(sub, "j2")
            && FirstLogin(s, vo) && s.log[3].Minted? && s.log[3].grant == ByRefresh("j1")
                 && s.log[3].identity.sub == sub
            && Refreshes(s, 4, sub) && s.log[4].family == 0 && !LoginSince(s, 2, 4, sub)
  {
    var s := ReuseRun(vo);
    var t := EscapeLeads(s, vo);
    Joined(START, ReuseSteps(vo), s, First(Members(vo, Users(vo))) + Again(Members(vo, Users(vo))), t);
    assert t.log[2] == t.log[..3][2] && t.log[0] == t.log[..3][0];
  }

  lemma StepsWithin(vo: string, i: nat)
    requires !ColonFree(vo) && i < |Steps(vo)|
    ensures Steps(vo)[i].env.config.Keys == {vo}
  {
  }

  // ------------------------------------------------------------------
  // Exactly which VOs keep the promise
  // ------------------------------------------------------------------

  ghost predicate Within(steps: seq<Step>, vos: set<string>) {
    forall i :: 0 <= i < |steps| ==> steps[i].env.config.Keys <= vos
  }

  ghost predicate LoginForced(steps: seq<Step>, v: Settings) {
    Runs(START, steps, v) ==> LoggedSince(After(START, steps))
  }

  /**
   Whatever happens at an installation with these VOs, a subject whose token was
   reused is refreshed only after a new login: exactly if no VO that a scope can
   name has a colon.
   */
  lemma LoginForcedExactly(vos: set<string>)
    ensures (forall steps, v :: Within(steps, vos) ==> LoginForced(steps, v))
            <==> (forall vo :: vo in vos && Nameable(vo) ==> ColonFree(vo))
  {
    if forall vo :: vo in vos && Nameable(vo) ==> ColonFree(vo) {
      forall steps, v | Within(steps, vos) ensures LoginForced(steps, v) {
        if Runs(START, steps, v) {
          assert PlainVos(steps);
          StartInv(v);
          RunKeeps(START, steps, v);
        }
      }
    } else {
      var vo :| vo in vos && Nameable(vo) && !ColonFree(vo);
      ColonEscapes(vo);
      forall i | 0 <= i < |Steps(vo)| ensures Steps(vo)[i].env.config.Keys <= vos { StepsWithin(vo, i); }
      assert Within(Steps(vo), vos) && !LoginForced(Steps(vo), SETTINGS);
    }
  }

  /** The same at an input: the VO "a:b", whose users are "u", "b:u" and "b:b:u". */
  lemma ReuseEscapes()
    ensures Users("a:b") == map["u" := "", "b:u" := "", "b:b:u" := ""]
    ensures Runs(START, Steps("a:b"), SETTINGS)
    ensures var s := After(START, Steps("a:b"));
            && |s.log| == 5 && s.log[0].Minted? && s.log[0].identity.sub == "a:b:u" && s.log[0].refresh == Some("j1")
            && s.log[2] == ReuseDetected("a:b:b:u", "j2")
            && s.log[3].Minted? && s.log[3].grant == ByRefresh("j1") && s.log[3].identity.sub == "a:b:b:u"
            && Refreshes(s, 4, "a:b:b:u") && s.log[4].family == 0 && !LoginSince(s, 2, 4, "a:b:b:u")
  {
    ColonEscapes("a:b");
    ExampleNames();
  }

  lemma ExampleNames()
    ensures Residue("a:b") == "b:" && Users("a:b") == map["u" := "", "b:u" := "", "b:b:u" := ""]
    ensures Subject("a:b", "u") == "a:b:u" && Subject("a:b", Residue("a:b") + "u") == "a:b:b:u"
  {
    assert "a:b" + ":" == "a:b:" && "a:b:"[1..] == ":b:" && ":b:"[1..] == "b:";
    assert AfterColon(":b:") == Some("b:");
    assert AfterColon("a:b:") == AfterColon(":b:");
    assert "b:" + "u" == "b:u" && "b:" + "b:u" == "b:b:u";
  }

  /** A refresh by a user who is not also registered under the longer name is refused, and changes nothing. */
  lemma UnregisteredRefused(s: State, vo: string, users: map<string, string>, user: string, jti: Jti)
    requires !ColonFree(vo) && Nameable(vo) && user in users && Residue(vo) + user !in users
    requires Has(s, jti, "vo:" + vo, Subject(vo, user), 0)
    ensures Attempt(s, Refresh(jti), At(Members(vo, users), "")) == Err(Refused(NotRegistered))
    ensures Serve(s, Refresh(jti), At(Members(vo, users), "")) == s
  {
    ResidueIs(vo, user);
    MemberIdentified(vo, users, user);
    var scope := "vo:" + vo;
    var parsed := Parse(scope, Members(vo, users), {});
    ParseMeans(scope, Members(vo, users), {}, parsed.value);
    assert parsed.value.vo in Named(Pieces(scope), "vo:");
    NameableIsNamed(vo);
  }
}
