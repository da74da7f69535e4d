/**
 The log of the token endpoint: every minted token answers for the flow or
 token it came from, and nothing single-use is ever used twice.
 */
module AuthLog {
  import opened Basics
  import opened Scope
  import opened AuthTables
  import opened AuthService
  import opened AuthInvariants

  // What a log entry says about the tables, for ever after.
  ghost predicate EntryOk(e: Entry, s: State, v: Settings) {
    match e
    case Minted(ByDevice(u, code), id, at, _, _) =>
      && u in s.tables.devices
      && var d := s.tables.devices[u];
         && d.status == DONE && d.deviceCode == Sha256(code) && at <= d.created + v.deviceValidity
         && d.idToken.Some? && id.sub == id.vo + ":" + d.idToken.value && NamesVo(d.scope, id.vo)
    case Minted(ByCode(u, code, clientId, redirectUri, verifier), id, at, _, _) =>
      && u in s.tables.flows
      && var f := s.tables.flows[u];
         && f.status == DONE && f.code == Some(Sha256(code)) && at < f.created + v.codeValidity
         && f.clientId == clientId && f.redirectUri == redirectUri && f.challenge == S256(Sha256(verifier))
         && f.idToken.Some? && id.sub == id.vo + ":" + f.idToken.value && NamesVo(f.scope, id.vo)
    case Minted(ByRefresh(j), _, _, _, _) =>
      && j in s.tables.tokens && j in s.issued
      && (!s.issued[j].legacy ==> s.tables.tokens[j].status == REVOKED)
    case Minted(ByLegacyKey, _, _, _, _) => true
    case ReuseDetected(sub, j) =>
      && j in s.tables.tokens && j in s.issued && !s.issued[j].legacy
      && s.tables.tokens[j].sub == sub && s.tables.tokens[j].status == REVOKED
  }

  // Two entries spend the same single-use thing.
  predicate SameSource(e: Entry, f: Entry, issued: map<Jti, Jwt>) {
    && e.Minted? && f.Minted?
    && match (e.grant, f.grant)
       case (ByDevice(_, a), ByDevice(_, b)) => a == b
       case (ByCode(_, a, _, _, _), ByCode(_, b, _, _, _)) => a == b
       case (ByRefresh(a), ByRefresh(b)) => a == b && a in issued && !issued[a].legacy
       case _ => false
  }

  ghost predicate LogInv(s: State, v: Settings) {
    && s.tables.tokens.Keys == s.issued.Keys
    && (forall i :: 0 <= i < |s.log| ==> EntryOk(s.log[i], s, v))
    && (forall i, j :: 0 <= i < j < |s.log| ==> !SameSource(s.log[i], s.log[j], s.issued))
  }

  ghost predicate Later(s: State, t: State) {
    && Advances(s.tables, t.tables)
    && (forall j :: j in s.issued ==> j in t.issued && t.issued[j] == s.issued[j])
  }

  // One jti, new to the table, is issued; the log gains one entry.
  ghost predicate Issues(s: State, t: State) {
    && |t.log| == |s.log| + 1 && t.log == s.log + [t.log[|s.log|]]
    && (s.tables.tokens.Keys == s.issued.Keys ==> t.tables.tokens.Keys == t.issued.Keys)
    && (s.tables.tokens.Keys == s.issued.Keys ==> forall j :: j in s.issued ==>
        j in t.issued && t.issued[j] == s.issued[j])
  }

  lemma EntryStays(e: Entry, s: State, t: State, v: Settings)
    requires EntryOk(e, s, v) && Later(s, t)
    ensures EntryOk(e, t, v)
  {
    match e {
      case Minted(ByDevice(u, _), _, _, _, _) => assert DeviceAdvances(s.tables.devices[u], t.tables.devices[u]);
      case Minted(ByCode(u, _, _, _, _), _, _, _, _) => assert FlowAdvances(s.tables.flows[u], t.tables.flows[u]);
      case Minted(ByRefresh(j), _, _, _, _) => assert TokenAdvances(s.tables.tokens[j], t.tables.tokens[j]);
      case Minted(ByLegacyKey, _, _, _, _) =>
      case ReuseDetected(_, j) => assert TokenAdvances(s.tables.tokens[j], t.tables.tokens[j]);
    }
  }

  lemma LogStays(s: State, t: State, v: Settings)
    requires LogInv(s, v) && Later(s, t) && t.log == s.log && t.tables.tokens.Keys == t.issued.Keys
    ensures LogInv(t, v)
  {
    forall i | 0 <= i < |t.log| ensures EntryOk(t.log[i], t, v) {
      EntryStays(s.log[i], s, t, v);
    }
    forall i, j | 0 <= i < j < |t.log| ensures !SameSource(t.log[i], t.log[j], t.issued) {
      assert !SameSource(s.log[i], s.log[j], s.issued);
      assert EntryOk(s.log[i], s, v);
    }
  }

  // The new entry must not spend what an earlier one has spent.
  lemma LogAppends(s: State, t: State, e: Entry, v: Settings)
    requires LogInv(s, v) && Later(s, t) && t.log == s.log + [e] && t.tables.tokens.Keys == t.issued.Keys
    requires EntryOk(e, t, v)
    requires forall i :: 0 <= i < |s.log| ==> !SameSource(s.log[i], e, t.issued)
    ensures LogInv(t, v)
  {
    LogStays(s, t.(log := s.log), v);
    forall i | 0 <= i < |t.log| ensures EntryOk(t.log[i], t, v) {
      if i < |s.log| { EntryStays(s.log[i], s, t, v); }
    }
  }

  // ------------------------------------------------------------------
  // Each kind of request
  // ------------------------------------------------------------------

  // A flow that is still READY has minted nothing.
  lemma DeviceUnspent(s: State, code: string, u: UserCode, v: Settings)
    requires LogInv(s, v) && DevicesWith(s.tables, code) == {u} && s.tables.devices[u].status == READY
    ensures forall i :: 0 <= i < |s.log| && s.log[i].Minted? && s.log[i].grant.ByDevice? ==>
              s.log[i].grant.deviceCode != code
  {
    forall i | 0 <= i < |s.log| && s.log[i].Minted? && s.log[i].grant.ByDevice?
      ensures s.log[i].grant.deviceCode != code
    {
      assert EntryOk(s.log[i], s, v);
      assert s.log[i].grant.userCode in DevicesWith(s.tables, s.log[i].grant.deviceCode);
    }
  }

  lemma CodeUnspent(s: State, code: string, u: Uuid, v: Settings)
    requires RowsInv(s.tables) && LogInv(s, v)
    requires u in s.tables.flows && s.tables.flows[u].code == Some(Sha256(code)) && s.tables.flows[u].status == READY
    ensures forall i :: 0 <= i < |s.log| && s.log[i].Minted? && s.log[i].grant.ByCode? ==> s.log[i].grant.code != code
  {
    forall i | 0 <= i < |s.log| && s.log[i].Minted? && s.log[i].grant.ByCode?
      ensures s.log[i].grant.code != code
    {
      assert EntryOk(s.log[i], s, v);
    }
  }

  lemma SpendDevice(s: State, t: State, u: UserCode, v: Settings)
    requires LogInv(s, v) && Advances(s.tables, t.tables) && Issues(s, t)
    requires var e := t.log[|s.log|];
             && EntryOk(e, t, v) && e.Minted? && e.grant.ByDevice?
             && DevicesWith(s.tables, e.grant.deviceCode) == {u} && s.tables.devices[u].status == READY
    ensures LogInv(t, v) && Later(s, t)
  {
    DeviceUnspent(s, t.log[|s.log|].grant.deviceCode, u, v);
    LogAppends(s, t, t.log[|s.log|], v);
  }

  lemma SpendCode(s: State, t: State, u: Uuid, v: Settings)
    requires RowsInv(s.tables) && LogInv(s, v) && Advances(s.tables, t.tables) && Issues(s, t)
    requires var e := t.log[|s.log|];
             && EntryOk(e, t, v) && e.Minted? && e.grant.ByCode?
             && u in s.tables.flows && s.tables.flows[u].code == Some(Sha256(e.grant.code))
                  && s.tables.flows[u].status == READY
    ensures LogInv(t, v) && Later(s, t)
  {
    CodeUnspent(s, t.log[|s.log|].grant.code, u, v);
    LogAppends(s, t, t.log[|s.log|], v);
  }

  lemma DeviceEntry(s: State, code: string, clientId: string, env: Env)
    requires RowsInv(s.tables) && RedeemDeviceCode(s, code, clientId, env).Ok?
    ensures var t := RedeemDeviceCode(s, code, clientId, env).value.0;
            && Issues(s, t)
            && EntryOk(t.log[|s.log|], t, env.settings)
            && t.log[|s.log|].Minted? && t.log[|s.log|].grant.ByDevice? && t.log[|s.log|].grant.deviceCode == code
    ensures exists u :: DevicesWith(s.tables, code) == {u} && s.tables.devices[u].status == READY
  {
    var t := RedeemDeviceCode(s, code, clientId, env).value.0;
    var u := One(DevicesWith(s.tables, code)).value;
    assert u in DevicesWith(s.tables, code);
    var row := s.tables.devices[u];
    IdentifySound(row.scope, row.idToken.value, env.config, env.available, t.log[|s.log|].identity);
  }

  lemma DeviceLog(s: State, code: string, clientId: string, env: Env)
    requires RowsInv(s.tables) && LogInv(s, env.settings) && RedeemDeviceCode(s, code, clientId, env).Ok?
    requires GoodStep(s.tables, RedeemDeviceCode(s, code, clientId, env).value.0.tables)
    ensures LogInv(RedeemDeviceCode(s, code, clientId, env).value.0, env.settings)
    ensures Later(s, RedeemDeviceCode(s, code, clientId, env).value.0)
  {
    DeviceEntry(s, code, clientId, env);
    var t := RedeemDeviceCode(s, code, clientId, env).value.0;
    var u :| DevicesWith(s.tables, code) == {u} && s.tables.devices[u].status == READY;
    SpendDevice(s, t, u, env.settings);
  }

  lemma CodeEntry(s: State, r: Request, env: Env)
    requires r.RedeemCode? && RowsInv(s.tables) && RedeemAuthorizationCode(s, r, env).Ok?
    ensures var t := RedeemAuthorizationCode(s, r, env).value.0;
            && Issues(s, t)
            && EntryOk(t.log[|s.log|], t, env.settings)
            && t.log[|s.log|].Minted? && t.log[|s.log|].grant.ByCode? && t.log[|s.log|].grant.code == r.code
    ensures exists u :: u in s.tables.flows && s.tables.flows[u].code == Some(Sha256(r.code))
              && s.tables.flows[u].status == READY
  {
    CodeIssues(s, r, env);
    CodeEntryOk(s, r, env);
  }

  lemma CodeIssues(s: State, r: Request, env: Env)
    requires r.RedeemCode? && RedeemAuthorizationCode(s, r, env).Ok?
    ensures Issues(s, RedeemAuthorizationCode(s, r, env).value.0)
  {
  }

  lemma CodeEntryOk(s: State, r: Request, env: Env)
    requires r.RedeemCode? && RowsInv(s.tables) && RedeemAuthorizationCode(s, r, env).Ok?
    ensures var t := RedeemAuthorizationCode(s, r, env).value.0;
            && |t.log| == |s.log| + 1 && EntryOk(t.log[|s.log|], t, env.settings)
            && t.log[|s.log|].Minted? && t.log[|s.log|].grant.ByCode? && t.log[|s.log|].grant.code == r.code
    ensures exists u :: u in s.tables.flows && s.tables.flows[u].code == Some(Sha256(r.code))
              && s.tables.flows[u].status == READY
  {
    var t := RedeemAuthorizationCode(s, r, env).value.0;
    var u := One(FlowsWith(s.tables, r.code, env.now - env.settings.codeValidity)).value;
    assert u in FlowsWith(s.tables, r.code, env.now - env.settings.codeValidity);
    var row := s.tables.flows[u];
    IdentifySound(row.scope, row.idToken.value, env.config, env.available, t.log[|s.log|].identity);
  }

  lemma CodeLog(s: State, r: Request, env: Env)
    requires r.RedeemCode? && RowsInv(s.tables) && LogInv(s, env.settings) && RedeemAuthorizationCode(s, r, env).Ok?
    requires GoodStep(s.tables, RedeemAuthorizationCode(s, r, env).value.0.tables)
    ensures LogInv(RedeemAuthorizationCode(s, r, env).value.0, env.settings)
    ensures Later(s, RedeemAuthorizationCode(s, r, env).value.0)
  {
    CodeEntry(s, r, env);
    var t := RedeemAuthorizationCode(s, r, env).value.0;
    var u :| u in s.tables.flows && s.tables.flows[u].code == Some(Sha256(r.code)) && s.tables.flows[u].status == READY;
    SpendCode(s, t, u, env.settings);
  }

  lemma RefreshEntry(s: State, jti: Jti, env: Env)
    requires ExchangeRefreshToken(s, jti, env).Ok? && s.tables.tokens.Keys == s.issued.Keys
    ensures var t := ExchangeRefreshToken(s, jti, env).value.0;
            && |t.log| == |s.log| + 1 && t.log == s.log + [t.log[|s.log|]]
            && t.log[|s.log|].Minted? && t.log[|s.log|].grant == ByRefresh(jti)
            && t.tables.tokens.Keys == t.issued.Keys && EntryOk(t.log[|s.log|], t, env.settings)
            && (forall j :: j in s.issued ==> j in t.issued && t.issued[j] == s.issued[j])
            && jti in s.tables.tokens && (!t.issued[jti].legacy ==> s.tables.tokens[jti].status != REVOKED)
  {
  }

  // A rotating token that is not revoked has minted nothing.
  lemma SpendToken(s: State, t: State, v: Settings)
    requires LogInv(s, v) && Later(s, t) && |t.log| == |s.log| + 1 && t.log == s.log + [t.log[|s.log|]]
    requires t.tables.tokens.Keys == t.issued.Keys && EntryOk(t.log[|s.log|], t, v)
    requires var e := t.log[|s.log|];
             && e.Minted? && e.grant.ByRefresh? && e.grant.jti in s.tables.tokens
             && (!t.issued[e.grant.jti].legacy ==> s.tables.tokens[e.grant.jti].status != REVOKED)
    ensures LogInv(t, v)
  {
    var e := t.log[|s.log|];
    forall i | 0 <= i < |s.log| ensures !SameSource(s.log[i], e, t.issued) {
      assert EntryOk(s.log[i], s, v);
    }
    LogAppends(s, t, e, v);
  }

  lemma RefreshLog(s: State, jti: Jti, env: Env)
    requires LogInv(s, env.settings) && ExchangeRefreshToken(s, jti, env).Ok?
    requires GoodStep(s.tables, ExchangeRefreshToken(s, jti, env).value.0.tables)
    ensures LogInv(ExchangeRefreshToken(s, jti, env).value.0, env.settings)
    ensures Later(s, ExchangeRefreshToken(s, jti, env).value.0)
  {
    RefreshEntry(s, jti, env);
    SpendToken(s, ExchangeRefreshToken(s, jti, env).value.0, env.settings);
  }

  lemma LegacyLog(s: State, r: Request, env: Env)
    requires r.LegacyExchange? && LogInv(s, env.settings) && Attempt(s, r, env).Ok?
    requires GoodStep(s.tables, Attempt(s, r, env).value.0.tables)
    ensures LogInv(Attempt(s, r, env).value.0, env.settings) && Later(s, Attempt(s, r, env).value.0)
  {
    var t := Attempt(s, r, env).value.0;
    LogAppends(s, t, t.log[|s.log|], env.settings);
  }

  lemma ReuseLog(s: State, jti: Jti, v: Settings)
    requires LogInv(s, v) && RowsInv(s.tables) && jti in s.issued && !s.issued[jti].legacy
    ensures var sub := s.tables.tokens[jti].sub;
            var t := s.(tables := RevokeSubject(s.tables, sub), log := s.log + [ReuseDetected(sub, jti)]);
            LogInv(t, v) && Later(s, t)
  {
    var sub := s.tables.tokens[jti].sub;
    RevokeSubjectRows(s.tables, sub);
    LogAppends(s, s.(tables := RevokeSubject(s.tables, sub), log := s.log + [ReuseDetected(sub, jti)]),
               ReuseDetected(sub, jti), v);
  }

  lemma QuietLog(s: State, r: Request, env: Env)
    requires LogInv(s, env.settings) && Attempt(s, r, env).Ok?
    requires r.StartDevice? || r.StartCode? || r.ApproveDevice? || r.ApproveCode? || r.Revoke?
    requires GoodStep(s.tables, Attempt(s, r, env).value.0.tables)
    ensures LogInv(Attempt(s, r, env).value.0, env.settings) && Later(s, Attempt(s, r, env).value.0)
  {
    LogStays(s, Attempt(s, r, env).value.0, env.settings);
  }

  lemma ServeLog(s: State, r: Request, env: Env)
    requires RowsInv(s.tables) && LogInv(s, env.settings) && FreshCode(s, r)
    ensures LogInv(Serve(s, r, env), env.settings) && Later(s, Serve(s, r, env))
  {
    ServeSteps(s, r, env);
    var outcome := Attempt(s, r, env);
    if outcome.Ok? {
      if r.RedeemDevice? { DeviceLog(s, r.deviceCode, r.clientId, env); }
      else if r.RedeemCode? { CodeLog(s, r, env); }
      else if r.Refresh? { RefreshLog(s, r.jti, env); }
      else if r.LegacyExchange? { LegacyLog(s, r, env); }
      else { QuietLog(s, r, env); }
    } else if r.Refresh? && outcome.error.ReusedToken? {
      ReuseLog(s, r.jti, env.settings);
    }
  }
}
