/** What every request keeps, table by table and over the log. */
module AuthInvariants {
  import opened Basics
  import opened Scope
  import opened AuthTables
  import opened AuthService

  // Codes of authorization flows are drawn fresh.
  ghost predicate FreshCode(s: State, r: Request) {
    r.ApproveCode? ==> forall u :: u in s.tables.flows ==> s.tables.flows[u].code != Some(Sha256(r.code))
  }

  // ------------------------------------------------------------------
  // Flow rows
  // ------------------------------------------------------------------

  predicate DeviceOk(d: DeviceFlow) { d.status == READY || d.status == DONE ==> d.idToken.Some? }

  predicate FlowOk(f: AuthorizationFlow) {
    && (f.status == READY || f.status == DONE ==> f.idToken.Some? && f.code.Some?)
    && (f.status == PENDING ==> f.code.None?)
  }

  ghost predicate RowsInv(t: Tables) {
    && (forall u :: u in t.devices ==> DeviceOk(t.devices[u]))
    && (forall u :: u in t.flows ==> FlowOk(t.flows[u]))
    && (forall u, v :: u in t.flows && v in t.flows && t.flows[u].code.Some? && t.flows[u].code == t.flows[v].code ==>
        u == v)
  }

  // One request moves each status by at most one step.
  ghost predicate OneStep(a: Tables, b: Tables) {
    && (forall u :: u in a.devices && u in b.devices ==> StatusSteps(a.devices[u].status, b.devices[u].status))
    && (forall u :: u in a.flows && u in b.flows ==> StatusSteps(a.flows[u].status, b.flows[u].status))
  }

  ghost predicate GoodStep(a: Tables, b: Tables) {
    Advances(a, b) && OneStep(a, b) && RowsInv(b)
  }

  lemma RedeemDeviceRows(t: Tables, code: string, u: UserCode)
    requires RowsInv(t) && DevicesWith(t, code) == {u} && t.devices[u].status == READY
    ensures GoodStep(t, SetDeviceStatus(t, code, DONE))
  {
    forall v | v in t.devices
      ensures t.devices[v].deviceCode == Sha256(code) ==> v == u
    {
      if t.devices[v].deviceCode == Sha256(code) { assert v in DevicesWith(t, code); }
    }
  }

  lemma RedeemFlowRows(t: Tables, code: string, u: Uuid)
    requires RowsInv(t) && u in t.flows && t.flows[u].code == Some(Sha256(code)) && t.flows[u].status == READY
    ensures GoodStep(t, SetFlowStatus(t, code, DONE))
  {
  }

  lemma StartDeviceRows(t: Tables, u: UserCode, d: DeviceFlow)
    requires RowsInv(t) && u !in t.devices && d.status == PENDING
    ensures GoodStep(t, InsertDevice(t, u, d))
  {
  }

  lemma StartFlowRows(t: Tables, u: Uuid, f: AuthorizationFlow)
    requires RowsInv(t) && u !in t.flows && f.status == PENDING && f.code.None?
    ensures GoodStep(t, t.(flows := t.flows[u := f]))
  {
  }

  lemma ApproveDeviceRows(t: Tables, u: UserCode, idToken: string)
    requires RowsInv(t) && u in t.devices && t.devices[u].status == PENDING
    ensures GoodStep(t, StoreDeviceIdToken(t, u, idToken))
  {
  }

  lemma ApproveFlowRows(t: Tables, u: Uuid, idToken: string, code: string)
    requires RowsInv(t) && u in t.flows && t.flows[u].status == PENDING
    requires forall v :: v in t.flows ==> t.flows[v].code != Some(Sha256(code))
    ensures GoodStep(t, StoreFlowIdToken(t, u, idToken, code))
  {
    var b := StoreFlowIdToken(t, u, idToken, code);
    assert b.flows.Keys == t.flows.Keys && forall v :: v in b.flows && v != u ==> b.flows[v] == t.flows[v];
  }

  lemma InsertTokenRows(a: Tables, t: Tables, j: Jti, sub: string, scope: string)
    requires GoodStep(a, t) && j !in a.tokens
    ensures GoodStep(a, InsertToken(t, j, sub, scope))
  {
  }

  lemma RevokeTokenRows(t: Tables, j: Jti)
    requires RowsInv(t)
    ensures GoodStep(t, RevokeToken(t, j))
  {
  }

  lemma RevokeSubjectRows(t: Tables, sub: string)
    requires RowsInv(t)
    ensures GoodStep(t, RevokeSubject(t, sub))
  {
  }

  lemma Idle(t: Tables)
    requires RowsInv(t)
    ensures GoodStep(t, t)
  {
  }

  lemma StartSteps(s: State, r: Request, env: Env)
    requires RowsInv(s.tables) && Attempt(s, r, env).Ok? && (r.StartDevice? || r.StartCode?)
    ensures GoodStep(s.tables, Attempt(s, r, env).value.0.tables)
  {
    match r {
      case StartDevice(u, code, clientId, scope) =>
        StartDeviceRows(s.tables, u, DeviceFlow(PENDING, env.now, clientId, scope, Sha256(code), None));
      case StartCode(uuid, clientId, scope, challenge, redirectUri) =>
        StartFlowRows(s.tables, uuid,
                      AuthorizationFlow(PENDING, env.now, clientId, scope, challenge, redirectUri, None, None));
    }
  }

  lemma ApproveSteps(s: State, r: Request, env: Env)
    requires RowsInv(s.tables) && FreshCode(s, r) && Attempt(s, r, env).Ok? && (r.ApproveDevice? || r.ApproveCode?)
    ensures GoodStep(s.tables, Attempt(s, r, env).value.0.tables)
  {
    match r {
      case ApproveDevice(u, idToken) => ApproveDeviceRows(s.tables, u, idToken);
      case ApproveCode(u, idToken, code) => ApproveFlowRows(s.tables, u, idToken, code);
    }
  }

  lemma RedeemDeviceSteps(s: State, code: string, clientId: string, env: Env)
    requires RowsInv(s.tables) && RedeemDeviceCode(s, code, clientId, env).Ok?
    ensures GoodStep(s.tables, RedeemDeviceCode(s, code, clientId, env).value.0.tables)
  {
    var t := s.tables;
    var id := RedeemDeviceCode(s, code, clientId, env).value.1.identity;
    var u := One(DevicesWith(t, code)).value;
    RedeemDeviceRows(t, code, u);
    InsertTokenRows(t, SetDeviceStatus(t, code, DONE), env.jti, id.sub, t.devices[u].scope);
  }

  lemma RedeemCodeSteps(s: State, r: Request, env: Env)
    requires RowsInv(s.tables) && r.RedeemCode? && RedeemAuthorizationCode(s, r, env).Ok?
    ensures GoodStep(s.tables, RedeemAuthorizationCode(s, r, env).value.0.tables)
  {
    var t := s.tables;
    var id := RedeemAuthorizationCode(s, r, env).value.1.identity;
    var u := One(FlowsWith(t, r.code, env.now - env.settings.codeValidity)).value;
    assert u in FlowsWith(t, r.code, env.now - env.settings.codeValidity);
    RedeemFlowRows(t, r.code, u);
    InsertTokenRows(t, SetFlowStatus(t, r.code, DONE), env.jti, id.sub, t.flows[u].scope);
  }

  lemma RefreshSteps(s: State, jti: Jti, env: Env)
    requires RowsInv(s.tables) && ExchangeRefreshToken(s, jti, env).Ok?
    ensures GoodStep(s.tables, ExchangeRefreshToken(s, jti, env).value.0.tables)
  {
    Idle(s.tables);
    var answer := ExchangeRefreshToken(s, jti, env).value.1;
    if answer.refresh.Some? {
      RevokeTokenRows(s.tables, jti);
      InsertTokenRows(s.tables, RevokeToken(s.tables, jti), env.jti, answer.identity.sub, s.tables.tokens[jti].scope);
    }
  }

  /**
   One request: no row disappears, statuses move one step along PENDING, READY,
   DONE, a stored ID token or code stays, and REVOKED stays.
   */
  lemma ServeSteps(s: State, r: Request, env: Env)
    requires RowsInv(s.tables) && FreshCode(s, r)
    ensures GoodStep(s.tables, Serve(s, r, env).tables)
  {
    Idle(s.tables);
    var outcome := Attempt(s, r, env);
    if outcome.Ok? {
      if r.StartDevice? || r.StartCode? { StartSteps(s, r, env); }
      else if r.ApproveDevice? || r.ApproveCode? { ApproveSteps(s, r, env); }
      else if r.RedeemDevice? { RedeemDeviceSteps(s, r.deviceCode, r.clientId, env); }
      else if r.RedeemCode? { RedeemCodeSteps(s, r, env); }
      else if r.Refresh? { RefreshSteps(s, r.jti, env); }
      else if r.LegacyExchange? {
        InsertTokenRows(s.tables, s.tables, env.jti, outcome.value.1.identity.sub, r.scope);
      } else { RevokeTokenRows(s.tables, r.jti); }
    } else if r.Refresh? && r.jti in s.tables.tokens {
      RevokeSubjectRows(s.tables, s.tables.tokens[r.jti].sub);
    }
  }
}
