/** Who a flow is for: the one known client, a registered redirect URI, and the owner of a token. */
module AuthRegistration {
  import opened Basics
  import opened AuthTables
  import opened AuthService
  import opened AuthInvariants
  import opened AuthLog
  import opened AuthRuns

  ghost predicate Registered(t: Tables, v: Settings) {
    && (forall u :: u in t.devices ==> t.devices[u].clientId == v.clientId)
    && (forall u :: u in t.flows ==> t.flows[u].clientId == v.clientId && t.flows[u].redirectUri in v.redirects)
  }

  // The only rows a request can add to the flow tables.
  ghost predicate NewFlows(a: Tables, b: Tables, v: Settings) {
    && (forall u :: u in b.devices && u !in a.devices ==> b.devices[u].clientId == v.clientId)
    && (forall u :: u in b.flows && u !in a.flows ==>
        b.flows[u].clientId == v.clientId && b.flows[u].redirectUri in v.redirects)
  }

  lemma RootAddsNoFlow(s: State, t: Tables, grant: Grant, scope: string, sub: string, legacy: bool,
                       minutes: Option<real>, env: Env)
    requires MintRoot(s, t, grant, scope, sub, legacy, minutes, env).Ok?
    ensures var u := MintRoot(s, t, grant, scope, sub, legacy, minutes, env).value.0.tables;
            u.devices == t.devices && u.flows == t.flows
  {
  }

  lemma StartAdds(s: State, r: Request, env: Env)
    requires Attempt(s, r, env).Ok? && (r.StartDevice? || r.StartCode?)
    ensures NewFlows(s.tables, Attempt(s, r, env).value.0.tables, env.settings)
  {
  }

  lemma ApproveAdds(s: State, r: Request, env: Env)
    requires Attempt(s, r, env).Ok? && (r.ApproveDevice? || r.ApproveCode?)
    ensures NewFlows(s.tables, Attempt(s, r, env).value.0.tables, env.settings)
  {
  }

  lemma RedeemDeviceAdds(s: State, code: string, clientId: string, env: Env)
    requires RedeemDeviceCode(s, code, clientId, env).Ok?
    ensures NewFlows(s.tables, RedeemDeviceCode(s, code, clientId, env).value.0.tables, env.settings)
  {
    var u := One(DevicesWith(s.tables, code)).value;
    var row := s.tables.devices[u];
    RootAddsNoFlow(s, SetDeviceStatus(s.tables, code, DONE), ByDevice(u, code), row.scope, row.idToken.value, false,
                   None, env);
  }

  lemma RedeemCodeAdds(s: State, r: Request, env: Env)
    requires r.RedeemCode? && RedeemAuthorizationCode(s, r, env).Ok?
    ensures NewFlows(s.tables, RedeemAuthorizationCode(s, r, env).value.0.tables, env.settings)
  {
    var u := One(FlowsWith(s.tables, r.code, env.now - env.settings.codeValidity)).value;
    assert u in FlowsWith(s.tables, r.code, env.now - env.settings.codeValidity);
    var row := s.tables.flows[u];
    RootAddsNoFlow(s, SetFlowStatus(s.tables, r.code, DONE), ByCode(u, r.code, r.clientId, r.redirectUri, r.verifier),
                   row.scope, row.idToken.value, false, None, env);
  }

  lemma TokensAdd(s: State, r: Request, env: Env)
    requires Attempt(s, r, env).Ok? && (r.Refresh? || r.LegacyExchange? || r.Revoke?)
    ensures NewFlows(s.tables, Attempt(s, r, env).value.0.tables, env.settings)
  {
  }

  lemma AttemptAdds(s: State, r: Request, env: Env)
    requires Attempt(s, r, env).Ok?
    ensures NewFlows(s.tables, Attempt(s, r, env).value.0.tables, env.settings)
  {
    match r {
      case RedeemDevice(code, clientId) => RedeemDeviceAdds(s, code, clientId, env);
      case RedeemCode(_, _, _, _) => RedeemCodeAdds(s, r, env);
      case StartDevice(_, _, _, _) => StartAdds(s, r, env);
      case StartCode(_, _, _, _, _) => StartAdds(s, r, env);
      case ApproveDevice(_, _) => ApproveAdds(s, r, env);
      case ApproveCode(_, _, _) => ApproveAdds(s, r, env);
      case _ => TokensAdd(s, r, env);
    }
  }

  lemma ServeRegistered(s: State, r: Request, env: Env)
    requires RowsInv(s.tables) && FreshCode(s, r) && Registered(s.tables, env.settings)
    ensures Registered(Serve(s, r, env).tables, env.settings)
  {
    ServeSteps(s, r, env);
    if Attempt(s, r, env).Ok? { AttemptAdds(s, r, env); }
    StaysRegistered(s.tables, Serve(s, r, env).tables, env.settings);
  }

  lemma StaysRegistered(a: Tables, b: Tables, v: Settings)
    requires Registered(a, v) && Advances(a, b) && NewFlows(a, b, v)
    ensures Registered(b, v)
  {
    forall u | u in b.devices ensures b.devices[u].clientId == v.clientId {
      if u in a.devices { assert DeviceAdvances(a.devices[u], b.devices[u]); }
    }
    forall u | u in b.flows ensures b.flows[u].clientId == v.clientId && b.flows[u].redirectUri in v.redirects {
      if u in a.flows { assert FlowAdvances(a.flows[u], b.flows[u]); }
    }
  }

  lemma {:induction false} RunRegistered(s: State, steps: seq<Step>, v: Settings)
    requires ServiceInv(s, v) && Registered(s.tables, v) && Runs(s, steps, v)
    ensures Registered(After(s, steps).tables, v)
    decreases |steps|
  {
    if steps != [] {
      var r, env := steps[0].request, steps[0].env;
      ServeRegistered(s, r, env);
      ServeSteps(s, r, env);
      ServeLog(s, r, env);
      ServeFamilies(s, r, env);
      RunRegistered(Serve(s, r, env), steps[1..], v);
    }
  }

  /** Over any run a code is only ever redeemed for the known client, at a redirect URI of the allowed list. */
  lemma OnlyRegisteredClients(steps: seq<Step>, v: Settings, i: nat)
    requires Runs(START, steps, v) && i < |After(START, steps).log|
    ensures var e := After(START, steps).log[i];
            e.Minted? && e.grant.ByCode? ==> e.grant.clientId == v.clientId && e.grant.redirectUri in v.redirects
  {
    StartInv(v);
    RunRegistered(START, steps, v);
    SingleUseTheorem(steps, v);
    assert EntryOk(After(START, steps).log[i], After(START, steps), v);
  }

  /** A revocation touches one token, and a subject that is given must own it. */
  lemma RevokesOnlyOwn(s: State, jti: Jti, owner: Option<string>, env: Env)
    ensures var t := Serve(s, Revoke(jti, owner), env);
            var allowed := jti in s.tables.tokens && (owner.Some? ==> s.tables.tokens[jti].sub == owner.value);
            && (Attempt(s, Revoke(jti, owner), env).Ok? <==> allowed)
            && (Attempt(s, Revoke(jti, owner), env) == Err(NotFound) <==> jti !in s.tables.tokens)
            && (Attempt(s, Revoke(jti, owner), env) == Err(NotOwner) <==> !allowed && jti in s.tables.tokens)
            && t.tables.tokens.Keys == s.tables.tokens.Keys
            && forall j :: j in s.tables.tokens ==>
                 t.tables.tokens[j].status == if allowed && j == jti then REVOKED else s.tables.tokens[j].status
  {
  }
}
