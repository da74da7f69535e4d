/**
 When a request to the token service succeeds, for every request: a correct one
 is always served, each error has its own cause, and a login goes through.
 */
module AuthCompleteness {
  import opened Basics
  import opened Scope
  import opened AuthTables
  import opened AuthService
  import opened AuthInvariants

  // ------------------------------------------------------------------
  // A login
  // ------------------------------------------------------------------

  // What a login leaves: one new refresh token, signed and logged, and its user.
  ghost predicate Mints(s: State, out: Outcome, env: Env, grant: Grant, scope: string, id: Identity,
                        legacy: bool, minutes: real) {
    && out.Ok? && out.value.1 == Tokens(id, Some(env.jti))
    && var t := out.value.0;
       && t.tables.tokens == s.tables.tokens[env.jti := RefreshToken(CREATED, scope, id.sub)]
       && t.issued == s.issued[env.jti := Jwt(legacy, (env.mintedAt + minutes * 60.0).Floor as real)]
       && t.family == s.family[env.jti := |s.log|]
       && t.log == s.log + [Minted(grant, id, env.now, |s.log|, Some(env.jti))]
  }

  // `Scope.IdentifyExactly` says who that is.
  ghost predicate Allowed(scope: string, sub: string, env: Env, id: Identity) {
    Identify(scope, sub, env.config, env.available) == Ok(id)
  }

  // Why a user known to the identity provider gets no token.
  ghost predicate Unminted(e: Failure, scope: string, sub: string, s: State, env: Env) {
    var r := Identify(scope, sub, env.config, env.available);
    if r.Err? then e == Refused(r.error) else e == Conflict && env.jti in s.tables.tokens
  }

  lemma RootExactly(s: State, t: Tables, grant: Grant, scope: string, sub: string, legacy: bool, minutes: Option<real>,
                    env: Env, id: Identity)
    requires t.tokens == s.tables.tokens
    ensures var out := MintRoot(s, t, grant, scope, sub, legacy, minutes, env);
            && (Allowed(scope, sub, env, id) && env.jti !in s.tables.tokens ==>
                 && Mints(s, out, env, grant, scope, id, legacy,
                          if minutes.Some? then minutes.value else env.settings.refreshMinutes)
                 && out.value.0.tables.devices == t.devices && out.value.0.tables.flows == t.flows)
            && (out.Ok? && out.value.1 == Tokens(id, Some(env.jti)) ==>
                 Allowed(scope, sub, env, id) && env.jti !in s.tables.tokens)
            && (out.Err? <==> Identify(scope, sub, env.config, env.available).Err? || env.jti in s.tables.tokens)
            && (out.Err? ==> Unminted(out.error, scope, sub, s, env))
  {
  }

  // ------------------------------------------------------------------
  // The authorization-code grant
  // ------------------------------------------------------------------

  // The row a code selects while it is valid.
  predicate CodeRow(s: State, u: Uuid, code: string, env: Env) {
    && u in s.tables.flows && s.tables.flows[u].code == Some(Sha256(code))
    && env.now < s.tables.flows[u].created + env.settings.codeValidity
  }

  // The request answers for the flow.
  predicate CodeFits(row: AuthorizationFlow, clientId: string, redirectUri: string, verifier: string) {
    row.clientId == clientId && row.redirectUri == redirectUri && row.challenge == S256(Sha256(verifier))
  }

  lemma CodeSelects(s: State, u: Uuid, code: string, env: Env)
    requires RowsInv(s.tables) && CodeRow(s, u, code, env)
    ensures One(FlowsWith(s.tables, code, env.now - env.settings.codeValidity)) == Some(u)
  {
    assert FlowsWith(s.tables, code, env.now - env.settings.codeValidity) == {u};
  }

  /** A code that selects no row is unknown, or it is too old. */
  lemma UnknownCode(s: State, code: string, clientId: string, redirectUri: string, verifier: string, env: Env)
    requires RowsInv(s.tables) && forall u :: !CodeRow(s, u, code, env)
    ensures Attempt(s, RedeemCode(code, clientId, redirectUri, verifier), env) == Err(NotFound)
  {
    var rows := FlowsWith(s.tables, code, env.now - env.settings.codeValidity);
    if u :| u in rows { assert CodeRow(s, u, code, env); }
    assert rows == {};
  }

  /**
   A valid code mints exactly if its flow is READY, the request answers for it,
   the user is entitled to the scope, and the drawn jti is new; the answer is the
   identity of the user, and the flow is DONE. Otherwise the first check that
   fails is the error.
   */
  lemma CodeRedeemedExactly(s: State, u: Uuid, code: string, clientId: string, redirectUri: string, verifier: string,
                            env: Env, id: Identity)
    requires RowsInv(s.tables) && CodeRow(s, u, code, env)
    ensures var row := s.tables.flows[u];
            var out := Attempt(s, RedeemCode(code, clientId, redirectUri, verifier), env);
            && (row.status == READY && CodeFits(row, clientId, redirectUri, verifier)
                && Allowed(row.scope, row.idToken.value, env, id) && env.jti !in s.tables.tokens ==>
                 && Mints(s, out, env, ByCode(u, code, clientId, redirectUri, verifier), row.scope, id, false,
                          env.settings.refreshMinutes)
                 && out.value.0.tables.devices == s.tables.devices
                 && out.value.0.tables.flows == s.tables.flows[u := row.(status := DONE)])
            && (out.Ok? && out.value.1 == Tokens(id, Some(env.jti)) ==>
                 && row.status == READY && CodeFits(row, clientId, redirectUri, verifier)
                 && Allowed(row.scope, row.idToken.value, env, id) && env.jti !in s.tables.tokens)
            && (out == Err(AlreadyUsed) <==> row.status == DONE)
            && (out == Err(BadState) <==> row.status in {PENDING, ERROR})
            && (out == Err(BadRedirect) <==> row.status == READY && row.redirectUri != redirectUri)
            && (out == Err(BadClient) <==>
                 row.status == READY && row.redirectUri == redirectUri && row.clientId != clientId)
            && (out == Err(BadVerifier) <==>
                 row.status == READY && row.redirectUri == redirectUri && row.clientId == clientId
                 && !CodeFits(row, clientId, redirectUri, verifier))
            && (out.Err? && row.status == READY && CodeFits(row, clientId, redirectUri, verifier) ==>
                 Unminted(out.error, row.scope, row.idToken.value, s, env))
  {
    CodeSelects(s, u, code, env);
    var row := s.tables.flows[u];
    if row.status == READY && CodeFits(row, clientId, redirectUri, verifier) {
      var t := SetFlowStatus(s.tables, code, DONE);
      assert t.flows == s.tables.flows[u := row.(status := DONE)];
      RootExactly(s, t, ByCode(u, code, clientId, redirectUri, verifier), row.scope, row.idToken.value, false, None,
                  env, id);
    }
  }

  // ------------------------------------------------------------------
  // The device grant
  // ------------------------------------------------------------------

  // The one row a device code selects, however old.
  predicate DeviceRow(s: State, u: UserCode, code: string) {
    && u in s.tables.devices && s.tables.devices[u].deviceCode == Sha256(code)
    && forall v :: v in s.tables.devices && s.tables.devices[v].deviceCode == Sha256(code) ==> v == u
  }

  lemma DeviceSelects(s: State, u: UserCode, code: string)
    requires DeviceRow(s, u, code)
    ensures One(DevicesWith(s.tables, code)) == Some(u)
  {
    assert DevicesWith(s.tables, code) == {u};
  }

  lemma UnknownDevice(s: State, code: string, clientId: string, env: Env)
    requires forall u :: u in s.tables.devices ==> s.tables.devices[u].deviceCode != Sha256(code)
    ensures Attempt(s, RedeemDevice(code, clientId), env) == Err(NotFound)
  {
    assert DevicesWith(s.tables, code) == {};
  }

  /** The same for a device code: its age is an error of its own, and so is a flow that nobody has approved yet. */
  lemma DeviceRedeemedExactly(s: State, u: UserCode, code: string, clientId: string, env: Env, id: Identity)
    requires RowsInv(s.tables) && DeviceRow(s, u, code)
    ensures var row := s.tables.devices[u];
            var out := Attempt(s, RedeemDevice(code, clientId), env);
            var valid := env.now <= row.created + env.settings.deviceValidity;
            && (valid && row.status == READY && row.clientId == clientId
                && Allowed(row.scope, row.idToken.value, env, id) && env.jti !in s.tables.tokens ==>
                 && Mints(s, out, env, ByDevice(u, code), row.scope, id, false, env.settings.refreshMinutes)
                 && out.value.0.tables.devices == s.tables.devices[u := row.(status := DONE)]
                 && out.value.0.tables.flows == s.tables.flows)
            && (out.Ok? && out.value.1 == Tokens(id, Some(env.jti)) ==>
                 && valid && row.status == READY && row.clientId == clientId
                 && Allowed(row.scope, row.idToken.value, env, id) && env.jti !in s.tables.tokens)
            && (out == Err(Expired) <==> !valid)
            && (out == Err(AlreadyUsed) <==> valid && row.status == DONE)
            && (out == Err(Pending) <==> valid && row.status == PENDING)
            && (out == Err(BadState) <==> valid && row.status == ERROR)
            && (out == Err(BadClient) <==> valid && row.status == READY && row.clientId != clientId)
            && (out.Err? && valid && row.status == READY && row.clientId == clientId ==>
                 Unminted(out.error, row.scope, row.idToken.value, s, env))
  {
    DeviceSelects(s, u, code);
    var row := s.tables.devices[u];
    if row.status == READY {
      var t := SetDeviceStatus(s.tables, code, DONE);
      assert t.devices == s.tables.devices[u := row.(status := DONE)];
      RootExactly(s, t, ByDevice(u, code), row.scope, row.idToken.value, false, None, env, id);
    }
  }

  // ------------------------------------------------------------------
  // The refresh grant
  // ------------------------------------------------------------------

  // A token that may be presented: signed, known, not expired.
  predicate Presentable(s: State, jti: Jti, env: Env) {
    jti in s.issued && jti in s.tables.tokens && env.now <= s.issued[jti].expires
  }

  // What a rotation leaves: the old row revoked, and a new one with the same scope and remaining lifetime.
  ghost predicate Rotated(s: State, out: Outcome, env: Env, jti: Jti, id: Identity) {
    && jti in s.tables.tokens && jti in s.issued
    && out.Ok? && out.value.1 == Tokens(id, Some(env.jti))
    && var row := s.tables.tokens[jti];
       var t := out.value.0;
       && t.tables == s.tables.(tokens := s.tables.tokens[jti := row.(status := REVOKED)]
                                                         [env.jti := RefreshToken(CREATED, row.scope, id.sub)])
       && t.issued == s.issued[env.jti := Jwt(false, (env.mintedAt + s.issued[jti].expires - env.now).Floor as real)]
       && t.log == s.log + [Minted(ByRefresh(jti), id, env.now, if jti in s.family then s.family[jti]
                                   else 0, Some(env.jti))]
  }

  /**
   A refresh token that may be presented is rotated exactly if it is not REVOKED,
   the user behind its subject is entitled to its scope, and the drawn jti is new.
   */
  lemma RefreshedExactly(s: State, jti: Jti, user: string, env: Env, id: Identity)
    requires Presentable(s, jti, env) && !s.issued[jti].legacy && AfterColon(s.tables.tokens[jti].sub) == Some(user)
    ensures var row := s.tables.tokens[jti];
            var out := Attempt(s, Refresh(jti), env);
            && (row.status == CREATED && Allowed(row.scope, user, env, id) && env.jti !in s.tables.tokens ==>
                 Rotated(s, out, env, jti, id))
            && (out.Ok? && out.value.1 == Tokens(id, Some(env.jti)) ==>
                 row.status == CREATED && Allowed(row.scope, user, env, id) && env.jti !in s.tables.tokens)
            && (out == Err(ReusedToken) <==> row.status == REVOKED)
            && (out.Err? && row.status == CREATED ==> Unminted(out.error, row.scope, user, s, env))
  {
  }

  function LegacyLogged(s: State, jti: Jti, id: Identity, env: Env): State {
    s.(log := s.log + [Minted(ByRefresh(jti), id, env.now, if jti in s.family then s.family[jti] else 0, None)])
  }

  /**
   A legacy token gives a new access token whenever the user is entitled to it,
   revoked or not, and changes no row.
   */
  lemma LegacyRefreshedExactly(s: State, jti: Jti, user: string, env: Env, id: Identity)
    requires Presentable(s, jti, env) && s.issued[jti].legacy && AfterColon(s.tables.tokens[jti].sub) == Some(user)
    ensures var out := Attempt(s, Refresh(jti), env);
            var who := Identify(s.tables.tokens[jti].scope, user, env.config, env.available);
            && (who == Ok(id) <==> out == Ok((LegacyLogged(s, jti, id, env), Tokens(id, None))))
            && (out.Ok? <==> who.Ok?)
            && (out.Err? ==> out.error == Refused(who.error))
  {
  }

  /** Why a token may not be presented. */
  lemma NotPresentable(s: State, jti: Jti, env: Env)
    ensures var out := Attempt(s, Refresh(jti), env);
            && (out == Err(BadSignature) <==> jti !in s.issued)
            && (out == Err(Expired) <==> jti in s.issued && s.issued[jti].expires < env.now)
            && (out == Err(NotFound) <==>
                 jti in s.issued && env.now <= s.issued[jti].expires && jti !in s.tables.tokens)
            && (out == Err(BadState) <==>
                 && Presentable(s, jti, env) && AfterColon(s.tables.tokens[jti].sub) == None
                 && (s.issued[jti].legacy || s.tables.tokens[jti].status == CREATED))
  {
  }

  // ------------------------------------------------------------------
  // The other requests
  // ------------------------------------------------------------------

  // A scope that somebody could be given.
  ghost predicate Sound(scope: string, env: Env) { SomeAccepted(scope, env.config, env.available) }

  // Why a scope is not acceptable.
  ghost predicate BadScope(e: Scope.Error, scope: string, env: Env) {
    && !Sound(scope, env)
    && e == if DefaultMissing(scope, env.config) then KeyError else ValueError
  }

  /** A device flow starts exactly for the known client and an acceptable scope, under codes that are new. */
  lemma DeviceStartedExactly(s: State, userCode: UserCode, code: string, clientId: string, scope: string, env: Env)
    ensures var out := Attempt(s, StartDevice(userCode, code, clientId, scope), env);
            && (out.Ok? <==> && clientId == env.settings.clientId && Sound(scope, env) && userCode !in s.tables.devices
                             && forall u :: u in s.tables.devices ==> s.tables.devices[u].deviceCode != Sha256(code))
            && (out.Ok? ==> out.value.0 == s.(tables := s.tables.(devices := s.tables.devices[
                  userCode := DeviceFlow(PENDING, env.now, clientId, scope, Sha256(code), None)])))
            && (out == Err(BadClient) <==> clientId != env.settings.clientId)
            && (out.Err? && clientId == env.settings.clientId ==>
                 if Sound(scope, env) then out.error == Conflict
                 else out.error.Refused? && BadScope(out.error.why, scope, env))
  {
    ParseFails(scope, env.config, env.available);
    if u :| u in s.tables.devices && s.tables.devices[u].deviceCode == Sha256(code) {
      assert u in DevicesWith(s.tables, code);
    } else {
      assert DevicesWith(s.tables, code) == {};
    }
  }

  /** A code flow starts exactly for the known client, an allowed redirect URI and an acceptable scope. */
  lemma CodeStartedExactly(s: State, uuid: Uuid, clientId: string, scope: string, challenge: Challenge,
                           redirectUri: string, env: Env)
    ensures var out := Attempt(s, StartCode(uuid, clientId, scope, challenge, redirectUri), env);
            && (out.Ok? <==> && clientId == env.settings.clientId && redirectUri in env.settings.redirects
                             && Sound(scope, env) && uuid !in s.tables.flows)
            && (out.Ok? ==> out.value.0 == s.(tables := s.tables.(flows := s.tables.flows[
                  uuid := AuthorizationFlow(PENDING, env.now, clientId, scope, challenge, redirectUri, None, None)])))
            && (out == Err(BadClient) <==> clientId != env.settings.clientId)
            && (out == Err(BadRedirect) <==>
                 clientId == env.settings.clientId && redirectUri !in env.settings.redirects)
            && (out.Err? && clientId == env.settings.clientId && redirectUri in env.settings.redirects ==>
                 if Sound(scope, env) then out.error == Conflict
                 else out.error.Refused? && BadScope(out.error.why, scope, env))
  {
    ParseFails(scope, env.config, env.available);
  }

  /** The identity provider's answer is stored exactly for a flow that waits and is still valid. */
  lemma ApprovedExactly(s: State, userCode: UserCode, uuid: Uuid, idToken: string, code: string, env: Env)
    ensures var out := Attempt(s, ApproveDevice(userCode, idToken), env);
            && (out.Ok? <==> && userCode in s.tables.devices && s.tables.devices[userCode].status == PENDING
                             && env.now < s.tables.devices[userCode].created + env.settings.deviceValidity)
            && (out.Ok? ==> out.value.0 == s.(tables := s.tables.(devices := s.tables.devices[
                  userCode := s.tables.devices[userCode].(status := READY, idToken := Some(idToken))])))
            && (out.Err? ==> out.error == BadState)
    ensures var out := Attempt(s, ApproveCode(uuid, idToken, code), env);
            && (out.Ok? <==> && uuid in s.tables.flows && s.tables.flows[uuid].status == PENDING
                             && env.now < s.tables.flows[uuid].created + env.settings.codeValidity)
            && (out.Ok? ==> out.value.0 == s.(tables := s.tables.(flows := s.tables.flows[
                  uuid := s.tables.flows[uuid].(status := READY, idToken := Some(idToken),
                                                code := Some(Sha256(code)))])))
            && (out.Err? ==> out.error == BadState)
  {
  }

  /** A legacy exchange mints exactly for an entitled user, with the lifetime asked for, or else the usual one. */
  lemma LegacyExactly(s: State, sub: string, scope: string, minutes: Option<real>, env: Env, id: Identity)
    ensures var out := Attempt(s, LegacyExchange(sub, scope, minutes), env);
            && (Allowed(scope, sub, env, id) && env.jti !in s.tables.tokens ==>
                 && Mints(s, out, env, ByLegacyKey, scope, id, true,
                          if minutes.Some? then minutes.value else env.settings.refreshMinutes)
                 && out.value.0.tables.devices == s.tables.devices && out.value.0.tables.flows == s.tables.flows)
            && (out.Ok? && out.value.1 == Tokens(id, Some(env.jti)) ==>
                 Allowed(scope, sub, env, id) && env.jti !in s.tables.tokens)
            && (out.Err? ==> Unminted(out.error, scope, sub, s, env))
  {
    RootExactly(s, s.tables, ByLegacyKey, scope, sub, true, minutes, env, id);
  }

  // ------------------------------------------------------------------
  // Whole logins
  // ------------------------------------------------------------------

  // The flow of a code login once it is approved.
  lemma CodeLoginPrepared(s: State, uuid: Uuid, code: string, verifier: string, redirectUri: string, scope: string,
                          user: string, start: Env, approve: Env)
    requires RowsInv(s.tables) && uuid !in s.tables.flows && FreshCode(s, ApproveCode(uuid, user, code))
    requires redirectUri in start.settings.redirects && Sound(scope, start)
    requires approve.now < start.now + approve.settings.codeValidity
    ensures var client := start.settings.clientId;
            var s1 := Serve(s, StartCode(uuid, client, scope, S256(Sha256(verifier)), redirectUri), start);
            var s2 := Serve(s1, ApproveCode(uuid, user, code), approve);
            && s2 == s.(tables := s.tables.(flows := s.tables.flows[uuid := AuthorizationFlow(
                 READY, start.now, client, scope, S256(Sha256(verifier)), redirectUri, Some(Sha256(code)),
                     Some(user))]))
            && RowsInv(s2.tables)
  {
    var client := start.settings.clientId;
    CodeStartedExactly(s, uuid, client, scope, S256(Sha256(verifier)), redirectUri, start);
    var s1 := Serve(s, StartCode(uuid, client, scope, S256(Sha256(verifier)), redirectUri), start);
    ApprovedExactly(s1, "", uuid, user, code, approve);
    var s2 := Serve(s1, ApproveCode(uuid, user, code), approve);
    assert s2.tables.flows == s.tables.flows[uuid := AuthorizationFlow(READY, start.now, client, scope,
      S256(Sha256(verifier)), redirectUri, Some(Sha256(code)), Some(user))];
  }

  /**
   A whole authorization-code login: started by the known client with the digest
   of a verifier, approved in time for an entitled user, and redeemed in time
   with that verifier, it gives the user's tokens.
   */
  lemma CodeLoginSucceeds(s: State, uuid: Uuid, code: string, verifier: string, redirectUri: string, scope: string,
                          user: string, start: Env, approve: Env, redeem: Env, id: Identity)
    requires RowsInv(s.tables) && uuid !in s.tables.flows && FreshCode(s, ApproveCode(uuid, user, code))
    requires redirectUri in start.settings.redirects && Sound(scope, start)
    requires approve.now < start.now + approve.settings.codeValidity
    requires redeem.now < start.now + redeem.settings.codeValidity
    requires Identify(scope, user, redeem.config, redeem.available) == Ok(id) && redeem.jti !in s.tables.tokens
    ensures var client := start.settings.clientId;
            var s1 := Serve(s, StartCode(uuid, client, scope, S256(Sha256(verifier)), redirectUri), start);
            var s2 := Serve(s1, ApproveCode(uuid, user, code), approve);
            var out := Attempt(s2, RedeemCode(code, client, redirectUri, verifier), redeem);
            && out.Ok? && out.value.1 == Tokens(id, Some(redeem.jti))
            && Mints(s, out, redeem, ByCode(uuid, code, client, redirectUri, verifier), scope, id, false,
                     redeem.settings.refreshMinutes)
  {
    var client := start.settings.clientId;
    CodeLoginPrepared(s, uuid, code, verifier, redirectUri, scope, user, start, approve);
    var s2 := Serve(Serve(s, StartCode(uuid, client, scope, S256(Sha256(verifier)), redirectUri), start),
                    ApproveCode(uuid, user, code), approve);
    CodeRedeemedExactly(s2, uuid, code, client, redirectUri, verifier, redeem, id);
  }

  // The flow of a device login once it is approved.
  lemma DeviceLoginPrepared(s: State, userCode: UserCode, code: string, scope: string, user: string, start: Env,
                            approve: Env)
    requires RowsInv(s.tables) && userCode !in s.tables.devices && Sound(scope, start)
    requires forall u :: u in s.tables.devices ==> s.tables.devices[u].deviceCode != Sha256(code)
    requires approve.now < start.now + approve.settings.deviceValidity
    ensures var client := start.settings.clientId;
            var s2 := Serve(Serve(s, StartDevice(userCode, code, client, scope), start), ApproveDevice(userCode, user),
                            approve);
            && s2 == s.(tables := s.tables.(devices := s.tables.devices[
                 userCode := DeviceFlow(READY, start.now, client, scope, Sha256(code), Some(user))]))
            && RowsInv(s2.tables)
  {
    var client := start.settings.clientId;
    DeviceStartedExactly(s, userCode, code, client, scope, start);
    var s1 := Serve(s, StartDevice(userCode, code, client, scope), start);
    ApprovedExactly(s1, userCode, "", user, "", approve);
    var s2 := Serve(s1, ApproveDevice(userCode, user), approve);
    assert s2.tables.devices == s.tables.devices[userCode :=
      DeviceFlow(READY, start.now, client, scope, Sha256(code), Some(user))];
  }

  /** A whole device login. */
  lemma DeviceLoginSucceeds(s: State, userCode: UserCode, code: string, scope: string, user: string,
                            start: Env, approve: Env, redeem: Env, id: Identity)
    requires RowsInv(s.tables) && userCode !in s.tables.devices && Sound(scope, start)
    requires forall u :: u in s.tables.devices ==> s.tables.devices[u].deviceCode != Sha256(code)
    requires approve.now < start.now + approve.settings.deviceValidity
    requires redeem.now < start.now + redeem.settings.deviceValidity
    requires Identify(scope, user, redeem.config, redeem.available) == Ok(id) && redeem.jti !in s.tables.tokens
    ensures var client := start.settings.clientId;
            var s1 := Serve(s, StartDevice(userCode, code, client, scope), start);
            var s2 := Serve(s1, ApproveDevice(userCode, user), approve);
            var out := Attempt(s2, RedeemDevice(code, client), redeem);
            && out.Ok? && out.value.1 == Tokens(id, Some(redeem.jti))
            && Mints(s, out, redeem, ByDevice(userCode, code), scope, id, false, redeem.settings.refreshMinutes)
  {
    var client := start.settings.clientId;
    DeviceLoginPrepared(s, userCode, code, scope, user, start, approve);
    var s2 := Serve(Serve(s, StartDevice(userCode, code, client, scope), start), ApproveDevice(userCode, user),
                    approve);
    DeviceRedeemedExactly(s2, userCode, code, client, redeem, id);
  }

  /**
   The refresh token of a login can be rotated until it expires, while the user
   stays entitled to its scope and the VO has no colon in its name.
   */
  lemma LoginCanBeRefreshed(s: State, out: Outcome, env: Env, grant: Grant, scope: string, id: Identity, minutes: real,
                            user: string, later: Env, next: Identity)
    requires Mints(s, out, env, grant, scope, id, false, minutes) && id.sub == id.vo + ":" + user && ColonFree(id.vo)
    requires later.now <= (env.mintedAt + minutes * 60.0).Floor as real
    requires Identify(scope, user, later.config, later.available) == Ok(next)
    requires later.jti !in out.value.0.tables.tokens
    ensures var again := Attempt(out.value.0, Refresh(env.jti), later);
            again.Ok? && again.value.1 == Tokens(next, Some(later.jti))
                && Rotated(out.value.0, again, later, env.jti, next)
  {
    SubjectRoundTrip(id.vo, user);
    RefreshedExactly(out.value.0, env.jti, user, later, next);
  }
}
