/**
 The token endpoint as a state machine. Each request is a transaction: it
 commits when it answers and is rolled back when it raises, except that the
 reuse of a revoked refresh token commits its revocations before raising.

 Transactions are serialised (the reads are FOR UPDATE). `issued`, `family` and
 `log` are history: what was signed, which login a token descends from, and
 every answer that matters, in order.
 */
module AuthService {
  import opened Basics
  import opened Scope
  import opened AuthTables

  datatype Settings = Settings(
    clientId: string, redirects: set<string>, deviceValidity: real, codeValidity: real, refreshMinutes: real)

  // A JWT stores its `exp` claim in whole seconds.
  function WholeSeconds(at: real): real { at.Floor as real }

  // The signed part of a refresh token.
  datatype Jwt = Jwt(legacy: bool, expires: real)

  datatype Grant =
    | ByDevice(userCode: UserCode, deviceCode: string)
    | ByCode(uuid: Uuid, code: string, clientId: string, redirectUri: string, verifier: string)
    | ByRefresh(jti: Jti)
    | ByLegacyKey
  {
    predicate Login() { ByDevice? || ByCode? }
  }

  // `family` is the position in the log of the login behind the token.
  datatype Entry =
    | Minted(grant: Grant, identity: Identity, at: real, family: nat, refresh: Option<Jti>)
    | ReuseDetected(sub: string, jti: Jti)

  datatype State = State(
    tables: Tables, issued: map<Jti, Jwt>, family: map<Jti, nat>, log: seq<Entry>)

  const START := State(NO_ROWS, map[], map[], [])

  // What a request finds besides the tables: the configuration of the moment,
  // the jti it draws, and when it draws it.
  datatype Env = Env(config: Config, available: set<string>, settings: Settings, now: real, jti: Jti, mintedAt: real)

  datatype Request =
    | StartDevice(userCode: UserCode, deviceCode: string, clientId: string, scope: string)
    | ApproveDevice(userCode: UserCode, idToken: string)
    | RedeemDevice(deviceCode: string, clientId: string)
    | StartCode(uuid: Uuid, clientId: string, scope: string, challenge: Challenge, redirectUri: string)
    | ApproveCode(uuid: Uuid, idToken: string, code: string)
    | RedeemCode(code: string, clientId: string, redirectUri: string, verifier: string)
    | Refresh(jti: Jti)
    | LegacyExchange(sub: string, scope: string, expiresMinutes: Option<real>)
    | Revoke(jti: Jti, owner: Option<string>)

  datatype Failure =
    | NotFound | Expired | Pending | AlreadyUsed | BadState | BadClient | BadRedirect | BadVerifier
    | BadSignature | ReusedToken | NotOwner | Conflict | Refused(why: Scope.Error)

  datatype Answer = Done | Tokens(identity: Identity, refresh: Option<Jti>)

  type Outcome = Result<(State, Answer), Failure>

  // ------------------------------------------------------------------
  // exchange_token
  // ------------------------------------------------------------------

  // A login, or a legacy exchange: a new family, rooted at this log entry.
  ghost function MintRoot(s: State, t: Tables, grant: Grant, scope: string, sub: string,
    legacy: bool, minutes: Option<real>, env: Env): Outcome
  {
    var identity := Identify(scope, sub, env.config, env.available);
    if identity.Err? then Err(Refused(identity.error))
    else if env.jti in s.tables.tokens then Err(Conflict)
    else
      var id := identity.value;
      var lifetime := if minutes.Some? then minutes.value else env.settings.refreshMinutes;
      Ok((State(InsertToken(t, env.jti, id.sub, scope),
                s.issued[env.jti := Jwt(legacy, WholeSeconds(env.mintedAt + 60.0 * lifetime))],
                s.family[env.jti := |s.log|],
                s.log + [Minted(grant, id, env.now, |s.log|, Some(env.jti))]),
          Tokens(id, Some(env.jti))))
  }

  ghost function RedeemDeviceCode(s: State, code: string, clientId: string, env: Env): Outcome {
    var found := One(DevicesWith(s.tables, code));
    if found.None? then Err(NotFound)
    else
      var row := s.tables.devices[found.value];
      if row.created < env.now - env.settings.deviceValidity then Err(Expired)
      else if row.status == DONE then Err(AlreadyUsed)
      else if row.status == PENDING then Err(Pending)
      else if row.status != READY || row.idToken.None? then Err(BadState)
      else if row.clientId != clientId then Err(BadClient)
      else MintRoot(s, SetDeviceStatus(s.tables, code, DONE), ByDevice(found.value, code),
                    row.scope, row.idToken.value, false, None, env)
  }

  ghost function RedeemAuthorizationCode(s: State, r: Request, env: Env): Outcome
    requires r.RedeemCode?
  {
    var found := One(FlowsWith(s.tables, r.code, env.now - env.settings.codeValidity));
    if found.None? then Err(NotFound)
    else
      var row := s.tables.flows[found.value];
      if row.status == DONE then Err(AlreadyUsed)
      else if row.status != READY || row.idToken.None? then Err(BadState)
      else if row.redirectUri != r.redirectUri then Err(BadRedirect)
      else if row.clientId != r.clientId then Err(BadClient)
      else if row.challenge != S256(Sha256(r.verifier)) then Err(BadVerifier)
      else MintRoot(s, SetFlowStatus(s.tables, r.code, DONE),
                    ByCode(found.value, r.code, r.clientId, r.redirectUri, r.verifier),
                    row.scope, row.idToken.value, false, None, env)
  }

  // The refresh grant. A legacy token gets a new access token and nothing else.
  ghost function ExchangeRefreshToken(s: State, jti: Jti, env: Env): Outcome {
    if jti !in s.issued then Err(BadSignature)
    else if s.issued[jti].expires < env.now then Err(Expired)
    else if jti !in s.tables.tokens then Err(NotFound)
    else
      var row, jwt := s.tables.tokens[jti], s.issued[jti];
      if !jwt.legacy && row.status == REVOKED then Err(ReusedToken)
      else
        var user := AfterColon(row.sub);
        if user.None? then Err(BadState)
        else
          var identity := Identify(row.scope, user.value, env.config, env.available);
          if identity.Err? then Err(Refused(identity.error))
          else
            var id := identity.value;
            var root := if jti in s.family then s.family[jti] else 0;
            if jwt.legacy then
              Ok((s.(log := s.log + [Minted(ByRefresh(jti), id, env.now, root, None)]), Tokens(id, None)))
            else if env.jti in s.tables.tokens then Err(Conflict)
            else
              var t := InsertToken(RevokeToken(s.tables, jti), env.jti, id.sub, row.scope);
              Ok((State(t,
                        s.issued[env.jti := Jwt(false, WholeSeconds(env.mintedAt + (jwt.expires - env.now)))],
                        s.family[env.jti := root],
                        s.log + [Minted(ByRefresh(jti), id, env.now, root, Some(env.jti))]),
                  Tokens(id, Some(env.jti))))
  }

  ghost function Attempt(s: State, r: Request, env: Env): Outcome {
    var t := s.tables;
    match r
    case StartDevice(userCode, deviceCode, clientId, scope) =>
      if clientId != env.settings.clientId then Err(BadClient)
      else if Parse(scope, env.config, env.available).Err? then
        Err(Refused(Parse(scope, env.config, env.available).error))
      else if DeviceConflict(t, userCode, deviceCode) then Err(Conflict)
      else
        var row := DeviceFlow(PENDING, env.now, clientId, scope, Sha256(deviceCode), None);
        Ok((s.(tables := InsertDevice(t, userCode, row)), Done))
    case ApproveDevice(userCode, idToken) =>
      if !DeviceWaits(t, userCode, env.now - env.settings.deviceValidity) then Err(BadState)
      else Ok((s.(tables := StoreDeviceIdToken(t, userCode, idToken)), Done))
    case RedeemDevice(deviceCode, clientId) => RedeemDeviceCode(s, deviceCode, clientId, env)
    case StartCode(uuid, clientId, scope, challenge, redirectUri) =>
      if clientId != env.settings.clientId then Err(BadClient)
      else if redirectUri !in env.settings.redirects then Err(BadRedirect)
      else if Parse(scope, env.config, env.available).Err? then
        Err(Refused(Parse(scope, env.config, env.available).error))
      else if uuid in t.flows then Err(Conflict)
      else Ok((s.(tables := t.(flows := t.flows[uuid :=
             AuthorizationFlow(PENDING, env.now, clientId, scope, challenge, redirectUri, None, None)])), Done))
    case ApproveCode(uuid, idToken, code) =>
      if !FlowWaits(t, uuid, env.now - env.settings.codeValidity) then Err(BadState)
      else Ok((s.(tables := StoreFlowIdToken(t, uuid, idToken, code)), Done))
    case RedeemCode(_, _, _, _) => RedeemAuthorizationCode(s, r, env)
    case Refresh(jti) => ExchangeRefreshToken(s, jti, env)
    case LegacyExchange(sub, scope, expires) => MintRoot(s, t, ByLegacyKey, scope, sub, true, expires, env)
    case Revoke(jti, owner) =>
      if jti !in t.tokens then Err(NotFound)
      else if owner.Some? && owner.value != t.tokens[jti].sub then Err(NotOwner)
      else Ok((s.(tables := RevokeToken(t, jti)), Done))
  }

  // The state after the transaction.
  ghost function Serve(s: State, r: Request, env: Env): State {
    var outcome := Attempt(s, r, env);
    if outcome.Ok? then outcome.value.0
    else if r.Refresh? && outcome.error.ReusedToken? && r.jti in s.tables.tokens then
      var sub := s.tables.tokens[r.jti].sub;
      s.(tables := RevokeSubject(s.tables, sub), log := s.log + [ReuseDetected(sub, r.jti)])
    else s
  }
}
