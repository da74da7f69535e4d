/**
 `AuthDB` as an object with a transaction, and the token endpoint that runs
 against it statement by statement.
 */
module AuthObject {
  import opened Basics
  import opened Scope
  import opened AuthTables
  import opened AuthService
  import opened AuthInvariants

  const MAX_RETRY := 5

  class AuthDB {
    var tables: Tables
    var committed: Tables

    constructor ()
      ensures tables == committed == NO_ROWS
    {
      tables, committed := NO_ROWS, NO_ROWS;
    }

    method Commit()
      modifies this
      ensures tables == committed == old(tables)
    {
      committed := tables;
    }

    method Rollback()
      modifies this
      ensures tables == committed == old(committed)
    {
      tables := committed;
    }

    // Draws codes until the insert meets no conflict, five times at most.
    method InsertDeviceFlow(clientId: string, scope: string, draws: seq<(UserCode, string)>, now: real)
      returns (r: Option<(UserCode, string)>)
      requires |draws| == MAX_RETRY
      modifies this`tables
      ensures r.None? <==> forall i :: 0 <= i < MAX_RETRY ==> DeviceConflict(old(tables), draws[i].0, draws[i].1)
      ensures r.None? ==> tables == old(tables)
      ensures r.Some? ==>
        && (exists i :: 0 <= i < MAX_RETRY && r.value == draws[i]
             && !DeviceConflict(old(tables), draws[i].0, draws[i].1)
             && forall j :: 0 <= j < i ==> DeviceConflict(old(tables), draws[j].0, draws[j].1))
        && tables == InsertDevice(old(tables), r.value.0,
                                  DeviceFlow(PENDING, now, clientId, scope, Sha256(r.value.1), None))
    {
      for i := 0 to MAX_RETRY
        invariant tables == old(tables)
        invariant forall j :: 0 <= j < i ==> DeviceConflict(tables, draws[j].0, draws[j].1)
      {
        var (userCode, deviceCode) := draws[i];
        if !DeviceConflict(tables, userCode, deviceCode) {
          tables := InsertDevice(tables, userCode, DeviceFlow(PENDING, now, clientId, scope, Sha256(deviceCode), None));
          return Some(draws[i]);
        }
      }
      r := None;
    }

    // UPDATE ... WHERE on the device table; the count of its rows decides.
    method DeviceFlowInsertIdToken(userCode: UserCode, idToken: string, validSince: real) returns (stored: bool)
      modifies this`tables
      ensures stored <==> DeviceWaits(old(tables), userCode, validSince)
      ensures tables == if stored then StoreDeviceIdToken(old(tables), userCode, idToken) else old(tables)
    {
      var matched := set u | u in tables.devices && u == userCode
                             && tables.devices[u].status == PENDING && tables.devices[u].created > validSince;
      assert matched == if DeviceWaits(tables, userCode, validSince) then {userCode} else {};
      ghost var before := tables;
      tables := tables.(devices := map u | u in tables.devices ::
        if u in matched then tables.devices[u].(idToken := Some(idToken), status := READY) else tables.devices[u]);
      stored := |matched| == 1;
      if !stored { assert tables.devices == before.devices; }
    }

    // The same for authorization flows, and then the row is read back.
    method AuthorizationFlowInsertIdToken(uuid: Uuid, idToken: string, code: string, validSince: real)
      returns (redirectUri: Option<string>)
      modifies this`tables
      ensures redirectUri.Some? <==> FlowWaits(old(tables), uuid, validSince)
      ensures tables == if redirectUri.Some? then StoreFlowIdToken(old(tables), uuid, idToken, code) else old(tables)
      ensures redirectUri.Some? ==> redirectUri.value == old(tables).flows[uuid].redirectUri
    {
      var matched := set u | u in tables.flows && u == uuid
                             && tables.flows[u].status == PENDING && tables.flows[u].created > validSince;
      assert matched == if FlowWaits(tables, uuid, validSince) then {uuid} else {};
      ghost var before := tables;
      tables := tables.(flows := map u | u in tables.flows ::
        if u in matched then tables.flows[u].(idToken := Some(idToken), code := Some(Sha256(code)), status := READY)
        else tables.flows[u]);
      if |matched| != 1 {
        assert tables.flows == before.flows;
        return None;
      }
      redirectUri := Some(tables.flows[uuid].redirectUri);
    }
  }

  /**
   The end of the device login at the identity provider, as one transaction: the
   flow that waits for this user code, and no other, becomes READY with the ID
   token of the user; a second answer for it is an error that changes nothing.
   */
  method FinishDeviceFlow(db: AuthDB, ghost s: State, userCode: UserCode, idToken: string, env: Env)
    returns (r: Result<Answer, Failure>)
    requires db.tables == db.committed == s.tables && RowsInv(s.tables)
    modifies db
    ensures db.tables == db.committed == Serve(s, ApproveDevice(userCode, idToken), env).tables
    ensures GoodStep(s.tables, db.committed)
    ensures r.Ok? ==> (
      && userCode in s.tables.devices && s.tables.devices[userCode].status == PENDING
      && db.committed.devices[userCode].status == READY && db.committed.devices[userCode].idToken == Some(idToken)
      && forall other ::
           Attempt(s.(tables := db.committed), ApproveDevice(userCode, other), env) == Err(BadState))
    ensures r.Err? ==> db.committed == s.tables && r.error == BadState
    ensures r.Ok? <==> Attempt(s, ApproveDevice(userCode, idToken), env).Ok?
  {
    ServeSteps(s, ApproveDevice(userCode, idToken), env);
    var stored := db.DeviceFlowInsertIdToken(userCode, idToken, env.now - env.settings.deviceValidity);
    if stored {
      db.Commit();
      r := Ok(Done);
    } else {
      db.Rollback();
      r := Err(BadState);
    }
  }

  /**
   The end of the authorization-code login: the same, and the code handed out
   can afterwards be redeemed, at the redirect URI returned, by whoever holds
   the verifier of the flow.
   */
  method FinishAuthorizationFlow(db: AuthDB, ghost s: State, uuid: Uuid, idToken: string, code: string, env: Env)
    returns (r: Result<string, Failure>)
    requires db.tables == db.committed == s.tables && RowsInv(s.tables)
    requires FreshCode(s, ApproveCode(uuid, idToken, code))
    modifies db
    ensures db.tables == db.committed == Serve(s, ApproveCode(uuid, idToken, code), env).tables
    ensures GoodStep(s.tables, db.committed)
    ensures r.Ok? ==> (
      && uuid in s.tables.flows && s.tables.flows[uuid].redirectUri == r.value
      && FlowsWith(s.tables, code, env.now - env.settings.codeValidity) == {}
      && FlowsWith(db.committed, code, env.now - env.settings.codeValidity) == {uuid}
      && db.committed.flows[uuid].status == READY && db.committed.flows[uuid].idToken == Some(idToken)
      && forall other, next ::
           Attempt(s.(tables := db.committed), ApproveCode(uuid, other, next), env) == Err(BadState))
    ensures r.Err? ==> db.committed == s.tables && r.error == BadState
    ensures r.Ok? <==> Attempt(s, ApproveCode(uuid, idToken, code), env).Ok?
  {
    ServeSteps(s, ApproveCode(uuid, idToken, code), env);
    var redirectUri := db.AuthorizationFlowInsertIdToken(uuid, idToken, code, env.now - env.settings.codeValidity);
    if redirectUri.Some? {
      db.Commit();
      r := Ok(redirectUri.value);
    } else {
      db.Rollback();
      r := Err(BadState);
    }
  }

  // `.one()` on the rows a statement selects.
  method FetchOne(rows: set<string>) returns (r: Option<string>)
    ensures r == One(rows)
  {
    if |rows| != 1 { return None; }
    var row :| row in rows;
    r := Some(row);
  }

  // `get_device_flow`: marks a READY flow DONE and returns it as it was.
  method GetDeviceFlow(db: AuthDB, code: string, env: Env) returns (r: Result<(UserCode, DeviceFlow), Failure>)
    modifies db`tables
    ensures r.Ok? ==> One(DevicesWith(old(db.tables), code)) == Some(r.value.0) && r.value.0 in old(db.tables).devices
    ensures r.Ok? ==> (
      && r.value.1 == old(db.tables).devices[r.value.0] && r.value.1.status == READY
      && !(r.value.1.created < env.now - env.settings.deviceValidity))
    ensures db.tables == if r.Ok? then SetDeviceStatus(old(db.tables), code, DONE) else old(db.tables)
    ensures r.Err? ==>
      var found := One(DevicesWith(old(db.tables), code));
      r.error == if found.None? then NotFound
        else if db.tables.devices[found.value].created < env.now - env.settings.deviceValidity then Expired
        else if db.tables.devices[found.value].status == DONE then AlreadyUsed
        else if db.tables.devices[found.value].status == PENDING then Pending
        else BadState
    ensures r.Err? && r.error == BadState ==> (
      && One(DevicesWith(db.tables, code)).Some?
      && db.tables.devices[One(DevicesWith(db.tables, code)).value].status == ERROR)
  {
    var found := FetchOne(DevicesWith(db.tables, code));
    if found.None? { return Err(NotFound); }
    var row := db.tables.devices[found.value];
    if row.created < env.now - env.settings.deviceValidity { return Err(Expired); }
    if row.status == READY {
      db.tables := SetDeviceStatus(db.tables, code, DONE);
      return Ok((found.value, row));
    }
    if row.status == DONE { return Err(AlreadyUsed); }
    if row.status == PENDING { return Err(Pending); }
    r := Err(BadState);
  }

  function Lifetime(minutes: Option<real>, env: Env): real {
    if minutes.Some? then minutes.value else env.settings.refreshMinutes
  }

  // What a grant gives: the answer, and the signed part of the refresh token in it.
  datatype Granted = Granted(answer: Answer, jwt: Option<Jwt>)

  // `outcome` as a grant sees it.
  ghost function GrantOf(outcome: Outcome, jti: Jti): Result<Granted, Failure> {
    match outcome
    case Err(e) => Err(e)
    case Ok((t, answer)) =>
      var minted := answer.Tokens? && answer.refresh == Some(jti) && jti in t.issued;
      Ok(Granted(answer, if minted then Some(t.issued[jti]) else None))
  }

  // `exchange_token`: the row and the signed part of a rotating refresh token.
  method MintLogin(db: AuthDB, scope: string, sub: string, minutes: Option<real>, env: Env)
    returns (r: Result<Granted, Failure>)
    modifies db`tables
    ensures var id := Identify(scope, sub, env.config, env.available);
            if id.Err? then r == Err(Refused(id.error)) && db.tables == old(db.tables)
            else if env.jti in old(db.tables).tokens then r == Err(Conflict) && db.tables == old(db.tables)
            else
              && r.Ok? && r.value.answer == Tokens(id.value, Some(env.jti))
              && r.value.jwt == Some(Jwt(false, WholeSeconds(env.mintedAt + 60.0 * Lifetime(minutes, env))))
              && db.tables == InsertToken(old(db.tables), env.jti, id.value.sub, scope)
  {
    var id := ExchangeToken(scope, sub, env.config, env.available);
    if id.Err? { return Err(Refused(id.error)); }
    if env.jti in db.tables.tokens { return Err(Conflict); }
    db.tables := InsertToken(db.tables, env.jti, id.value.sub, scope);
    var lifetime := if minutes.None? then env.settings.refreshMinutes else minutes.value;
    var jwt := Jwt(false, WholeSeconds(env.mintedAt + 60.0 * lifetime));
    r := Ok(Granted(Tokens(id.value, Some(env.jti)), Some(jwt)));
  }

  // The end of a transaction that mints: committed with its token, or rolled back.
  method MintAndClose(db: AuthDB, scope: string, sub: string, minutes: Option<real>, env: Env)
    returns (r: Result<Granted, Failure>)
    modifies db
    ensures var id := Identify(scope, sub, env.config, env.available);
            if id.Err? then r == Err(Refused(id.error)) && db.tables == db.committed == old(db.committed)
            else if env.jti in old(db.tables).tokens then r == Err(Conflict)
                && db.tables == db.committed == old(db.committed)
            else
              && r.Ok? && r.value.answer == Tokens(id.value, Some(env.jti))
              && r.value.jwt == Some(Jwt(false, WholeSeconds(env.mintedAt + 60.0 * Lifetime(minutes, env))))
              && db.tables == db.committed == InsertToken(old(db.tables), env.jti, id.value.sub, scope)
  {
    r := MintLogin(db, scope, sub, minutes, env);
    if r.Ok? { db.Commit(); } else { db.Rollback(); }
  }

  // The same for a login of a device or of a code.
  method MintRootAndClose(db: AuthDB, ghost s: State, ghost grant: Grant, scope: string, sub: string, env: Env)
    returns (r: Result<Granted, Failure>)
    requires db.committed == s.tables && db.tables.tokens == s.tables.tokens
    modifies db
    ensures var outcome := MintRoot(s, old(db.tables), grant, scope, sub, false, None, env);
            && db.tables == db.committed
            && db.tables == (if outcome.Ok? then outcome.value.0.tables else s.tables)
            && r == GrantOf(outcome, env.jti)
  {
    r := MintAndClose(db, scope, sub, None, env);
  }

  /** The device grant as one transaction: what it commits is what `Serve` says, and so is its answer. */
  method DeviceGrant(db: AuthDB, ghost s: State, code: string, clientId: string, env: Env)
    returns (r: Result<Granted, Failure>)
    requires db.tables == db.committed == s.tables
    modifies db
    ensures db.tables == db.committed == Serve(s, RedeemDevice(code, clientId), env).tables
    ensures r == GrantOf(Attempt(s, RedeemDevice(code, clientId), env), env.jti)
  {
    var flow := GetDeviceFlow(db, code, env);
    if flow.Err? { db.Rollback(); return Err(flow.error); }
    var row := flow.value.1;
    if row.idToken.None? { db.Rollback(); return Err(BadState); }
    if row.clientId != clientId { db.Rollback(); return Err(BadClient); }
    r := MintRootAndClose(db, s, ByDevice(flow.value.0, code), row.scope, row.idToken.value, env);
  }

  /** The authorization-code grant as one transaction. */
  method CodeGrant(db: AuthDB, ghost s: State, code: string, clientId: string, redirectUri: string, verifier: string,
                   env: Env)
    returns (r: Result<Granted, Failure>)
    requires db.tables == db.committed == s.tables
    modifies db
    ensures db.tables == db.committed == Serve(s, RedeemCode(code, clientId, redirectUri, verifier), env).tables
    ensures r == GrantOf(Attempt(s, RedeemCode(code, clientId, redirectUri, verifier), env), env.jti)
  {
    var found := FetchOne(FlowsWith(db.tables, code, env.now - env.settings.codeValidity));
    if found.None? { return Err(NotFound); }
    var row := db.tables.flows[found.value];
    if row.status == DONE { return Err(AlreadyUsed); }
    if row.status != READY || row.idToken.None? { return Err(BadState); }
    db.tables := SetFlowStatus(db.tables, code, DONE);
    if row.redirectUri != redirectUri { db.Rollback(); return Err(BadRedirect); }
    if row.clientId != clientId { db.Rollback(); return Err(BadClient); }
    if row.challenge != S256(Sha256(verifier)) { db.Rollback(); return Err(BadVerifier); }
    r := MintRootAndClose(db, s, ByCode(found.value, code, clientId, redirectUri, verifier), row.scope,
                          row.idToken.value, env);
  }

  /**
   The refresh grant. A reused token revokes the whole subject and commits that
   before it raises; every other error rolls the rotation back.
   */
  method RefreshGrant(db: AuthDB, ghost s: State, jti: Jti, jwt: Option<Jwt>, env: Env)
    returns (r: Result<Granted, Failure>)
    requires db.tables == db.committed == s.tables
    requires jwt == if jti in s.issued then Some(s.issued[jti]) else None
    modifies db
    ensures db.tables == db.committed == Serve(s, Refresh(jti), env).tables
    ensures r == GrantOf(Attempt(s, Refresh(jti), env), env.jti)
  {
    if jwt.None? { return Err(BadSignature); }
    if jwt.value.expires < env.now { return Err(Expired); }
    if jti !in db.tables.tokens { return Err(NotFound); }
    var row := db.tables.tokens[jti];
    if !jwt.value.legacy {
      if row.status == REVOKED {
        db.tables := RevokeSubject(db.tables, row.sub);
        db.Commit();
        db.Rollback();
        return Err(ReusedToken);
      }
      db.tables := RevokeToken(db.tables, jti);
    }
    var user := AfterColon(row.sub);
    if user.None? { db.Rollback(); return Err(BadState); }
    if jwt.value.legacy {
      var id := ExchangeToken(row.scope, user.value, env.config, env.available);
      if id.Err? { db.Rollback(); return Err(Refused(id.error)); }
      db.Commit();
      r := Ok(Granted(Tokens(id.value, None), None));
    } else {
      var remaining := (jwt.value.expires - env.now) / 60.0;
      r := MintAndClose(db, row.scope, user.value, Some(remaining), env);
    }
  }
}
