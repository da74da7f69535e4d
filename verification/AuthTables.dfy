/**
 The three tables of `AuthDB` and the statements run against them. A table is a
 map from its primary key; `hash` is injective by construction.
 */
module AuthTables {
  import opened Basics

  type UserCode = string
  type Uuid = string
  type Jti = string

  datatype Digest = Sha256(text: string)

  datatype FlowStatus = PENDING | READY | DONE | ERROR

  datatype TokenStatus = CREATED | REVOKED

  datatype DeviceFlow = DeviceFlow(
    status: FlowStatus, created: real, clientId: string, scope: string,
    deviceCode: Digest, idToken: Option<string>)

  // The challenge comes from the client and need not be the digest of anything.
  datatype Challenge = S256(digest: Digest) | Malformed(text: string)

  datatype AuthorizationFlow = AuthorizationFlow(
    status: FlowStatus, created: real, clientId: string, scope: string,
    challenge: Challenge, redirectUri: string, code: Option<Digest>, idToken: Option<string>)

  datatype RefreshToken = RefreshToken(status: TokenStatus, scope: string, sub: string)

  datatype Tables = Tables(
    devices: map<UserCode, DeviceFlow>,
    flows: map<Uuid, AuthorizationFlow>,
    tokens: map<Jti, RefreshToken>)

  const NO_ROWS := Tables(map[], map[], map[])

  // The rows a device code, or an authorization code, selects.
  function DevicesWith(t: Tables, code: string): set<UserCode> {
    set u | u in t.devices && t.devices[u].deviceCode == Sha256(code)
  }

  function FlowsWith(t: Tables, code: string, validSince: real): set<Uuid> {
    set u | u in t.flows && t.flows[u].code == Some(Sha256(code)) && t.flows[u].created > validSince
  }

  // `.one()` on a result.
  ghost function One(rows: set<string>): (r: Option<string>)
    ensures r.Some? <==> |rows| == 1
    ensures r.Some? ==> rows == {r.value}
  {
    if |rows| == 1 then
      var u :| u in rows;
      assert |rows - {u}| == 0 && rows == (rows - {u}) + {u};
      Some(u)
    else None
  }

  function SetDeviceStatus(t: Tables, code: string, status: FlowStatus): Tables {
    t.(devices := map u | u in t.devices ::
      if t.devices[u].deviceCode == Sha256(code) then t.devices[u].(status := status) else t.devices[u])
  }

  function SetFlowStatus(t: Tables, code: string, status: FlowStatus): Tables {
    t.(flows := map u | u in t.flows ::
      if t.flows[u].code == Some(Sha256(code)) then t.flows[u].(status := status) else t.flows[u])
  }

  // Both unique columns of the device table are checked by the insert.
  predicate DeviceConflict(t: Tables, userCode: UserCode, deviceCode: string) {
    userCode in t.devices || DevicesWith(t, deviceCode) != {}
  }

  function InsertDevice(t: Tables, userCode: UserCode, row: DeviceFlow): Tables {
    t.(devices := t.devices[userCode := row])
  }

  predicate DeviceWaits(t: Tables, userCode: UserCode, validSince: real) {
    userCode in t.devices && t.devices[userCode].status == PENDING && t.devices[userCode].created > validSince
  }

  function StoreDeviceIdToken(t: Tables, userCode: UserCode, idToken: string): Tables
    requires userCode in t.devices
  {
    t.(devices := t.devices[userCode := t.devices[userCode].(idToken := Some(idToken), status := READY)])
  }

  predicate FlowWaits(t: Tables, uuid: Uuid, validSince: real) {
    uuid in t.flows && t.flows[uuid].status == PENDING && t.flows[uuid].created > validSince
  }

  function StoreFlowIdToken(t: Tables, uuid: Uuid, idToken: string, code: string): Tables
    requires uuid in t.flows
  {
    t.(flows := t.flows[uuid := t.flows[uuid].(idToken := Some(idToken), code := Some(Sha256(code)), status := READY)])
  }

  function InsertToken(t: Tables, jti: Jti, sub: string, scope: string): Tables {
    t.(tokens := t.tokens[jti := RefreshToken(CREATED, scope, sub)])
  }

  function RevokeToken(t: Tables, jti: Jti): Tables {
    if jti in t.tokens then t.(tokens := t.tokens[jti := t.tokens[jti].(status := REVOKED)]) else t
  }

  function RevokeSubject(t: Tables, sub: string): Tables {
    t.(tokens := map j | j in t.tokens ::
      if t.tokens[j].sub == sub then t.tokens[j].(status := REVOKED) else t.tokens[j])
  }

  // ------------------------------------------------------------------
  // What can happen to a row
  // ------------------------------------------------------------------

  // What one request may do to a status, and what a run may.
  predicate StatusSteps(a: FlowStatus, b: FlowStatus) {
    a == b || (a == PENDING && b == READY) || (a == READY && b == DONE)
  }

  predicate StatusAdvances(a: FlowStatus, b: FlowStatus) {
    a == b || (a == PENDING && (b == READY || b == DONE)) || (a == READY && b == DONE)
  }

  predicate DeviceAdvances(a: DeviceFlow, b: DeviceFlow) {
    && StatusAdvances(a.status, b.status)
    && b == a.(status := b.status, idToken := b.idToken)
    && (a.status != PENDING ==> b.idToken == a.idToken)
  }

  predicate FlowAdvances(a: AuthorizationFlow, b: AuthorizationFlow) {
    && StatusAdvances(a.status, b.status)
    && b == a.(status := b.status, idToken := b.idToken, code := b.code)
    && (a.status != PENDING ==> b.idToken == a.idToken && b.code == a.code)
  }

  predicate TokenAdvances(a: RefreshToken, b: RefreshToken) {
    b == a.(status := b.status) && (a.status == REVOKED ==> b.status == REVOKED)
  }

  // No row disappears, PENDING goes to READY and READY to DONE, REVOKED stays.
  ghost predicate Advances(a: Tables, b: Tables) {
    && (forall u :: u in a.devices ==> u in b.devices && DeviceAdvances(a.devices[u], b.devices[u]))
    && (forall u :: u in a.flows ==> u in b.flows && FlowAdvances(a.flows[u], b.flows[u]))
    && (forall j :: j in a.tokens ==> j in b.tokens && TokenAdvances(a.tokens[j], b.tokens[j]))
  }

  lemma AdvancesTransitive(a: Tables, b: Tables, c: Tables)
    requires Advances(a, b) && Advances(b, c)
    ensures Advances(a, c)
  {
    forall u | u in a.devices ensures DeviceAdvances(a.devices[u], c.devices[u]) {
      assert DeviceAdvances(a.devices[u], b.devices[u]) && DeviceAdvances(b.devices[u], c.devices[u]);
    }
    forall u | u in a.flows ensures FlowAdvances(a.flows[u], c.flows[u]) {
      assert FlowAdvances(a.flows[u], b.flows[u]) && FlowAdvances(b.flows[u], c.flows[u]);
    }
  }
}
