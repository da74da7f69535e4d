/** Runs of the token endpoint: what holds after any sequence of requests. */
module AuthRuns {
  import opened Basics
  import opened Scope
  import opened AuthTables
  import opened AuthService
  import opened AuthInvariants
  import opened AuthLog
  import opened AuthRotation

  datatype Step = Step(request: Request, env: Env)

  // Settings are fixed for the installation; configurations may change.
  ghost predicate Runs(s: State, steps: seq<Step>, v: Settings)
    decreases |steps|
  {
    steps == [] ||
    (&& FreshCode(s, steps[0].request) && steps[0].env.settings == v
     && Runs(Serve(s, steps[0].request, steps[0].env), steps[1..], v))
  }

  ghost function After(s: State, steps: seq<Step>): State
    decreases |steps|
  {
    if steps == [] then s else After(Serve(s, steps[0].request, steps[0].env), steps[1..])
  }

  // A VO that a scope can name has no colon.
  predicate PlainNames(config: Config) { forall vo :: vo in config ==> ColonFree(vo) || !Nameable(vo) }

  predicate PlainVos(steps: seq<Step>) { forall i :: 0 <= i < |steps| ==> PlainNames(steps[i].env.config) }

  // ------------------------------------------------------------------
  // Requests are moves on the token table
  // ------------------------------------------------------------------

  lemma RootMoves(s: State, t: Tables, grant: Grant, scope: string, sub: string, legacy: bool, minutes: Option<real>,
                  env: Env)
    requires t.tokens == s.tables.tokens && MintRoot(s, t, grant, scope, sub, legacy, minutes, env).Ok?
    requires !grant.ByRefresh? && (grant.Login() <==> !legacy)
    ensures var u := MintRoot(s, t, grant, scope, sub, legacy, minutes, env).value.0;
            && Founds(s, u, env.jti)
            && (PlainNames(env.config) ==> IsSubject(u.tables.tokens[env.jti], u.log[|s.log|].identity.vo))
  {
    var id := Identify(scope, sub, env.config, env.available).value;
    IdentifySound(scope, sub, env.config, env.available, id);
    NamedIsNameable(scope, id.vo);
    assert id.sub == (id.vo + ":") + sub;
  }

  lemma RefreshMoves(s: State, jti: Jti, env: Env)
    requires FamilyInv(s) && ExchangeRefreshToken(s, jti, env).Ok?
    ensures var t := ExchangeRefreshToken(s, jti, env).value.0;
            if s.issued[jti].legacy then OnlyRevokes(s, t) else Rotates(s, t, jti, env.jti)
  {
    assert Root(s, jti);
  }

  // A scope names one VO, so a stored subject always comes back the same.
  lemma SameSubject(row: RefreshToken, vo: string, config: Config, available: set<string>, id: Identity)
    requires IsSubject(row, vo) && AfterColon(row.sub).Some?
    requires Identify(row.scope, AfterColon(row.sub).value, config, available) == Ok(id)
    ensures id.sub == row.sub
  {
    var user := row.sub[|vo| + 1..];
    assert row.sub == vo + ":" + user;
    SubjectRoundTrip(vo, user);
    IdentifySound(row.scope, user, config, available, id);
    assert id.vo in Named(Pieces(row.scope), "vo:");
  }

  /** A refresh keeps the subject of its row exactly when the VO of the scope has no colon in its name. */
  lemma SubjectKeptExactly(row: RefreshToken, vo: string, user: string, config: Config, available: set<string>,
                           id: Identity)
    requires row.sub == vo + ":" + user && NamesVo(row.scope, vo) && AfterColon(row.sub).Some?
    requires Identify(row.scope, AfterColon(row.sub).value, config, available) == Ok(id)
    ensures id.sub == row.sub <==> ColonFree(vo)
  {
    var kept := AfterColon(row.sub).value;
    SubjectRoundTrip(vo, user);
    IdentifySound(row.scope, kept, config, available, id);
    assert id.vo in Named(Pieces(row.scope), "vo:");
    assert id.sub[|vo| + 1..] == kept && row.sub[|vo| + 1..] == user;
  }

  // The subject of the new row is that of the old one.
  lemma RefreshKeepsSubject(s: State, jti: Jti, env: Env)
    requires FamilyInv(s) && Subjects(s) && ExchangeRefreshToken(s, jti, env).Ok?
    ensures ExchangeRefreshToken(s, jti, env).value.1.identity.sub == s.tables.tokens[jti].sub
  {
    assert RootSubject(s, jti);
    SameSubject(s.tables.tokens[jti], s.log[s.family[jti]].identity.vo, env.config, env.available,
                ExchangeRefreshToken(s, jti, env).value.1.identity);
  }

  lemma Still(s: State)
    requires FamilyInv(s)
    ensures OnlyRevokes(s, s)
  {
  }

  lemma QuietMoves(s: State, r: Request, env: Env)
    requires FamilyInv(s) && Attempt(s, r, env).Ok?
    requires r.StartDevice? || r.StartCode? || r.ApproveDevice? || r.ApproveCode? || r.Revoke?
    ensures OnlyRevokes(s, Attempt(s, r, env).value.0)
  {
    var t := Attempt(s, r, env).value.0;
    if r.Revoke? {
      RevokeMoves(s, r.jti);
    } else {
      assert t.tables.tokens == s.tables.tokens && t == s.(tables := t.tables);
      TokensStill(s, t);
    }
  }

  lemma TokensStill(s: State, t: State)
    requires FamilyInv(s) && t.tables.tokens == s.tables.tokens && t == s.(tables := t.tables)
    ensures OnlyRevokes(s, t)
  {
  }

  lemma RevokeMoves(s: State, jti: Jti)
    requires FamilyInv(s)
    ensures OnlyRevokes(s, s.(tables := RevokeToken(s.tables, jti)))
  {
  }

  lemma ReuseMoves(s: State, sub: string, jti: Jti)
    requires FamilyInv(s)
    ensures OnlyRevokes(s, s.(tables := RevokeSubject(s.tables, sub), log := s.log + [ReuseDetected(sub, jti)]))
  {
  }

  // The new family a request founds, if it does.
  lemma ServeFounds(s: State, r: Request, env: Env)
    requires Attempt(s, r, env).Ok? && (r.RedeemDevice? || r.RedeemCode? || r.LegacyExchange?)
    ensures Founds(s, Serve(s, r, env), env.jti)
    ensures PlainNames(env.config) ==>
              IsSubject(Serve(s, r, env).tables.tokens[env.jti], Serve(s, r, env).log[|s.log|].identity.vo)
  {
    match r {
      case RedeemDevice(code, clientId) => DeviceFounds(s, code, clientId, env);
      case RedeemCode(_, _, _, _) => CodeFounds(s, r, env);
      case LegacyExchange(sub, scope, minutes) =>
        RootMoves(s, s.tables, ByLegacyKey, scope, sub, true, minutes, env);
    }
  }

  lemma DeviceFounds(s: State, code: string, clientId: string, env: Env)
    requires RedeemDeviceCode(s, code, clientId, env).Ok?
    ensures var t := RedeemDeviceCode(s, code, clientId, env).value.0;
            && Founds(s, t, env.jti)
            && (PlainNames(env.config) ==> IsSubject(t.tables.tokens[env.jti], t.log[|s.log|].identity.vo))
  {
    var u := One(DevicesWith(s.tables, code)).value;
    var row := s.tables.devices[u];
    RootMoves(s, SetDeviceStatus(s.tables, code, DONE), ByDevice(u, code), row.scope, row.idToken.value, false,
              None, env);
  }

  lemma CodeFounds(s: State, r: Request, env: Env)
    requires r.RedeemCode? && RedeemAuthorizationCode(s, r, env).Ok?
    ensures var t := RedeemAuthorizationCode(s, r, env).value.0;
            && Founds(s, t, env.jti)
            && (PlainNames(env.config) ==> IsSubject(t.tables.tokens[env.jti], t.log[|s.log|].identity.vo))
  {
    var u := One(FlowsWith(s.tables, r.code, env.now - env.settings.codeValidity)).value;
    var row := s.tables.flows[u];
    RootMoves(s, SetFlowStatus(s.tables, r.code, DONE), ByCode(u, r.code, r.clientId, r.redirectUri, r.verifier),
              row.scope, row.idToken.value, false, None, env);
  }

  lemma RotationKeepsAll(s: State, t: State, old_: Jti, j: Jti)
    requires FamilyInv(s) && Rotates(s, t, old_, j)
    ensures FamilyInv(t)
    ensures SubjectInv(s) && t.tables.tokens[j].sub == s.tables.tokens[old_].sub ==> SubjectInv(t)
  {
    RotatesKeepsFamilies(s, t, old_, j);
    if SubjectInv(s) && t.tables.tokens[j].sub == s.tables.tokens[old_].sub {
      RotatesKeepsSubjects(s, t, old_, j);
    }
  }

  lemma RefreshSubject(s: State, jti: Jti, env: Env)
    requires FamilyInv(s) && Subjects(s) && ExchangeRefreshToken(s, jti, env).Ok? && !s.issued[jti].legacy
    ensures var t := ExchangeRefreshToken(s, jti, env).value.0;
            env.jti in t.tables.tokens && t.tables.tokens[env.jti].sub == s.tables.tokens[jti].sub
  {
    RefreshKeepsSubject(s, jti, env);
  }

  lemma RefreshFamilies(s: State, jti: Jti, env: Env)
    requires FamilyInv(s) && ExchangeRefreshToken(s, jti, env).Ok? && !s.issued[jti].legacy
    ensures var t := ExchangeRefreshToken(s, jti, env).value.0;
            FamilyInv(t) && (SubjectInv(s) ==> SubjectInv(t))
  {
    RefreshMoves(s, jti, env);
    RotationKeepsAll(s, ExchangeRefreshToken(s, jti, env).value.0, jti, env.jti);
    if SubjectInv(s) { RefreshSubject(s, jti, env); }
  }

  lemma ServeFamilies(s: State, r: Request, env: Env)
    requires FamilyInv(s)
    ensures FamilyInv(Serve(s, r, env))
    ensures SubjectInv(s) && PlainNames(env.config) ==> SubjectInv(Serve(s, r, env))
  {
    var t := Serve(s, r, env);
    var served := Attempt(s, r, env).Ok?;
    if served && (r.RedeemDevice? || r.RedeemCode? || r.LegacyExchange?) {
      ServeFounds(s, r, env);
      FoundsKeepsFamilies(s, t, env.jti);
      if SubjectInv(s) && PlainNames(env.config) { FoundsKeepsSubjects(s, t, env.jti); }
    } else if served && r.Refresh? && !s.issued[r.jti].legacy {
      RefreshFamilies(s, r.jti, env);
    } else {
      ServeOnlyRevokes(s, r, env);
      OnlyRevokesKeepsFamilies(s, t);
      if SubjectInv(s) { OnlyRevokesKeepsSubjects(s, t); }
    }
  }

  lemma ServeOnlyRevokes(s: State, r: Request, env: Env)
    requires FamilyInv(s)
    requires Attempt(s, r, env).Ok? ==> !r.RedeemDevice? && !r.RedeemCode? && !r.LegacyExchange?
    requires Attempt(s, r, env).Ok? && r.Refresh? ==> s.issued[r.jti].legacy
    ensures OnlyRevokes(s, Serve(s, r, env))
  {
    Still(s);
    if Attempt(s, r, env).Ok? {
      if r.Refresh? { RefreshMoves(s, r.jti, env); } else { QuietMoves(s, r, env); }
    } else if r.Refresh? && r.jti in s.tables.tokens {
      ReuseMoves(s, s.tables.tokens[r.jti].sub, r.jti);
    }
  }

  // ------------------------------------------------------------------
  // Runs
  // ------------------------------------------------------------------

  ghost predicate ServiceInv(s: State, v: Settings) {
    RowsInv(s.tables) && LogInv(s, v) && FamilyInv(s)
  }

  lemma {:induction false} RunKeeps(s: State, steps: seq<Step>, v: Settings)
    requires ServiceInv(s, v) && Runs(s, steps, v)
    ensures ServiceInv(After(s, steps), v) && Advances(s.tables, After(s, steps).tables)
    ensures SubjectInv(s) && PlainVos(steps) ==> SubjectInv(After(s, steps))
    decreases |steps|
  {
    if steps == [] {
      Idle(s.tables);
    } else {
      var r, env := steps[0].request, steps[0].env;
      var t := Serve(s, r, env);
      ServeSteps(s, r, env);
      ServeLog(s, r, env);
      ServeFamilies(s, r, env);
      RunKeeps(t, steps[1..], v);
      AdvancesTransitive(s.tables, t.tables, After(s, steps).tables);
    }
  }

  lemma StartInv(v: Settings)
    ensures ServiceInv(START, v) && SubjectInv(START)
  {
  }

  lemma {:induction false} AfterAppend(s: State, a: seq<Step>, b: seq<Step>, v: Settings)
    requires Runs(s, a + b, v)
    ensures Runs(s, a, v) && Runs(After(s, a), b, v) && After(s, a + b) == After(After(s, a), b)
    decreases |a|
  {
    if a == [] {
      assert a + b == b;
    } else {
      assert (a + b)[0] == a[0] && (a + b)[1..] == a[1..] + b;
      AfterAppend(Serve(s, a[0].request, a[0].env), a[1..], b, v);
    }
  }

  /**
   Over any run, rows are never lost, a flow only moves from PENDING to READY to
   DONE, READY and DONE flows hold an ID token, and a revoked token stays so.
   */
  lemma StatusesOnlyAdvance(a: seq<Step>, b: seq<Step>, v: Settings)
    requires Runs(START, a + b, v)
    ensures Advances(After(START, a).tables, After(START, a + b).tables)
    ensures RowsInv(After(START, a + b).tables)
  {
    StartInv(v);
    AfterAppend(START, a, b, v);
    RunKeeps(START, a, v);
    RunKeeps(After(START, a), b, v);
  }

  /**
   Each device code, each authorization code and each rotating refresh token has
   minted at most once; a device or code grant was made within the validity of
   its flow, for the user who logged in; and a code grant presented the client,
   the redirect URI and the verifier of the flow it redeemed.
   */
  lemma SingleUseTheorem(steps: seq<Step>, v: Settings)
    requires Runs(START, steps, v)
    ensures var s := After(START, steps);
            && (forall i, j :: 0 <= i < j < |s.log| ==> !SameSource(s.log[i], s.log[j], s.issued))
            && (forall i :: 0 <= i < |s.log| ==> EntryOk(s.log[i], s, v))
  {
    StartInv(v);
    RunKeeps(START, steps, v);
  }

  /** The tokens of one login: at most one can still be exchanged. */
  lemma OneLiveTokenPerLogin(steps: seq<Step>, v: Settings, a: Jti, b: Jti)
    requires Runs(START, steps, v)
    requires var s := After(START, steps);
             Live(s, a) && Live(s, b) && a in s.family && b in s.family && s.family[a] == s.family[b]
    ensures a == b
  {
    StartInv(v);
    RunKeeps(START, steps, v);
  }

  /**
   Presenting an unexpired rotating token is refused as a reuse exactly when it
   was revoked, and although the request then fails, it revokes every token of
   the subject and nothing else.
   */
  lemma ReuseRevokesSubject(s: State, jti: Jti, env: Env)
    requires jti in s.issued && jti in s.tables.tokens && !s.issued[jti].legacy && s.issued[jti].expires >= env.now
    ensures Attempt(s, Refresh(jti), env) == Err(ReusedToken) <==> s.tables.tokens[jti].status == REVOKED
    ensures s.tables.tokens[jti].status == REVOKED ==>
              var t := Serve(s, Refresh(jti), env);
              && t.log == s.log + [ReuseDetected(s.tables.tokens[jti].sub, jti)]
              && t.tables.tokens.Keys == s.tables.tokens.Keys
              && forall j :: j in s.tables.tokens ==>
                   t.tables.tokens[j].status ==
                     if s.tables.tokens[j].sub == s.tables.tokens[jti].sub then REVOKED else s.tables.tokens[j].status
  {
  }

  /**
   After a reuse is detected for a subject, every later rotating refresh of that
   subject descends from a device or authorization-code login of the same
   subject made after the detection, if no VO that can be named has a colon.
   */
  lemma ReuseForcesNewLogin(steps: seq<Step>, v: Settings, i: nat, k: nat)
    requires Runs(START, steps, v) && PlainVos(steps)
    requires var s := After(START, steps);
             i < k < |s.log| && s.log[i].ReuseDetected? && Refreshes(s, k, s.log[i].sub)
    ensures var s := After(START, steps);
            && i < s.log[k].family < k
            && s.log[s.log[k].family].Minted?
            && s.log[s.log[k].family].grant.Login()
            && s.log[s.log[k].family].identity.sub == s.log[i].sub
  {
    StartInv(v);
    RunKeeps(START, steps, v);
    assert LoginSince(After(START, steps), i, k, After(START, steps).log[i].sub);
  }
}
