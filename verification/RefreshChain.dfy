/**
 A login followed by any number of refreshes, each presenting the token the
 previous one brought, with other requests served in between and the
 configuration unchanged.
 */
module RefreshChain {
  import opened Basics
  import opened Scope
  import opened AuthTables
  import opened AuthService
  import opened AuthLog
  import opened AuthRuns
  import opened AuthRotation

  // The state when request i comes in, the token it presents, what it finds.
  datatype Link = Link(state: State, jti: Jti, env: Env)

  ghost predicate Linked(a: Link, b: Link) {
    var outcome := ExchangeRefreshToken(a.state, a.jti, a.env);
    && outcome.Ok? && outcome.value.1.Tokens? && outcome.value.1.refresh == Some(b.jti)
    && Later(outcome.value.0, b.state)
  }

  ghost predicate Chain(links: seq<Link>, config: Config, available: set<string>) {
    && (forall i :: 0 <= i < |links| - 1 ==> Linked(links[i], links[i + 1]))
    && (forall i :: 0 <= i < |links| ==> links[i].env.config == config && links[i].env.available == available)
    && (forall i :: 0 <= i < |links| ==> ExchangeRefreshToken(links[i].state, links[i].jti, links[i].env).Ok?)
  }

  ghost function AnsweredIdentity(l: Link): Identity
    requires ExchangeRefreshToken(l.state, l.jti, l.env).Ok?
               && ExchangeRefreshToken(l.state, l.jti, l.env).value.1.Tokens?
  {
    ExchangeRefreshToken(l.state, l.jti, l.env).value.1.identity
  }

  predicate RowOf(l: Link, scope: string, vo: string, user: string) {
    && l.jti in l.state.tables.tokens
    && l.state.tables.tokens[l.jti].scope == scope && l.state.tables.tokens[l.jti].sub == vo + ":" + user
  }

  // The user found behind the subject of a row.
  function UserBehind(vo: string, user: string): string {
    SubjectRoundTrip(vo, user);
    AfterColon(vo + ":" + user).value
  }

  // The user to whom the token of request i was given.
  function UserAt(vo: string, user: string, i: nat): string {
    if i == 0 then user else UserBehind(vo, UserAt(vo, user, i - 1))
  }

  lemma {:induction false} BehindIsLonger(vo: string, user: string)
    ensures ColonFree(vo) ==> UserBehind(vo, user) == user
    ensures !ColonFree(vo) ==> |UserBehind(vo, user)| > |user|
  {
    SubjectRoundTrip(vo, user);
    if !ColonFree(vo) {
      assert (vo + ":" + user)[1..] == vo[1..] + ":" + user;
      if vo[0] != ':' {
        assert vo == [vo[0]] + vo[1..];
        BehindIsLonger(vo[1..], user);
      }
    }
  }

  lemma {:induction false} UserAtIs(vo: string, user: string, i: nat)
    ensures UserAt(vo, user, i) == user <==> i == 0 || ColonFree(vo)
    ensures |UserAt(vo, user, i)| >= |user|
  {
    if i > 0 {
      UserAtIs(vo, user, i - 1);
      BehindIsLonger(vo, UserAt(vo, user, i - 1));
    }
  }

  function Latency(env: Env): real { env.mintedAt - env.now }

  function Latencies(links: seq<Link>): real {
    if links == [] then 0.0 else Latency(links[0].env) + Latencies(links[1..])
  }

  lemma LinkAnswers(l: Link, scope: string, vo: string, user: string)
    requires NamesVo(scope, vo) && RowOf(l, scope, vo, user)
    requires ExchangeRefreshToken(l.state, l.jti, l.env).Ok?
    ensures ExchangeRefreshToken(l.state, l.jti, l.env).value.1.Tokens?
    ensures Identify(scope, UserBehind(vo, user), l.env.config, l.env.available) == Ok(AnsweredIdentity(l))
    ensures AnsweredIdentity(l).vo == vo && AnsweredIdentity(l).sub == vo + ":" + UserBehind(vo, user)
  {
    SubjectRoundTrip(vo, user);
    IdentifySound(scope, UserBehind(vo, user), l.env.config, l.env.available, AnsweredIdentity(l));
    assert AnsweredIdentity(l).vo in Named(Pieces(scope), "vo:");
  }

  lemma Rounding(at: real)
    ensures at - 1.0 < WholeSeconds(at) <= at
  {
  }

  // The next token has the scope of this one, the subject of its answer, and its
  // remaining lifetime, cut to whole seconds.
  lemma LinkCarries(a: Link, b: Link, scope: string, vo: string, user: string)
    requires Linked(a, b) && NamesVo(scope, vo) && RowOf(a, scope, vo, user)
    ensures RowOf(b, scope, vo, UserBehind(vo, user))
    ensures a.jti in a.state.issued && b.jti in b.state.issued
    ensures var expiry := a.state.issued[a.jti].expires + Latency(a.env);
            expiry - 1.0 < b.state.issued[b.jti].expires <= expiry
  {
    LinkAnswers(a, scope, vo, user);
    var t := ExchangeRefreshToken(a.state, a.jti, a.env).value.0;
    assert TokenAdvances(t.tables.tokens[b.jti], b.state.tables.tokens[b.jti]);
    Rounding(a.env.mintedAt + (a.state.issued[a.jti].expires - a.env.now));
  }

  /**
   The n-th token of a chain belongs to the n-th user behind the login, and
   expires after the first one by the latencies of the requests before it, less
   the fractions of a second lost by each.
   */
  lemma {:induction false} ChainTokens(links: seq<Link>, scope: string, vo: string, user: string,
    config: Config, available: set<string>, i: nat)
    requires Chain(links, config, available) && i < |links| && NamesVo(scope, vo) && RowOf(links[0], scope, vo, user)
    ensures RowOf(links[i], scope, vo, UserAt(vo, user, i))
    ensures links[0].jti in links[0].state.issued && links[i].jti in links[i].state.issued
    ensures var latest := links[0].state.issued[links[0].jti].expires + Latencies(links[..i]);
            latest - i as real <= links[i].state.issued[links[i].jti].expires <= latest
  {
    if i == 0 {
      LinkAnswers(links[0], scope, vo, user);
    } else {
      ChainTokens(links, scope, vo, user, config, available, i - 1);
      assert Linked(links[i - 1], links[i - 1 + 1]);
      LinkCarries(links[i - 1], links[i], scope, vo, UserAt(vo, user, i - 1));
      LatenciesGrow(links, i);
    }
  }

  /**
   Every refresh of a chain answers with the identity of the login, the same
   subject, VO, group, properties and user name, exactly if the VO has no colon
   in its name; otherwise none does.
   */
  lemma ChainTheorem(links: seq<Link>, scope: string, id: Identity, user: string,
    config: Config, available: set<string>, i: nat)
    requires Chain(links, config, available) && i < |links|
    requires Identify(scope, user, config, available) == Ok(id) && RowOf(links[0], scope, id.vo, user)
    ensures ExchangeRefreshToken(links[i].state, links[i].jti, links[i].env).value.1.Tokens?
    ensures AnsweredIdentity(links[i]) == id <==> ColonFree(id.vo)
    ensures AnsweredIdentity(links[i]).sub == id.sub <==> ColonFree(id.vo)
  {
    IdentifySound(scope, user, config, available, id);
    ChainTokens(links, scope, id.vo, user, config, available, i);
    LinkAnswers(links[i], scope, id.vo, UserAt(id.vo, user, i));
    UserAtIs(id.vo, user, i + 1);
    var answered := AnsweredIdentity(links[i]).sub;
    assert answered[|id.vo| + 1..] == UserAt(id.vo, user, i + 1) && id.sub[|id.vo| + 1..] == user;
  }

  lemma LatenciesGrow(links: seq<Link>, i: nat)
    requires 0 < i <= |links|
    ensures Latencies(links[..i]) == Latencies(links[..i - 1]) + Latency(links[i - 1].env)
  {
    LatenciesAppend(links[..i - 1], links[i - 1]);
    assert links[..i - 1] + [links[i - 1]] == links[..i];
  }

  lemma {:induction false} LatenciesAppend(links: seq<Link>, l: Link)
    ensures Latencies(links + [l]) == Latencies(links) + Latency(l.env)
  {
    if links == [] {
      assert links + [l] == [l] && [l][1..] == [];
    } else {
      LatenciesAppend(links[1..], l);
      assert (links + [l])[1..] == links[1..] + [l];
    }
  }

  /** The answers of the chain stay within the groups of the user they name, whatever the VO is called. */
  lemma ChainWithinGroups(links: seq<Link>, scope: string, id: Identity, user: string,
    config: Config, available: set<string>, i: nat)
    requires Chain(links, config, available) && i < |links|
    requires Identify(scope, user, config, available) == Ok(id) && RowOf(links[0], scope, id.vo, user)
    ensures ExchangeRefreshToken(links[i].state, links[i].jti, links[i].env).value.1.Tokens?
    ensures var answered, named := AnsweredIdentity(links[i]), UserAt(id.vo, user, i + 1);
            && answered.vo == id.vo && id.vo in config && answered.sub == id.vo + ":" + named
            && forall p :: p in answered.properties ==>
                 exists g :: g in config[id.vo].groups && named in config[id.vo].groups[g].users
                          && p in config[id.vo].groups[g].properties
  {
    IdentifySound(scope, user, config, available, id);
    ChainTokens(links, scope, id.vo, user, config, available, i);
    LinkAnswers(links[i], scope, id.vo, UserAt(id.vo, user, i));
    IdentifySound(scope, UserAt(id.vo, user, i + 1), config, available, AnsweredIdentity(links[i]));
  }
}
