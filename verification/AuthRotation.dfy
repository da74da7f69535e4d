/**
 Refresh-token rotation: families of tokens, and what a detected reuse does to
 the tokens of a subject.
 */
module AuthRotation {
  import opened Basics
  import opened Scope
  import opened AuthTables
  import opened AuthService

  // A refresh token that the rotation would still accept.
  predicate Live(s: State, j: Jti) {
    j in s.tables.tokens && s.tables.tokens[j].status == CREATED && j in s.issued && !s.issued[j].legacy
  }

  predicate Root(s: State, j: Jti) {
    && j in s.family && s.family[j] < |s.log| && j in s.issued
    && var r := s.log[s.family[j]];
       && r.Minted? && r.family == s.family[j] && !r.grant.ByRefresh?
       && (r.grant.Login() <==> !s.issued[j].legacy)
  }

  // A refreshed token is a row of the table.
  predicate Refers(s: State, k: nat) {
    k < |s.log| && s.log[k].Minted? && s.log[k].grant.ByRefresh? ==>
      s.log[k].grant.jti in s.tables.tokens && s.log[k].grant.jti in s.issued
  }

  // Tokens descend from a login, and a family has at most one live token.
  ghost predicate FamilyInv(s: State) {
    && s.tables.tokens.Keys == s.issued.Keys == s.family.Keys
    && (forall j :: j in s.family ==> Root(s, j))
    && (forall k :: 0 <= k < |s.log| ==> Refers(s, k))
    && (forall a, b :: Live(s, a) && Live(s, b) && s.family[a] == s.family[b] ==> a == b)
  }

  // The subject of a row is its user behind the one VO of its scope.
  predicate IsSubject(row: RefreshToken, vo: string) {
    StartsWith(row.sub, vo + ":") && NamesVo(row.scope, vo) && ColonFree(vo)
  }

  // The login a token descends from was for the subject of its row.
  predicate RootSubject(s: State, j: Jti) {
    && j in s.family && s.family[j] < |s.log| && s.log[s.family[j]].Minted? && j in s.tables.tokens
    && var id := s.log[s.family[j]].identity;
       id.sub == s.tables.tokens[j].sub && IsSubject(s.tables.tokens[j], id.vo)
  }

  // Entry k answers a non-legacy refresh.
  predicate Rotating(s: State, k: nat) {
    && k < |s.log| && s.log[k].Minted? && s.log[k].grant.ByRefresh?
    && s.log[k].grant.jti in s.issued && !s.issued[s.log[k].grant.jti].legacy
  }

  predicate Refreshes(s: State, k: nat, sub: string) {
    Rotating(s, k) && s.log[k].grant.jti in s.tables.tokens && s.tables.tokens[s.log[k].grant.jti].sub == sub
  }

  // It descends from a login of the subject made after entry i.
  predicate LoginSince(s: State, i: nat, k: nat, sub: string) {
    && k < |s.log| && s.log[k].Minted?
    && i < s.log[k].family < k
    && var r := s.log[s.log[k].family];
       r.Minted? && r.grant.Login() && r.identity.sub == sub
  }

  ghost predicate Subjects(s: State) {
    forall j :: j in s.tables.tokens ==> RootSubject(s, j)
  }

  // Live tokens of a subject descend from logins made after its last reuse.
  ghost predicate AfterReuse(s: State) {
    forall i, a ::
      0 <= i < |s.log| && s.log[i].ReuseDetected? && Live(s, a) && s.tables.tokens[a].sub == s.log[i].sub ==>
      a in s.family && s.family[a] > i
  }

  ghost predicate LoggedSince(s: State) {
    forall i, k :: 0 <= i < k < |s.log| && s.log[i].ReuseDetected? && Refreshes(s, k, s.log[i].sub) ==>
      LoginSince(s, i, k, s.log[i].sub)
  }

  ghost predicate SubjectInv(s: State) {
    Subjects(s) && AfterReuse(s) && LoggedSince(s)
  }

  // ------------------------------------------------------------------
  // The moves a request can make on the token table
  // ------------------------------------------------------------------

  // A new family.
  ghost predicate Founds(s: State, t: State, j: Jti) {
    && j !in s.tables.tokens && j in t.tables.tokens && j in t.issued && |t.log| == |s.log| + 1
    && t.tables.tokens == s.tables.tokens[j := t.tables.tokens[j]]
    && t.issued == s.issued[j := t.issued[j]]
    && t.family == s.family[j := |s.log|]
    && t.log == s.log + [t.log[|s.log|]]
    && var e := t.log[|s.log|];
       && e.Minted? && !e.grant.ByRefresh? && e.family == |s.log| && (e.grant.Login() <==> !t.issued[j].legacy)
       && e.identity.sub == t.tables.tokens[j].sub
  }

  // `old_` is revoked and `j` takes its place in the family.
  ghost predicate Rotates(s: State, t: State, old_: Jti, j: Jti) {
    && Live(s, old_) && old_ in s.family && j !in s.tables.tokens && j in t.tables.tokens && j in t.issued
         && |t.log| == |s.log| + 1
    && t.tables.tokens == s.tables.tokens[old_ := s.tables.tokens[old_].(status := REVOKED)][j := t.tables.tokens[j]]
    && t.tables.tokens[j].status == CREATED && t.tables.tokens[j].scope == s.tables.tokens[old_].scope
    && t.issued == s.issued[j := t.issued[j]] && !t.issued[j].legacy
    && t.family == s.family[j := s.family[old_]]
    && t.log == s.log + [t.log[|s.log|]]
    && var e := t.log[|s.log|];
       e.Minted? && e.grant == ByRefresh(old_) && e.family == s.family[old_] && e.identity.sub == t.tables.tokens[j].sub
  }

  // Tokens are at most revoked, nothing is issued, the log gains at most one
  // entry that answers no rotating refresh.
  ghost predicate OnlyRevokes(s: State, t: State) {
    && t.issued == s.issued && t.family == s.family && t.tables.tokens.Keys == s.tables.tokens.Keys
    && (forall j :: j in s.tables.tokens ==> TokenAdvances(s.tables.tokens[j], t.tables.tokens[j]))
    && s.log <= t.log && |t.log| <= |s.log| + 1
    && (|t.log| == |s.log| + 1 ==>
         var e := t.log[|s.log|];
         match e
         case Minted(g, _, _, _, _) => g.ByRefresh? && g.jti in s.issued && s.issued[g.jti].legacy
         case ReuseDetected(sub, _) =>
           forall j :: j in t.tables.tokens && t.tables.tokens[j].sub == sub ==> t.tables.tokens[j].status == REVOKED)
  }

  lemma FoundsKeepsFamilies(s: State, t: State, j: Jti)
    requires FamilyInv(s) && Founds(s, t, j)
    ensures FamilyInv(t)
  {
    forall k | 0 <= k < |t.log| ensures Refers(t, k) {
      if k < |s.log| { assert Refers(s, k); }
    }
    forall a | a in t.family ensures Root(t, a) { FoundsRoot(s, t, j, a); }
    forall a, b | Live(t, a) && Live(t, b) && t.family[a] == t.family[b] ensures a == b { FoundsLive(s, t, j, a, b); }
  }

  lemma FoundsRoot(s: State, t: State, j: Jti, a: Jti)
    requires FamilyInv(s) && Founds(s, t, j) && a in t.family
    ensures Root(t, a)
  {
    if a != j { assert Root(s, a); }
  }

  lemma FoundsLive(s: State, t: State, j: Jti, a: Jti, b: Jti)
    requires FamilyInv(s) && Founds(s, t, j)
    requires Live(t, a) && Live(t, b) && a in t.family && b in t.family && t.family[a] == t.family[b]
    ensures a == b
  {
    if a != j { assert Root(s, a) && Live(s, a); }
    if b != j { assert Root(s, b) && Live(s, b); }
  }

  lemma RotatesKeepsFamilies(s: State, t: State, old_: Jti, j: Jti)
    requires FamilyInv(s) && Rotates(s, t, old_, j)
    ensures FamilyInv(t)
  {
    forall k | 0 <= k < |t.log| ensures Refers(t, k) {
      if k < |s.log| { assert Refers(s, k); }
    }
    forall a | a in t.family ensures Root(t, a) { RotatesRoot(s, t, old_, j, a); }
    forall a, b | Live(t, a) && Live(t, b) && t.family[a] == t.family[b] ensures a == b {
      RotatesLive(s, t, old_, j, a, b);
    }
  }

  lemma RotatesRoot(s: State, t: State, old_: Jti, j: Jti, a: Jti)
    requires FamilyInv(s) && Rotates(s, t, old_, j) && a in t.family
    ensures Root(t, a)
  {
    assert Root(s, if a == j then old_ else a);
  }

  lemma RotatesLive(s: State, t: State, old_: Jti, j: Jti, a: Jti, b: Jti)
    requires FamilyInv(s) && Rotates(s, t, old_, j)
    requires Live(t, a) && Live(t, b) && a in t.family && b in t.family && t.family[a] == t.family[b]
    ensures a == b
  {
    assert a != old_ && b != old_;
    assert a != j ==> Live(s, a);
    assert b != j ==> Live(s, b);
  }

  lemma OnlyRevokesKeepsFamilies(s: State, t: State)
    requires FamilyInv(s) && OnlyRevokes(s, t)
    ensures FamilyInv(t)
  {
    forall k | 0 <= k < |t.log| ensures Refers(t, k) {
      if k < |s.log| { assert Refers(s, k); }
    }
    forall a | a in t.family ensures Root(t, a) {
      assert Root(s, a);
      assert t.log[s.family[a]] == s.log[s.family[a]];
    }
    assert forall a :: Live(t, a) ==> Live(s, a);
  }

  // ------------------------------------------------------------------
  // Subjects
  // ------------------------------------------------------------------

  ghost predicate Extends(s: State, t: State) {
    && s.log <= t.log
    && (forall j :: j in s.issued ==> j in t.issued && t.issued[j] == s.issued[j])
    && (forall j :: j in s.family ==> j in t.family && t.family[j] == s.family[j])
    && (forall j :: j in s.tables.tokens ==>
        j in t.tables.tokens && TokenAdvances(s.tables.tokens[j], t.tables.tokens[j]))
  }

  lemma RootStays(s: State, t: State, j: Jti)
    requires RootSubject(s, j) && Extends(s, t)
    ensures RootSubject(t, j)
  {
    assert TokenAdvances(s.tables.tokens[j], t.tables.tokens[j]);
  }

  // What holds of an entry goes on holding.
  lemma SinceStays(s: State, t: State, i: nat, k: nat)
    requires FamilyInv(s) && LoggedSince(s) && Extends(s, t) && i < k < |s.log|
    requires t.log[i].ReuseDetected? && Refreshes(t, k, t.log[i].sub)
    ensures LoginSince(t, i, k, t.log[i].sub)
  {
    assert Refers(s, k);
    assert Refreshes(s, k, s.log[i].sub);
    assert LoginSince(s, i, k, s.log[i].sub);
  }

  lemma LoggedStays(s: State, t: State)
    requires FamilyInv(s) && LoggedSince(s) && Extends(s, t)
    requires forall k :: |s.log| <= k < |t.log| ==> !Rotating(t, k)
    ensures LoggedSince(t)
  {
    forall i, k | 0 <= i < k < |t.log| && t.log[i].ReuseDetected? && Refreshes(t, k, t.log[i].sub)
      ensures LoginSince(t, i, k, t.log[i].sub)
    {
      SinceStays(s, t, i, k);
    }
  }

  lemma FoundsExtends(s: State, t: State, j: Jti)
    requires FamilyInv(s) && Founds(s, t, j)
    ensures Extends(s, t)
  {
  }

  lemma FoundsAfterReuse(s: State, t: State, j: Jti)
    requires FamilyInv(s) && AfterReuse(s) && Founds(s, t, j)
    ensures AfterReuse(t)
  {
    assert forall a :: Live(t, a) && a != j ==> Live(s, a);
  }

  lemma FoundsKeepsSubjects(s: State, t: State, j: Jti)
    requires FamilyInv(s) && SubjectInv(s) && Founds(s, t, j)
    requires IsSubject(t.tables.tokens[j], t.log[|s.log|].identity.vo)
    ensures SubjectInv(t)
  {
    FoundsExtends(s, t, j);
    forall a | a in t.tables.tokens ensures RootSubject(t, a) {
      if a != j { RootStays(s, t, a); }
    }
    FoundsAfterReuse(s, t, j);
    LoggedStays(s, t);
  }

  lemma RotatesExtends(s: State, t: State, old_: Jti, j: Jti)
    requires FamilyInv(s) && Rotates(s, t, old_, j)
    ensures Extends(s, t)
  {
    forall a | a in s.tables.tokens
      ensures a in t.tables.tokens && TokenAdvances(s.tables.tokens[a], t.tables.tokens[a])
    {
      assert a != j;
    }
    assert j !in s.issued && j !in s.family;
  }

  lemma RotatesAfterReuse(s: State, t: State, old_: Jti, j: Jti)
    requires FamilyInv(s) && AfterReuse(s) && Rotates(s, t, old_, j)
    requires t.tables.tokens[j].sub == s.tables.tokens[old_].sub
    ensures AfterReuse(t)
  {
    forall i, a | 0 <= i < |t.log| && t.log[i].ReuseDetected? && Live(t, a) && t.tables.tokens[a].sub == t.log[i].sub
      ensures a in t.family && t.family[a] > i
    {
      var b := if a == j then old_ else a;
      assert i < |s.log| && s.log[i] == t.log[i];
      assert Live(s, b) && t.family[a] == s.family[b];
    }
  }

  lemma RotatesLogs(s: State, t: State, old_: Jti, j: Jti)
    requires FamilyInv(s) && SubjectInv(s) && Rotates(s, t, old_, j) && Extends(s, t)
    ensures LoggedSince(t)
  {
    forall i, k | 0 <= i < k < |t.log| && t.log[i].ReuseDetected? && Refreshes(t, k, t.log[i].sub)
      ensures LoginSince(t, i, k, t.log[i].sub)
    {
      if k < |s.log| {
        SinceStays(s, t, i, k);
      } else {
        assert s.log[i] == t.log[i] && s.tables.tokens[old_].sub == t.log[i].sub;
        assert s.family[old_] > i;
        assert RootSubject(s, old_) && Root(s, old_);
      }
    }
  }

  lemma RotatesKeepsSubjects(s: State, t: State, old_: Jti, j: Jti)
    requires FamilyInv(s) && SubjectInv(s) && Rotates(s, t, old_, j)
    requires t.tables.tokens[j].sub == s.tables.tokens[old_].sub
    ensures SubjectInv(t)
  {
    RotatesExtends(s, t, old_, j);
    forall a | a in t.tables.tokens ensures RootSubject(t, a) {
      if a != j { RootStays(s, t, a); } else { RootStays(s, t, old_); }
    }
    RotatesAfterReuse(s, t, old_, j);
    RotatesLogs(s, t, old_, j);
  }

  lemma OnlyRevokesExtends(s: State, t: State)
    requires FamilyInv(s) && OnlyRevokes(s, t)
    ensures Extends(s, t)
    ensures forall k :: |s.log| <= k < |t.log| ==> !Rotating(t, k)
  {
  }

  lemma OnlyRevokesAfterReuse(s: State, t: State)
    requires FamilyInv(s) && AfterReuse(s) && OnlyRevokes(s, t)
    ensures AfterReuse(t)
  {
    forall i, a | 0 <= i < |t.log| && t.log[i].ReuseDetected? && Live(t, a) && t.tables.tokens[a].sub == t.log[i].sub
      ensures a in t.family && t.family[a] > i
    {
      assert Live(s, a) && TokenAdvances(s.tables.tokens[a], t.tables.tokens[a]);
      assert i < |s.log|;
    }
  }

  lemma OnlyRevokesKeepsSubjects(s: State, t: State)
    requires FamilyInv(s) && SubjectInv(s) && OnlyRevokes(s, t)
    ensures SubjectInv(t)
  {
    OnlyRevokesExtends(s, t);
    forall a | a in t.tables.tokens ensures RootSubject(t, a) {
      RootStays(s, t, a);
    }
    OnlyRevokesAfterReuse(s, t);
    LoggedStays(s, t);
  }
}
