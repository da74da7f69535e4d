/** One credentials file and the call that uses it, `get_token`. */
module Credentials {
  import opened Basics
  import opened AuthTables
  import opened AuthService
  import opened AuthObject

  const VALID_SECONDS := 300.0
  const EXPIRES_GRACE_SECONDS := 15.0

  // The access token is named by the refresh that brought it, if any.
  datatype AccessToken = AccessToken(text: string, expiresOn: int)

  const EMPTY_TOKEN := AccessToken("", 0)

  // What the file can hold: text that is no JSON, an object without one of the
  // three keys, or credentials (the refresh token may be null).
  datatype Content = Garbage | Incomplete | Saved(access: AccessToken, refresh: Option<Jti>)

  datatype Extracted = VALID(access: AccessToken) | REFRESH(jti: Jti) | INVALID

  predicate IsTokenValid(token: AccessToken, now: real) { token.expiresOn as real - now > VALID_SECONDS }

  // `expires` is the claim inside the refresh token.
  predicate IsRefreshTokenValid(jti: Jti, expires: map<Jti, real>, now: real) {
    jti != "" && jti in expires && expires[jti] > now
  }

  function Extract(content: Content, expires: map<Jti, real>, now: real): Extracted {
    match content
    case Garbage => INVALID
    case Incomplete => INVALID
    case Saved(access, refresh) =>
      if IsTokenValid(access, now) then VALID(access)
      else if refresh.Some? && IsRefreshTokenValid(refresh.value, expires, now) then REFRESH(refresh.value)
      else INVALID
  }

  function SavedExpiry(now: real, expiresIn: real): int { (now + (expiresIn - EXPIRES_GRACE_SECONDS)).Floor }

  // The token response: a legacy refresh hands the same refresh token back.
  function Response(answer: Answer, presented: Jti, now: real, expiresIn: real): Content
    requires answer.Tokens?
  {
    Saved(AccessToken(if answer.refresh.Some? then answer.refresh.value else presented, SavedExpiry(now, expiresIn)),
          Some(if answer.refresh.Some? then answer.refresh.value else presented))
  }

  function Expiries(issued: map<Jti, Jwt>): map<Jti, real> { map j | j in issued :: issued[j].expires }

  class CredentialsFile {
    var exists_: bool
    var content: Content
    var locked: bool

    constructor (content: Content)
      ensures exists_ && this.content == content && !locked
    {
      exists_, locked := true, false;
      this.content := content;
    }
  }

  datatype Got = Token(access: AccessToken) | RefreshFailed(why: Failure)

  // A token that has more than five minutes left.
  predicate Lasts(token: AccessToken, now: real) { token.expiresOn as real > now + 300.0 }

  // The file holds a refresh token of the server that has not expired.
  predicate Renewable(content: Content, issued: map<Jti, Jwt>, now: real) {
    && content.Saved? && content.refresh.Some? && content.refresh.value != ""
    && content.refresh.value in issued && issued[content.refresh.value].expires > now
  }

  /** What the file is good for, by the time that its tokens have left. */
  lemma ExtractExactly(content: Content, issued: map<Jti, Jwt>, now: real)
    ensures var found := Extract(content, Expiries(issued), now);
            && (found.VALID? <==> content.Saved? && content.access.expiresOn as real > now + 300.0)
            && (found.VALID? ==> found.access == content.access)
            && (found.REFRESH? <==> Renewable(content, issued, now) && !Lasts(content.access, now))
            && (found.REFRESH? ==> found.jti == content.refresh.value)
  {
  }

  // What a call does that finds no token in memory.
  ghost predicate FromFile(exists_: bool, before: Content, after: Content, tables: Tables, s: State, r: Got,
                           expiresIn: real, env: Env) {
    if exists_ && before.Saved? && before.access.expiresOn as real > env.now + 300.0 then
      r == Token(before.access) && after == before && tables == s.tables
    else if exists_ && Renewable(before, s.issued, env.now) then
      var jti := before.refresh.value;
      var outcome := Attempt(s, Refresh(jti), env);
      && tables == Serve(s, Refresh(jti), env).tables
      && (outcome.Err? ==> r == RefreshFailed(outcome.error) && after == before)
      && (outcome.Ok? ==> outcome.value.1.Tokens? && Saves(after, outcome.value.1, jti, env.now, expiresIn)
                          && r == Token(after.access))
    else
      r == Token(AccessToken("", 0)) && after == before && tables == s.tables
  }

  // The new tokens, the refresh token being the old one if none came; whole seconds are saved.
  predicate Saves(content: Content, answer: Answer, presented: Jti, now: real, expiresIn: real) {
    && answer.Tokens? && content.Saved? && content.refresh == Some(content.access.text)
    && content.refresh.value == (if answer.refresh.Some? then answer.refresh.value else presented)
    && now + expiresIn - 16.0 < content.access.expiresOn as real <= now + expiresIn - 15.0
  }

  /**
   A call with no other process about. A token in memory or in the file is given
   back exactly if it has more than 300 seconds left; otherwise an unexpired
   refresh token in the file is presented, and what comes back is saved, to be
   used until 15 seconds before it expires. The lock is released on every path,
   and a failed refresh leaves the file alone.
   */
  method GetToken(cached: Option<AccessToken>, file: CredentialsFile, db: AuthDB, ghost s: State, issued: map<Jti, Jwt>,
    expiresIn: real, env: Env) returns (r: Got)
    requires !file.locked && db.tables == db.committed == s.tables && issued == s.issued
    modifies file, db
    ensures !file.locked && file.exists_ == old(file.exists_)
    ensures cached.Some? && cached.value.expiresOn as real > env.now + 300.0 ==>
              r == Token(cached.value) && file.content == old(file.content) && db.tables == db.committed == s.tables
    ensures !(cached.Some? && cached.value.expiresOn as real > env.now + 300.0)
              && old(file.exists_) && old(file.content).Saved?
              && old(file.content).access.expiresOn as real > env.now + 300.0 ==>
              r == Token(old(file.content).access)
    ensures !(cached.Some? && cached.value.expiresOn as real > env.now + 300.0) ==>
              FromFile(old(file.exists_), old(file.content), file.content, db.tables, s, r, expiresIn, env)
              && db.tables == db.committed
  {
    ghost var content := file.content;
    ExtractExactly(content, issued, env.now);
    if cached.Some? && IsTokenValid(cached.value, env.now) { return Token(cached.value); }
    if !file.exists_ { return Token(EMPTY_TOKEN); }
    file.locked := true;
    var found := Extract(file.content, Expiries(issued), env.now);
    if found.VALID? {
      file.locked := false;
      return Token(found.access);
    }
    if found.REFRESH? {
      var answer := RefreshGrant(db, s, found.jti, if found.jti in issued then Some(issued[found.jti]) else None, env);
      if answer.Err? {
        file.locked := false;
        return RefreshFailed(answer.error);
      }
      var response := Response(answer.value.answer, found.jti, env.now, expiresIn);
      file.content := Garbage;
      file.content := response;
      file.locked := false;
      return Token(response.access);
    }
    file.locked := false;
    r := Token(EMPTY_TOKEN);
  }
}
