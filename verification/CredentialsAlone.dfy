/**
 One call of `get_token` among the others: with the lock free, its moves leave
 file and server as `GetToken` does for a caller that has no token in memory.
 */
module CredentialsAlone {
  import opened Basics
  import opened AuthTables
  import opened AuthService
  import opened AuthInvariants
  import opened AuthRuns
  import opened Credentials
  import opened CredentialsProtocol

  lemma ConsMoves(w: World, m: Move, rest: seq<Move>, v: Settings)
    requires CredentialsProtocol.Possible(w, m, v) && CredentialsProtocol.Runs(CredentialsProtocol.Do(w, m, v), rest, v)
    ensures CredentialsProtocol.Runs(w, [m] + rest, v)
    ensures CredentialsProtocol.Final(w, [m] + rest, v)
         == CredentialsProtocol.Final(CredentialsProtocol.Do(w, m, v), rest, v)
  {
    assert ([m] + rest)[1..] == rest;
  }

  // The call has ended, with the lock free and the others where they were.
  ghost predicate Ended(w: World, t: World, r: Got, expiresIn: real, env: Env) {
    && t.holder.None? && t.procs == w.procs + [Returned]
    && FromFile(true, w.file, t.file, t.server.tables, w.server, r, expiresIn, env)
  }

  // From the answer of the server to the end of the call.
  lemma Saving(w: World, p: nat, v: Settings) returns (moves: seq<Move>)
    requires p < |w.procs| && w.procs[p].Received?
    ensures CredentialsProtocol.Runs(w, moves, v)
    ensures var t := CredentialsProtocol.Final(w, moves, v);
            t.holder.None? && t.procs == w.procs[p := Returned] && t.file == w.procs[p].response && t.server == w.server
  {
    var w1 := CredentialsProtocol.Do(w, Truncate(p), v);
    ConsMoves(w1, Write(p), [], v);
    ConsMoves(w, Truncate(p), [Write(p)] + [], v);
    moves := [Truncate(p)] + ([Write(p)] + []);
  }

  // From presenting the refresh token to the end.
  lemma Refreshing(w: World, p: nat, env: Env, expiresIn: real, v: Settings) returns (moves: seq<Move>, r: Got)
    requires p < |w.procs| && w.procs[p].Presenting? && env.settings == v
    requires Renewable(w.file, w.server.issued, env.now) && w.file.refresh.value == w.procs[p].jti
    requires !Lasts(w.file.access, env.now)
    ensures CredentialsProtocol.Runs(w, moves, v)
    ensures var t := CredentialsProtocol.Final(w, moves, v);
            && t.holder.None? && t.procs == w.procs[p := Returned]
            && FromFile(true, w.file, t.file, t.server.tables, w.server, r, expiresIn, env)
  {
    var m := Present(p, env, expiresIn);
    var jti := w.procs[p].jti;
    var outcome := Attempt(w.server, Refresh(jti), env);
    var w1 := CredentialsProtocol.Do(w, m, v);
    if outcome.Err? {
      ConsMoves(w, m, [], v);
      moves, r := [m] + [], RefreshFailed(outcome.error);
    } else {
      RefreshBrings(w.server, jti, env);
      var rest := Saving(w1, p, v);
      ConsMoves(w, m, rest, v);
      moves, r := [m] + rest, Token(w1.procs[p].response.access);
      ResponseSaves(outcome.value.1, jti, env.now, expiresIn);
    }
  }

  lemma RefreshBrings(s: State, jti: Jti, env: Env)
    requires Attempt(s, Refresh(jti), env).Ok?
    ensures Attempt(s, Refresh(jti), env).value.1.Tokens?
  {
  }

  lemma ResponseSaves(answer: Answer, presented: Jti, now: real, expiresIn: real)
    requires answer.Tokens?
    ensures Saves(Response(answer, presented, now, expiresIn), answer, presented, now, expiresIn)
  {
  }

  /**
   Whenever the lock is free, a call that starts can run to its end, and then
   has done with file and server what `GetToken` promises.
   */
  lemma CallCanEnd(w: World, env: Env, expiresIn: real, v: Settings) returns (moves: seq<Move>, r: Got)
    requires w.holder.None? && env.settings == v
    ensures CredentialsProtocol.Runs(w, moves, v)
    ensures Ended(w, CredentialsProtocol.Final(w, moves, v), r, expiresIn, env)
  {
    var p := |w.procs|;
    var enter, acquire, read := Enter, Acquire(p), Read(p, env.now);
    var w1 := CredentialsProtocol.Do(w, enter, v);
    var w2 := CredentialsProtocol.Do(w1, acquire, v);
    var w3 := CredentialsProtocol.Do(w2, read, v);
    ExtractExactly(w.file, w.server.issued, env.now);
    var rest: seq<Move>;
    if w3.procs[p].Presenting? {
      rest, r := Refreshing(w3, p, env, expiresIn, v);
    } else {
      rest := [];
      r := Token(if w.file.Saved? && Lasts(w.file.access, env.now) then w.file.access else EMPTY_TOKEN);
    }
    ConsMoves(w2, read, rest, v);
    ConsMoves(w1, acquire, [read] + rest, v);
    ConsMoves(w, enter, [acquire] + ([read] + rest), v);
    moves := [enter] + ([acquire] + ([read] + rest));
  }
}
