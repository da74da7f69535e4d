/**
 Any number of processes that share one credentials file, each inside
 `get_token`, against the token endpoint, which serves other clients as well.

 A process that cannot answer from memory takes the exclusive lock, reads the
 file, presents the refresh token, truncates the file and writes the answer,
 with other processes and other clients of the server moving in between. Answers
 of the server reach the process, and no login or logout touches the file.
 */
module CredentialsProtocol {
  import opened Basics
  import opened AuthTables
  import opened AuthService
  import opened AuthInvariants
  import opened AuthLog
  import opened AuthRotation
  import opened AuthRuns
  import opened Credentials

  datatype Pc =
    | Waiting
    | Reading
    | Presenting(jti: Jti)
    | Received(response: Content)
    | Truncated(response: Content)
    | Returned

  // A refresh token presented to the server, and what came of it.
  datatype Presented = Presented(jti: Jti, rotated: bool, reused: bool)

  // `lineage` is every refresh token the file has held or is about to hold.
  datatype World = World(
    server: State, file: Content, holder: Option<nat>, procs: seq<Pc>,
    sent: seq<Presented>, lineage: set<Jti>)

  datatype Move =
    | Enter
    | Acquire(p: nat)
    | Read(p: nat, now: real)
    | Present(p: nat, env: Env, expiresIn: real)
    | Truncate(p: nat)
    | Write(p: nat)
    | Elsewhere(request: Request, env: Env)

  predicate ProcAt(w: World, p: nat, pc: Pc) { p < |w.procs| && w.procs[p] == pc }

  // Other clients do not hold the tokens of this file.
  predicate Foreign(r: Request, lineage: set<Jti>) { r.Refresh? ==> r.jti !in lineage }

  ghost predicate Possible(w: World, m: Move, v: Settings) {
    match m
    case Enter => true
    case Acquire(p) => ProcAt(w, p, Waiting) && w.holder.None?
    case Read(p, _) => ProcAt(w, p, Reading)
    case Present(p, env, _) => p < |w.procs| && w.procs[p].Presenting? && env.settings == v
    case Truncate(p) => p < |w.procs| && w.procs[p].Received?
    case Write(p) => p < |w.procs| && w.procs[p].Truncated?
    case Elsewhere(r, env) => Foreign(r, w.lineage) && FreshCode(w.server, r) && env.settings == v
  }

  function Goto(w: World, p: nat, pc: Pc): World
    requires p < |w.procs|
  {
    w.(procs := w.procs[p := pc])
  }

  // The `finally` block.
  function Leave(w: World, p: nat): World
    requires p < |w.procs|
  {
    Goto(w, p, Returned).(holder := None)
  }

  // The answer of the server reaches the process that asked.
  function Receive(w: World, p: nat, server: State, answer: Result<Answer, Failure>, now: real, expiresIn: real): World
    requires p < |w.procs| && w.procs[p].Presenting?
  {
    var jti := w.procs[p].jti;
    var rotated := answer.Ok? && answer.value.Tokens? && answer.value.refresh.Some?;
    var after := w.(server := server, sent := w.sent + [Presented(jti, rotated, answer == Err(ReusedToken))]);
    if answer.Err? || !answer.value.Tokens? then Leave(after, p)
    else
      var response := Response(answer.value, jti, now, expiresIn);
      Goto(after, p, Received(response)).(lineage := w.lineage + {response.refresh.value})
  }

  ghost function AnswerOf(outcome: Outcome): Result<Answer, Failure> {
    match outcome
    case Ok(v) => Ok(v.1)
    case Err(e) => Err(e)
  }

  ghost function PresentToken(w: World, p: nat, env: Env, expiresIn: real): World
    requires p < |w.procs| && w.procs[p].Presenting?
  {
    var r := Refresh(w.procs[p].jti);
    Receive(w, p, Serve(w.server, r, env), AnswerOf(Attempt(w.server, r, env)), env.now, expiresIn)
  }

  ghost function Do(w: World, m: Move, v: Settings): World
    requires Possible(w, m, v)
  {
    match m
    case Enter => w.(procs := w.procs + [Waiting])
    case Acquire(p) => Goto(w, p, Reading).(holder := Some(p))
    case Read(p, now) =>
      var found := Extract(w.file, Expiries(w.server.issued), now);
      if found.REFRESH? then Goto(w, p, Presenting(found.jti)) else Leave(w, p)
    case Present(p, env, expiresIn) => PresentToken(w, p, env, expiresIn)
    case Truncate(p) => Goto(w, p, Truncated(w.procs[p].response)).(file := Garbage)
    case Write(p) => Leave(w, p).(file := w.procs[p].response)
    case Elsewhere(r, env) => w.(server := Serve(w.server, r, env))
  }

  // ------------------------------------------------------------------
  // The invariant
  // ------------------------------------------------------------------

  predicate Spent(w: World, j: Jti) {
    exists i :: 0 <= i < |w.sent| && w.sent[i].jti == j && w.sent[i].rotated
  }

  // Content that may be presented: genuine, known, and not rotated yet.
  predicate Usable(w: World, c: Content) {
    c.Saved? && c.refresh.Some? ==> c.refresh.value in w.lineage && !Spent(w, c.refresh.value)
  }

  // What the process inside the lock has in hand.
  predicate InHand(w: World, pc: Pc) {
    match pc
    case Reading => Usable(w, w.file) && !w.file.Garbage?
    case Presenting(j) => w.file.Saved? && w.file.refresh == Some(j) && Usable(w, w.file)
    case Received(c) => c.Saved? && Usable(w, c) && !w.file.Garbage?
    case Truncated(c) => c.Saved? && Usable(w, c) && w.file.Garbage?
    case _ => false
  }

  ghost predicate LockInv(w: World) {
    && (forall p :: 0 <= p < |w.procs| ==> (w.procs[p].Waiting? || w.procs[p].Returned? <==> w.holder != Some(p)))
    && (w.holder.Some? ==> w.holder.value < |w.procs| && InHand(w, w.procs[w.holder.value]))
    && (w.holder.None? ==> Usable(w, w.file) && !w.file.Garbage?)
  }

  ghost predicate SentInv(w: World) {
    && (forall j :: j in w.lineage ==> j in w.server.issued && j in w.server.tables.tokens)
    && (forall i :: 0 <= i < |w.sent| ==> w.sent[i].jti in w.lineage)
    && (forall i, k :: 0 <= i < k < |w.sent| && w.sent[i].rotated ==> w.sent[k].jti != w.sent[i].jti)
  }

  ghost predicate WorldInv(w: World, v: Settings) {
    ServiceInv(w.server, v) && LockInv(w) && SentInv(w)
  }

  // Nobody else has revoked a token of this file.
  predicate Untouched(w: World) {
    forall j :: j in w.lineage && !Spent(w, j) && j in w.server.issued && !w.server.issued[j].legacy ==>
      j in w.server.tables.tokens && w.server.tables.tokens[j].status == CREATED
  }

  // ------------------------------------------------------------------
  // Every move keeps it
  // ------------------------------------------------------------------

  lemma ReaderMoves(w: World, m: Move, v: Settings)
    requires LockInv(w) && SentInv(w) && Possible(w, m, v)
    requires m.Enter? || m.Acquire? || m.Read? || m.Truncate? || m.Write?
    ensures LockInv(Do(w, m, v)) && SentInv(Do(w, m, v))
    ensures Untouched(w) ==> Untouched(Do(w, m, v))
  {
    var t := Do(w, m, v);
    assert forall j :: Spent(t, j) <==> Spent(w, j);
  }

  // What the refresh grant does, seen from the client.
  ghost predicate Exchanged(s: State, t: State, jti: Jti, answer: Result<Answer, Failure>) {
    && Later(s, t)
    && (answer == Err(ReusedToken) ==>
         jti in s.issued && !s.issued[jti].legacy && jti in s.tables.tokens && s.tables.tokens[jti].status == REVOKED)
    && (answer.Err? && answer != Err(ReusedToken) ==> t.tables == s.tables)
    && (answer.Ok? ==>
         && answer.value.Tokens? && jti in s.issued
         && (answer.value.refresh.None? ==> s.issued[jti].legacy && t.tables.tokens == s.tables.tokens)
         && (answer.value.refresh.Some? ==> !s.issued[jti].legacy && Rotates(s, t, jti, answer.value.refresh.value)))
  }

  lemma RefreshAnswers(s: State, jti: Jti, env: Env)
    requires ExchangeRefreshToken(s, jti, env).Ok?
    ensures var v := ExchangeRefreshToken(s, jti, env).value;
            && v.1.Tokens? && jti in s.issued
            && (s.issued[jti].legacy ==> v.1.refresh == None && v.0.tables == s.tables)
            && (!s.issued[jti].legacy ==> v.1.refresh == Some(env.jti))
  {
  }

  lemma RefreshRefuses(s: State, jti: Jti, env: Env)
    requires ExchangeRefreshToken(s, jti, env).Err?
    ensures var e := ExchangeRefreshToken(s, jti, env).error;
            && (e == ReusedToken ==>
                 jti in s.issued && !s.issued[jti].legacy && jti in s.tables.tokens
                     && s.tables.tokens[jti].status == REVOKED)
            && (e != ReusedToken ==> Serve(s, Refresh(jti), env) == s)
  {
  }

  lemma RefreshExchanges(s: State, jti: Jti, env: Env)
    requires FamilyInv(s) && Later(s, Serve(s, Refresh(jti), env))
    ensures Exchanged(s, Serve(s, Refresh(jti), env), jti, AnswerOf(Attempt(s, Refresh(jti), env)))
  {
    var t, answer := Serve(s, Refresh(jti), env), AnswerOf(Attempt(s, Refresh(jti), env));
    if ExchangeRefreshToken(s, jti, env).Ok? {
      AcceptedIs(s, jti, env);
      AcceptedExchanges(s, t, jti, env, answer);
    } else {
      RefusedExchanges(s, t, jti, env, answer);
    }
  }

  lemma AcceptedIs(s: State, jti: Jti, env: Env)
    requires ExchangeRefreshToken(s, jti, env).Ok?
    ensures var v := ExchangeRefreshToken(s, jti, env).value;
            Serve(s, Refresh(jti), env) == v.0 && AnswerOf(Attempt(s, Refresh(jti), env)) == Ok(v.1)
  {
  }

  lemma AcceptedExchanges(s: State, t: State, jti: Jti, env: Env, answer: Result<Answer, Failure>)
    requires FamilyInv(s) && Later(s, t) && ExchangeRefreshToken(s, jti, env).Ok?
    requires var v := ExchangeRefreshToken(s, jti, env).value; t == v.0 && answer == Ok(v.1)
    ensures Exchanged(s, t, jti, answer)
  {
    RefreshAnswers(s, jti, env);
    RefreshMoves(s, jti, env);
    OkExchanged(s, t, jti, env.jti, answer.value);
  }

  lemma RefusedExchanges(s: State, t: State, jti: Jti, env: Env, answer: Result<Answer, Failure>)
    requires Later(s, t) && ExchangeRefreshToken(s, jti, env).Err?
    requires t == Serve(s, Refresh(jti), env) && answer == AnswerOf(Attempt(s, Refresh(jti), env))
    ensures Exchanged(s, t, jti, answer)
  {
    RefreshRefuses(s, jti, env);
    ErrExchanged(s, t, jti, ExchangeRefreshToken(s, jti, env).error);
  }

  lemma ErrExchanged(s: State, t: State, jti: Jti, e: Failure)
    requires Later(s, t)
    requires e == ReusedToken ==>
               jti in s.issued && !s.issued[jti].legacy && jti in s.tables.tokens
                   && s.tables.tokens[jti].status == REVOKED
    requires e != ReusedToken ==> t == s
    ensures Exchanged(s, t, jti, Err(e))
  {
  }

  lemma OkExchanged(s: State, t: State, jti: Jti, j: Jti, answer: Answer)
    requires Later(s, t) && answer.Tokens? && jti in s.issued
    requires s.issued[jti].legacy ==> answer.refresh == None && t.tables == s.tables
    requires !s.issued[jti].legacy ==> answer.refresh == Some(j) && Rotates(s, t, jti, j)
    ensures Exchanged(s, t, jti, Ok(answer))
  {
  }

  lemma ServeKeepsService(s: State, r: Request, env: Env, v: Settings)
    requires ServiceInv(s, v) && env.settings == v && FreshCode(s, r)
    ensures ServiceInv(Serve(s, r, env), v) && Later(s, Serve(s, r, env))
  {
    ServeSteps(s, r, env);
    ServeLog(s, r, env);
    ServeFamilies(s, r, env);
  }

  // One more presentation, of a token that has not been rotated before.
  lemma SentGrows(w: World, t: World, p: nat, sent: Presented)
    requires SentInv(w) && t.sent == w.sent + [sent] && sent.jti in w.lineage && !Spent(w, sent.jti)
    requires Later(w.server, t.server) && w.lineage <= t.lineage
    requires forall j :: j in t.lineage && j !in w.lineage ==> j in t.server.issued && j in t.server.tables.tokens
    ensures SentInv(t)
    ensures forall j :: Spent(t, j) <==> Spent(w, j) || (j == sent.jti && sent.rotated)
    ensures forall j :: j !in w.lineage ==> !Spent(t, j)
  {
    forall j ensures Spent(t, j) <==> Spent(w, j) || (j == sent.jti && sent.rotated) {
      if Spent(w, j) {
        var i :| 0 <= i < |w.sent| && w.sent[i].jti == j && w.sent[i].rotated;
        assert t.sent[i] == w.sent[i];
      }
      if j == sent.jti && sent.rotated { assert t.sent[|w.sent|] == sent; }
    }
    forall i, k | 0 <= i < k < |t.sent| && t.sent[i].rotated ensures t.sent[k].jti != t.sent[i].jti {
      assert w.sent[i] == t.sent[i];
    }
  }

  lemma ReceiveSends(w: World, p: nat, server: State, answer: Result<Answer, Failure>, now: real, expiresIn: real)
    requires LockInv(w) && SentInv(w) && p < |w.procs| && w.procs[p].Presenting?
    requires Exchanged(w.server, server, w.procs[p].jti, answer)
    ensures var t := Receive(w, p, server, answer, now, expiresIn);
            && SentInv(t) && |t.sent| == |w.sent| + 1
            && (forall j :: Spent(t, j) <==> Spent(w, j) || (j == t.sent[|w.sent|].jti && t.sent[|w.sent|].rotated))
            && (forall j :: j !in w.lineage ==> !Spent(t, j))
  {
    assert w.holder == Some(p);
    var t := Receive(w, p, server, answer, now, expiresIn);
    SentGrows(w, t, p, t.sent[|w.sent|]);
  }

  lemma ReceiveUntouched(w: World, p: nat, server: State, answer: Result<Answer, Failure>, now: real, expiresIn: real)
    requires LockInv(w) && SentInv(w) && p < |w.procs| && w.procs[p].Presenting?
    requires Exchanged(w.server, server, w.procs[p].jti, answer)
    requires Untouched(w)
    ensures Untouched(Receive(w, p, server, answer, now, expiresIn))
    ensures NoneReused(w) ==> NoneReused(Receive(w, p, server, answer, now, expiresIn))
  {
    assert w.holder == Some(p);
    ReceiveSends(w, p, server, answer, now, expiresIn);
  }

  lemma ReceiveKeeps(w: World, p: nat, server: State, answer: Result<Answer, Failure>, now: real, expiresIn: real)
    requires LockInv(w) && SentInv(w) && p < |w.procs| && w.procs[p].Presenting?
    requires Exchanged(w.server, server, w.procs[p].jti, answer)
    ensures LockInv(Receive(w, p, server, answer, now, expiresIn))
    ensures SentInv(Receive(w, p, server, answer, now, expiresIn))
  {
    assert w.holder == Some(p);
    ReceiveSends(w, p, server, answer, now, expiresIn);
  }

  lemma PresentUntouched(w: World, p: nat, env: Env, expiresIn: real, v: Settings)
    requires WorldInv(w, v) && Possible(w, Present(p, env, expiresIn), v) && Untouched(w)
    ensures Untouched(PresentToken(w, p, env, expiresIn))
    ensures NoneReused(w) ==> NoneReused(PresentToken(w, p, env, expiresIn))
  {
    var r := Refresh(w.procs[p].jti);
    ServeKeepsService(w.server, r, env, v);
    RefreshExchanges(w.server, r.jti, env);
    ReceiveUntouched(w, p, Serve(w.server, r, env), AnswerOf(Attempt(w.server, r, env)), env.now, expiresIn);
  }

  lemma PresentKeeps(w: World, p: nat, env: Env, expiresIn: real, v: Settings)
    requires WorldInv(w, v) && Possible(w, Present(p, env, expiresIn), v)
    ensures WorldInv(PresentToken(w, p, env, expiresIn), v)
  {
    var r := Refresh(w.procs[p].jti);
    ServeKeepsService(w.server, r, env, v);
    RefreshExchanges(w.server, r.jti, env);
    ReceiveKeeps(w, p, Serve(w.server, r, env), AnswerOf(Attempt(w.server, r, env)), env.now, expiresIn);
  }

  lemma ElsewhereKeeps(w: World, r: Request, env: Env, v: Settings)
    requires WorldInv(w, v) && Possible(w, Elsewhere(r, env), v)
    ensures WorldInv(Do(w, Elsewhere(r, env), v), v)
  {
    ServeKeepsService(w.server, r, env, v);
    var t := Do(w, Elsewhere(r, env), v);
    assert forall j :: Spent(t, j) <==> Spent(w, j);
  }

  lemma MoveKeeps(w: World, m: Move, v: Settings)
    requires WorldInv(w, v) && Possible(w, m, v)
    ensures WorldInv(Do(w, m, v), v)
  {
    match m {
      case Present(p, env, expiresIn) => PresentKeeps(w, p, env, expiresIn, v);
      case Elsewhere(r, env) => ElsewhereKeeps(w, r, env, v);
      case _ => ReaderMoves(w, m, v);
    }
  }

  // ------------------------------------------------------------------
  // Runs
  // ------------------------------------------------------------------

  ghost predicate Runs(w: World, moves: seq<Move>, v: Settings)
    decreases |moves|
  {
    moves == [] || (Possible(w, moves[0], v) && Runs(Do(w, moves[0], v), moves[1..], v))
  }

  ghost function Final(w: World, moves: seq<Move>, v: Settings): World
    requires Runs(w, moves, v)
    decreases |moves|
  {
    if moves == [] then w else Final(Do(w, moves[0], v), moves[1..], v)
  }

  // The file after one completed login, before anyone has touched it.
  ghost predicate LoggedIn(w: World, v: Settings) {
    && ServiceInv(w.server, v) && w.holder.None? && w.procs == [] && w.sent == []
    && w.file.Saved? && w.file.refresh.Some? && w.lineage == {w.file.refresh.value}
    && w.file.refresh.value in w.server.issued
  }

  lemma {:induction false} RunKeeps(w: World, moves: seq<Move>, v: Settings)
    requires WorldInv(w, v) && Runs(w, moves, v)
    ensures WorldInv(Final(w, moves, v), v)
    decreases |moves|
  {
    if moves != [] {
      MoveKeeps(w, moves[0], v);
      RunKeeps(Do(w, moves[0], v), moves[1..], v);
    }
  }

  /**
   However the processes interleave, a refresh token that has been rotated is
   never presented again, and a process that gets the lock never finds the file
   half written.
   */
  lemma NeverPresentedTwice(w: World, moves: seq<Move>, v: Settings)
    requires LoggedIn(w, v) && Runs(w, moves, v)
    ensures var t := Final(w, moves, v);
            && (forall i, k :: 0 <= i < k < |t.sent| && t.sent[i].rotated ==> t.sent[k].jti != t.sent[i].jti)
            && (t.holder.None? ==> t.file.Saved? || t.file.Incomplete?)
            && (forall p, q :: 0 <= p < |t.procs| && 0 <= q < |t.procs| && Inside(t.procs[p]) && Inside(t.procs[q]) ==>
                p == q)
  {
    RunKeeps(w, moves, v);
  }

  /** The file is unreadable exactly while some process has truncated it and not written it yet. */
  lemma UnreadableExactly(w: World, moves: seq<Move>, v: Settings)
    requires LoggedIn(w, v) && Runs(w, moves, v)
    ensures var t := Final(w, moves, v);
            t.file.Garbage? <==> exists p :: 0 <= p < |t.procs| && t.procs[p].Truncated?
  {
    RunKeeps(w, moves, v);
    var t := Final(w, moves, v);
    if t.holder.Some? && t.procs[t.holder.value].Truncated? { assert t.file.Garbage?; }
  }

  predicate Inside(pc: Pc) { !pc.Waiting? && !pc.Returned? }

  // No request of another client changes the status of a token of the file.
  ghost predicate LeftAlone(w: World, moves: seq<Move>, v: Settings)
    requires Runs(w, moves, v)
    decreases |moves|
  {
    moves == [] ||
    (&& (moves[0].Elsewhere? ==> SameStatus(w, Do(w, moves[0], v)))
     && LeftAlone(Do(w, moves[0], v), moves[1..], v))
  }

  predicate SameStatus(w: World, t: World) {
    forall j :: j in w.lineage && j in w.server.tables.tokens ==>
      j in t.server.tables.tokens && t.server.tables.tokens[j].status == w.server.tables.tokens[j].status
  }

  predicate NoneReused(w: World) { forall i :: 0 <= i < |w.sent| ==> !w.sent[i].reused }

  lemma MoveUntouched(w: World, m: Move, v: Settings)
    requires WorldInv(w, v) && Untouched(w) && NoneReused(w) && Possible(w, m, v)
    requires m.Elsewhere? ==> SameStatus(w, Do(w, m, v))
    ensures Untouched(Do(w, m, v)) && NoneReused(Do(w, m, v))
  {
    if m.Present? {
      PresentUntouched(w, m.p, m.env, m.expiresIn, v);
    } else {
      OthersSendNothing(w, m, v);
      if m.Elsewhere? { ElsewhereUntouched(w, m.request, m.env, v); } else { ReaderMoves(w, m, v); }
    }
  }

  lemma OthersSendNothing(w: World, m: Move, v: Settings)
    requires Possible(w, m, v) && !m.Present?
    ensures Do(w, m, v).sent == w.sent
  {
  }

  lemma ElsewhereUntouched(w: World, r: Request, env: Env, v: Settings)
    requires WorldInv(w, v) && Untouched(w) && Possible(w, Elsewhere(r, env), v)
    requires SameStatus(w, Do(w, Elsewhere(r, env), v))
    ensures Untouched(Do(w, Elsewhere(r, env), v))
  {
    ServeKeepsService(w.server, r, env, v);
    var t := Do(w, Elsewhere(r, env), v);
    assert forall j :: Spent(t, j) <==> Spent(w, j);
  }

  lemma {:induction false} RunUntouched(w: World, moves: seq<Move>, v: Settings)
    requires WorldInv(w, v) && Untouched(w) && NoneReused(w) && Runs(w, moves, v) && LeftAlone(w, moves, v)
    ensures NoneReused(Final(w, moves, v))
    decreases |moves|
  {
    if moves != [] {
      MoveKeeps(w, moves[0], v);
      MoveUntouched(w, moves[0], v);
      RunUntouched(Do(w, moves[0], v), moves[1..], v);
    }
  }

  /**
   If nobody else revokes the tokens of the file, the reuse detection of the
   server never answers any of the processes.
   */
  lemma ReuseNeverDetected(w: World, moves: seq<Move>, v: Settings)
    requires LoggedIn(w, v) && Runs(w, moves, v) && LeftAlone(w, moves, v)
    requires var j := w.file.refresh.value; w.server.issued[j].legacy || Live(w.server, j)
    ensures var t := Final(w, moves, v); forall i :: 0 <= i < |t.sent| ==> !t.sent[i].reused
  {
    RunUntouched(w, moves, v);
  }
}
