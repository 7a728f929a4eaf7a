/**
 The SDK's single-flight refresh composed with the server's rotation. Everything between two awaits of the client is
 one step, as is one server call; steps of any number of requests, and of any other party, interleave freely.
 */
module RefreshProtocol {
  import opened Common
  import opened TokenFamilies
  import opened AuthModel
  import opened AuthRuns
  import opened AuthTheorems
  import opened AuthLaws

  // ---------- the client ----------

  // The shared promise: none, waiting for the server's answer, or settled but not yet cleared by its starter.
  datatype Flight = Grounded | Asking | Landed(ok: bool)

  datatype Client = Client(access: Option<Access>, refresh: Option<Token>, flight: Flight)

  function Cleared(c: Client): Client { c.(access := None, refresh := None) }

  /** A 401 arrives: join the refresh in flight, or start one and send the stored token. */
  function OnUnauthorized(c: Client): (r: (Client, Option<Token>)) {
    if c.flight != Grounded then (c, None)
    else if c.refresh.None? then (Cleared(c).(flight := Landed(false)), None)
    else (c.(flight := Asking), c.refresh)
  }

  /** Errors that answer with a 4xx status; a failing claims provider answers 500. */
  predicate ClientError(e: AuthError) { e != ClaimsProviderFailed }

  function OnReply(c: Client, reply: Reply): Client {
    match reply
    case Granted(_, refresh, access) => Client(Some(access), Some(refresh), Landed(true))
    case Refused(e) => if ClientError(e) then Cleared(c).(flight := Landed(false)) else c.(flight := Landed(false))
    case Done => c.(flight := Landed(true))
  }

  // ---------- the world ----------

  // A request of the application: its first fetch, the wait for refresh number `flight`, its one retry, its end.
  datatype Phase = First | Waiting(flight: nat) | Retrying | Finished

  datatype Task = Task(phase: Phase, fetches: nat)

  // `served` and `answers` are history: the server's replies so far, and how each refresh came out.
  datatype World = World(
    server: State,
    client: Client,
    requests: seq<Token>,
    replies: seq<Reply>,
    tasks: map<nat, Task>,
    flights: nat,
    starter: nat,
    answers: map<nat, bool>,
    served: seq<Reply>)

  datatype Action =
    | Fetch(task: nat)
    | Respond(task: nat, unauthorized: bool)
    | ServerAnswers(now: int, issued: Token)
    | Deliver
    | Resume(task: nat)
    | Elsewhere(now: int, op: Op)

  function Handle401(w: World, task: nat): World {
    var (client, sent) := OnUnauthorized(w.client);
    if w.client.flight != Grounded then w.(tasks := w.tasks[task := Task(Waiting(w.flights), 1)])
    else
      var started := w.(client := client, flights := w.flights + 1, starter := task,
                        tasks := w.tasks[task := Task(Waiting(w.flights + 1), 1)]);
      if sent.Some? then started.(requests := w.requests + [sent.value])
      else started.(answers := w.answers[w.flights + 1 := false])
  }

  function Responded(w: World, task: nat, unauthorized: bool): World {
    if task !in w.tasks then w
    else if w.tasks[task].phase == First && unauthorized then Handle401(w, task)
    else if w.tasks[task].phase == First || w.tasks[task].phase == Retrying then
      w.(tasks := w.tasks[task := w.tasks[task].(phase := Finished)])
    else w
  }

  /** The server has taken the pending request with this outcome. */
  function Answered(w: World, out: Outcome): World
    requires w.requests != []
  {
    w.(server := out.state, requests := w.requests[1..], replies := w.replies + [out.reply],
       served := w.served + [out.reply])
  }

  function Delivered(w: World): World {
    if w.replies == [] then w
    else
      var client := OnReply(w.client, w.replies[0]);
      w.(client := client, replies := w.replies[1..], answers := w.answers[w.flights := client.flight == Landed(true)])
  }

  function Resumed(w: World, task: nat): World {
    if task !in w.tasks || !w.tasks[task].phase.Waiting? || w.tasks[task].phase.flight !in w.answers then w
    else
      var n := w.tasks[task].phase.flight;
      var done := if w.answers[n] then Task(Retrying, w.tasks[task].fetches + 1) else w.tasks[task].(phase := Finished);
      var client := if n == w.flights && task == w.starter then w.client.(flight := Grounded) else w.client;
      w.(tasks := w.tasks[task := done], client := client)
  }

  ghost function Step(cfg: Config, w: World, a: Action): World {
    match a
    case Fetch(task) => if task in w.tasks then w else w.(tasks := w.tasks[task := Task(First, 1)])
    case Respond(task, unauthorized) => Responded(w, task, unauthorized)
    case ServerAnswers(now, issued) =>
      if w.requests == [] then w else Answered(w, RefreshGrant(cfg, w.server, now, w.requests[0], issued, true))
    case Deliver => Delivered(w)
    case Resume(task) => Resumed(w, task)
    case Elsewhere(now, op) => w.(server := Apply(cfg, w.server, now, op).state)
  }

  // ---------- assumptions of the protocol ----------

  /** `token` is the live token of the family that grew out of row `session`. */
  ghost predicate LiveLeaf(t: Table, session: nat, token: Token) {
    var row := Lookup(t, token);
    row.Some? && !t[row.value].revoked && Root(t, row.value) == session
  }

  /** The token the session stands on: the stored one, or the one on its way to the client. */
  function Standing(w: World): Option<Token> {
    if w.replies != [] && w.replies[0].Granted? then Some(w.replies[0].refresh) else w.client.refresh
  }

  /** New tokens are new, and nobody else revokes the session's live token. */
  ghost predicate Allowed(cfg: Config, w: World, session: nat, a: Action) {
    match a
    case ServerAnswers(_, issued) => Unused(w.server.tokens, issued)
    case Elsewhere(now, op) =>
      && Enabled(w.server, op)
      && (Standing(w).Some? && LiveLeaf(w.server.tokens, session, Standing(w).value) ==>
            LiveLeaf(Apply(cfg, w.server, now, op).state.tokens, session, Standing(w).value))
    case _ => true
  }

  // ---------- the invariant ----------

  /** The refusals a live token can meet: the account is not eligible now. */
  predicate IsIneligible(e: AuthError) {
    e == AccountDisabled || e == AccountInactive || e == EmailNotConfirmed
  }

  ghost predicate ClientSound(w: World, session: nat) {
    && (w.client.flight != Asking ==> w.requests == [] && w.replies == [])
    && (w.client.flight == Asking ==> |w.requests| + |w.replies| == 1)
    && (w.requests != [] ==> w.client.refresh == Some(w.requests[0]))
    && (w.replies != [] ==> w.replies[0].Granted? || (w.replies[0].Refused? && IsIneligible(w.replies[0].error)))
    && (Standing(w).Some? && !(w.replies != [] && w.replies[0].Refused?) ==>
          LiveLeaf(w.server.tokens, session, Standing(w).value))
  }

  ghost predicate AnswersSound(w: World) {
    && (forall n :: n in w.answers ==> n <= w.flights)
    && (w.client.flight == Asking ==> w.flights !in w.answers)
    && (w.client.flight.Landed? ==> w.flights in w.answers && w.answers[w.flights] == w.client.flight.ok)
    && |w.served| + |w.requests| <= w.flights
    && (forall r :: r in w.served ==> r != Refused(TokenReuseDetected))
  }

  ghost predicate TaskSound(w: World, task: nat)
    requires task in w.tasks
  {
    match w.tasks[task].phase
    case First => w.tasks[task].fetches == 1
    case Waiting(n) => w.tasks[task].fetches == 1 && n <= w.flights &&
      (n in w.answers || (n == w.flights && w.client.flight == Asking))
    case Retrying => w.tasks[task].fetches == 2
    case Finished => w.tasks[task].fetches <= 2
  }

  ghost predicate Coordinated(w: World, session: nat) {
    ClientSound(w, session) && AnswersSound(w) && forall task :: task in w.tasks ==> TaskSound(w, task)
  }

  ghost predicate Sound(w: World, session: nat) {
    Inv(w.server) && Coordinated(w, session)
  }

  // ---------- every step keeps it ----------

  lemma RefreshOfLiveLeaf(cfg: Config, s: State, session: nat, now: int, presented: Token, issued: Token)
    requires TokensOwned(s) && LiveLeaf(s.tokens, session, presented) && Unused(s.tokens, issued)
    ensures var out := RefreshGrant(cfg, s, now, presented, issued, true);
      || (out.reply.Granted? && out.reply.refresh == issued && LiveLeaf(out.state.tokens, session, issued))
      || (out.reply.Refused? && IsIneligible(out.reply.error) && out.state == s)
  {
    var id := Lookup(s.tokens, presented).value;
    var out := RefreshGrant(cfg, s, now, presented, issued, true);
    if out.reply.Granted? {
      RotatedRoot(s.tokens, id, issued);
      assert out.state.tokens[|s.tokens|].token == issued;
    }
  }

  lemma AnsweredSound(w: World, session: nat, out: Outcome)
    requires Coordinated(w, session) && w.requests != []
    requires
      || (out.reply.Granted? && LiveLeaf(out.state.tokens, session, out.reply.refresh))
      || (out.reply.Refused? && IsIneligible(out.reply.error) && out.state == w.server)
    ensures Coordinated(Answered(w, out), session)
  {
    var v := Answered(w, out);
    assert v.requests == [] && v.replies == [out.reply];
    forall task | task in v.tasks ensures TaskSound(v, task) { assert TaskSound(w, task); }
    forall r | r in v.served ensures r != Refused(TokenReuseDetected) { assert r in w.served || r == out.reply; }
  }

  lemma ServerStepSound(cfg: Config, w: World, session: nat, now: int, issued: Token)
    requires Sound(w, session) && Unused(w.server.tokens, issued) && w.requests != []
    ensures Sound(Answered(w, RefreshGrant(cfg, w.server, now, w.requests[0], issued, true)), session)
  {
    RefreshOfLiveLeaf(cfg, w.server, session, now, w.requests[0], issued);
    RefreshKeepsInv(cfg, w.server, now, w.requests[0], issued);
    AnsweredSound(w, session, RefreshGrant(cfg, w.server, now, w.requests[0], issued, true));
  }

  lemma RefreshKeepsInv(cfg: Config, s: State, now: int, presented: Token, issued: Token)
    requires Inv(s) && Unused(s.tokens, issued)
    ensures Inv(RefreshGrant(cfg, s, now, presented, issued, true).state)
  {
    ApplyKept(cfg, s, now, RefreshOp(presented, issued, true));
  }

  lemma ElsewhereSound(cfg: Config, w: World, session: nat, now: int, op: Op)
    requires Sound(w, session) && Allowed(cfg, w, session, Elsewhere(now, op))
    ensures Sound(Step(cfg, w, Elsewhere(now, op)), session)
  {
    ApplyKept(cfg, w.server, now, op);
    var server := Apply(cfg, w.server, now, op).state;
    ServerReplacedSound(w, session, server);
  }

  lemma ServerReplacedSound(w: World, session: nat, server: State)
    requires Coordinated(w, session)
    requires Standing(w).Some? && LiveLeaf(w.server.tokens, session, Standing(w).value) ==>
      LiveLeaf(server.tokens, session, Standing(w).value)
    ensures Coordinated(w.(server := server), session)
  {
    var v := w.(server := server);
    forall task | task in v.tasks ensures TaskSound(v, task) { assert TaskSound(w, task); }
  }

  lemma Handle401Sound(w: World, session: nat, task: nat)
    requires Coordinated(w, session) && task in w.tasks
    ensures Coordinated(Handle401(w, task), session)
  {
    var v := Handle401(w, task);
    forall k | k in v.tasks ensures TaskSound(v, k) { assert TaskSound(w, k); }
  }

  lemma RespondedSound(w: World, session: nat, task: nat, unauthorized: bool)
    requires Coordinated(w, session)
    ensures Coordinated(Responded(w, task, unauthorized), session)
  {
    if task in w.tasks {
      if w.tasks[task].phase == First && unauthorized {
        Handle401Sound(w, session, task);
      } else {
        var v := Responded(w, task, unauthorized);
        forall k | k in v.tasks ensures TaskSound(v, k) { assert TaskSound(w, k); }
      }
    }
  }

  lemma DeliveredSound(w: World, session: nat)
    requires Coordinated(w, session)
    ensures Coordinated(Delivered(w), session)
  {
    var v := Delivered(w);
    forall k | k in v.tasks ensures TaskSound(v, k) { assert TaskSound(w, k); }
  }

  lemma ResumedSound(w: World, session: nat, task: nat)
    requires Coordinated(w, session)
    ensures Coordinated(Resumed(w, task), session)
  {
    var v := Resumed(w, task);
    forall k | k in v.tasks ensures TaskSound(v, k) { assert TaskSound(w, k); }
  }

  lemma FetchedSound(w: World, session: nat, task: nat)
    requires Coordinated(w, session) && task !in w.tasks
    ensures Coordinated(w.(tasks := w.tasks[task := Task(First, 1)]), session)
  {
    var v := w.(tasks := w.tasks[task := Task(First, 1)]);
    forall k | k in v.tasks ensures TaskSound(v, k) { if k != task { assert TaskSound(w, k); } }
  }

  lemma StepSound(cfg: Config, w: World, session: nat, a: Action)
    requires Sound(w, session) && Allowed(cfg, w, session, a)
    ensures Sound(Step(cfg, w, a), session)
  {
    match a
    case ServerAnswers(now, issued) => if w.requests != [] { ServerStepSound(cfg, w, session, now, issued); }
    case Elsewhere(now, op) => ElsewhereSound(cfg, w, session, now, op);
    case Fetch(task) => if task !in w.tasks { FetchedSound(w, session, task); }
    case Respond(task, unauthorized) => RespondedSound(w, session, task, unauthorized);
    case Deliver => DeliveredSound(w, session);
    case Resume(task) => ResumedSound(w, session, task);
  }

  // ---------- every interleaving ----------

  /** A session just begun: the client holds the live token of family `session`, and nothing is under way. */
  ghost predicate Begins(w: World, session: nat) {
    && Inv(w.server)
    && w.client.flight == Grounded && w.client.refresh.Some?
    && LiveLeaf(w.server.tokens, session, w.client.refresh.value)
    && w.requests == [] && w.replies == [] && w.tasks == map[] && w.answers == map[] && w.served == []
  }

  ghost predicate IsInterleaving(cfg: Config, session: nat, trace: seq<World>, actions: seq<Action>) {
    && |trace| == |actions| + 1
    && (forall i :: 0 <= i < |actions| ==>
          Allowed(cfg, trace[i], session, actions[i]) && trace[i + 1] == Step(cfg, trace[i], actions[i]))
  }

  lemma {:induction false} InterleavingSound(cfg: Config, session: nat, trace: seq<World>, actions: seq<Action>, k: nat)
    requires IsInterleaving(cfg, session, trace, actions) && Begins(trace[0], session) && k < |trace|
    ensures Sound(trace[k], session)
  {
    if k > 0 {
      InterleavingSound(cfg, session, trace, actions, k - 1);
      StepSound(cfg, trace[k - 1], session, actions[k - 1]);
    }
  }

  /**
   In every interleaving: at most one refresh is under way; the server takes at most one refresh per flight and never
   the reuse branch; and whenever no flight is asking, a stored token is the one live token of its family.
   */
  lemma SingleFlightNeverReuses(cfg: Config, session: nat, trace: seq<World>, actions: seq<Action>, k: nat)
    requires IsInterleaving(cfg, session, trace, actions) && Begins(trace[0], session) && k < |trace|
    ensures var w := trace[k];
      && |w.requests| + |w.replies| <= 1 && |w.served| <= w.flights
      && (forall r :: r in w.served ==> r != Refused(TokenReuseDetected))
      && (w.client.flight != Asking && w.client.refresh.Some? ==>
            && LiveLeaf(w.server.tokens, session, w.client.refresh.value)
            && (forall i | 0 <= i < |w.server.tokens| && Root(w.server.tokens, i) == session ::
                  !w.server.tokens[i].revoked ==> w.server.tokens[i].token == w.client.refresh.value))
  {
    InterleavingSound(cfg, session, trace, actions, k);
    var w := trace[k];
    if w.client.flight != Asking && w.client.refresh.Some? {
      var id := Lookup(w.server.tokens, w.client.refresh.value).value;
      forall i | 0 <= i < |w.server.tokens| && Root(w.server.tokens, i) == session && !w.server.tokens[i].revoked
        ensures i == id
      {
        if i < id { FamilyIsChain(w.server.tokens, i, id); } else if id < i { FamilyIsChain(w.server.tokens, id, i); }
      }
    }
  }

  /** A refresh has one answer, fixed once known; a waiter moves on by that answer only, and fetches at most twice. */
  lemma WaitersShareOneAnswer(cfg: Config, session: nat, trace: seq<World>, actions: seq<Action>, k: nat, n: nat)
    requires IsInterleaving(cfg, session, trace, actions) && Begins(trace[0], session) && k < |actions|
    ensures n in trace[k].answers ==> n in trace[k + 1].answers && trace[k + 1].answers[n] == trace[k].answers[n]
    ensures forall task |
      task in trace[k].tasks && trace[k].tasks[task].phase == Waiting(n) && task in trace[k + 1].tasks ::
      var after := trace[k + 1].tasks[task];
      after == trace[k].tasks[task] ||
      (n in trace[k].answers && after.phase == if trace[k].answers[n] then Retrying else Finished)
    ensures forall task :: task in trace[k].tasks ==> trace[k].tasks[task].fetches <= 2
  {
    InterleavingSound(cfg, session, trace, actions, k);
    AnswerKept(cfg, trace[k], actions[k], session, n);
    forall task | task in trace[k].tasks ensures trace[k].tasks[task].fetches <= 2 { assert TaskSound(trace[k], task); }
  }

  lemma AnswerKept(cfg: Config, w: World, a: Action, session: nat, n: nat)
    requires ClientSound(w, session) && AnswersSound(w)
    ensures var v := Step(cfg, w, a);
      && (n in w.answers ==> n in v.answers && v.answers[n] == w.answers[n])
      && (forall task :: task in w.tasks && w.tasks[task].phase == Waiting(n) && task in v.tasks ==>
            v.tasks[task] == w.tasks[task] ||
            (n in w.answers && v.tasks[task].phase == if w.answers[n] then Retrying else Finished))
  {
  }

  // ---------- what is stored ----------

  predicate HoldsPair(c: Client, access: Access, refresh: Token) {
    c.access == Some(access) && c.refresh == Some(refresh)
  }

  predicate HoldsNothing(c: Client) { c.access.None? && c.refresh.None? }

  /**
   In every interleaving, whenever no refresh is under way, the client holds exactly the access and refresh token of the
   server's latest answer; after a refusal it holds neither.
   */
  lemma {:induction false} LatestPairIsHeld(cfg: Config, session: nat, trace: seq<World>, actions: seq<Action>, k: nat)
    requires IsInterleaving(cfg, session, trace, actions) && Begins(trace[0], session) && k < |trace|
    ensures HoldsExactly(trace[k])
  {
    if k > 0 {
      LatestPairIsHeld(cfg, session, trace, actions, k - 1);
      InterleavingSound(cfg, session, trace, actions, k - 1);
      StepKeepsHeld(cfg, trace[k - 1], session, actions[k - 1]);
    }
  }

  /** What the client holds is the server's latest answer, when it is not still on its way. */
  ghost predicate HoldsExactly(w: World) {
    w.served != [] ==>
      var last := w.served[|w.served| - 1];
      && (w.replies != [] ==> w.replies == [last])
      && (w.requests == [] && w.replies == [] ==>
            if last.Granted? then HoldsPair(w.client, last.access, last.refresh) else HoldsNothing(w.client))
  }

  lemma DeliverHolds(w: World, session: nat)
    requires Coordinated(w, session) && HoldsExactly(w)
    ensures HoldsExactly(Delivered(w))
  {
    if w.replies != [] {
      assert w.replies[1..] == [];
    }
  }

  lemma AnswerHolds(w: World, session: nat, out: Outcome)
    requires Coordinated(w, session) && w.requests != []
    ensures HoldsExactly(Answered(w, out))
  {
    assert w.replies == [] && w.requests[1..] == [];
  }

  lemma StepKeepsHeld(cfg: Config, w: World, session: nat, a: Action)
    requires Sound(w, session) && Allowed(cfg, w, session, a) && HoldsExactly(w)
    ensures HoldsExactly(Step(cfg, w, a))
  {
    match a {
      case Deliver => DeliverHolds(w, session);
      case ServerAnswers(now, issued) =>
        if w.requests != [] {
          AnswerHolds(w, session, RefreshGrant(cfg, w.server, now, w.requests[0], issued, true));
        }
      case _ =>
    }
  }

  // ---------- one refresh serves all ----------

  /** Any response but a first 401 ends its request, a second 401 included: there is one retry at most. */
  lemma ResponseEnds(cfg: Config, w: World, task: nat, unauthorized: bool)
    requires task in w.tasks && (w.tasks[task].phase == Retrying || (w.tasks[task].phase == First && !unauthorized))
    ensures Step(cfg, w, Respond(task, unauthorized)) ==
            w.(tasks := w.tasks[task := Task(Finished, w.tasks[task].fetches)])
  {
  }

  /** A request waits for an answer to come, and when it has come is retried, or ends, on exactly that answer. */
  lemma WaiterMovesOn(cfg: Config, w: World, task: nat, n: nat)
    requires task in w.tasks && w.tasks[task].phase == Waiting(n)
    ensures var v := Step(cfg, w, Resume(task));
      && v.server == w.server && v.requests == w.requests && v.replies == w.replies
      && v.client.access == w.client.access && v.client.refresh == w.client.refresh && task in v.tasks
      && v.tasks == w.tasks[task := v.tasks[task]]
      && v.tasks[task] ==
           if n !in w.answers then w.tasks[task]
           else if w.answers[n] then Task(Retrying, w.tasks[task].fetches + 1)
           else Task(Finished, w.tasks[task].fetches)
  {
  }

  /** The first of two requests that meet a 401 sends the stored token; the second sends nothing, and waits with it. */
  lemma SecondJoins(cfg: Config, w: World, session: nat, task: nat, other: nat)
    requires Sound(w, session) && w.client.flight == Grounded && w.client.refresh.Some? && task != other
    requires task in w.tasks && w.tasks[task].phase == First && other in w.tasks && w.tasks[other].phase == First
    ensures var v := Step(cfg, Step(cfg, w, Respond(task, true)), Respond(other, true));
      && v.requests == [w.client.refresh.value] && v.replies == [] && v.server == w.server && v.served == w.served
      && v.client == w.client.(flight := Asking) && v.starter == task && v.flights == w.flights + 1
      && v.tasks == w.tasks[task := Task(Waiting(v.flights), 1)][other := Task(Waiting(v.flights), 1)]
      && v.answers == w.answers
  {
  }

  /** Without a refresh token nothing is sent: the session is dropped, and whoever waits is told so. */
  lemma NothingToSend(cfg: Config, w: World, task: nat)
    requires w.client.flight == Grounded && w.client.refresh.None? && task in w.tasks && w.tasks[task].phase == First
    ensures var v := Step(cfg, w, Respond(task, true));
      && v.requests == w.requests && v.server == w.server && HoldsNothing(v.client)
      && task in v.tasks && v.tasks[task] == Task(Waiting(v.flights), 1)
      && v.flights in v.answers && !v.answers[v.flights]
  {
  }

  /** Row `i` holds the token, is live, and belongs to an account that may sign in. */
  predicate LiveFor(cfg: Config, s: State, i: int, token: Token, now: int)
    requires 0 <= i < |s.tokens|
  {
    && s.tokens[i].token == token && !s.tokens[i].revoked
    && s.tokens[i].user in s.users && MaySignIn(cfg, s.users[s.tokens[i].user], now)
  }

  ghost predicate Refreshable(cfg: Config, s: State, token: Token, now: int) {
    exists i :: 0 <= i < |s.tokens| && LiveFor(cfg, s, i, token, now)
  }

  lemma RefreshableIsGranted(cfg: Config, s: State, token: Token, now: int, issued: Token)
    requires Inv(s) && Unused(s.tokens, issued) && Refreshable(cfg, s, token, now)
    ensures var reply := RefreshGrant(cfg, s, now, token, issued, true).reply;
      reply.Granted? && reply.refresh == issued && reply.access.exp == now + cfg.accessTtl
  {
    var i :| 0 <= i < |s.tokens| && LiveFor(cfg, s, i, token, now);
    RefreshAnswers(cfg, s, now, RefreshOp(token, issued, true));
    EveryGrantIsProper(cfg, s, now, RefreshOp(token, issued, true));
  }

  /** The server's grant, once delivered, is stored and answers the flight. */
  lemma GrantLands(cfg: Config, w: World, now: int, issued: Token)
    requires Inv(w.server) && |w.requests| == 1 && w.replies == [] && Unused(w.server.tokens, issued)
    requires Refreshable(cfg, w.server, w.requests[0], now)
    ensures var v := Step(cfg, Step(cfg, w, ServerAnswers(now, issued)), Deliver);
      && v.requests == [] && v.replies == [] && v.tasks == w.tasks && v.flights == w.flights && v.starter == w.starter
      && v.answers == w.answers[w.flights := true] && v.client.flight == Landed(true)
      && |v.served| == |w.served| + 1 && v.client.refresh == Some(issued)
      && v.client.access.Some? && v.client.access.value.exp == now + cfg.accessTtl
  {
    RefreshableIsGranted(cfg, w.server, w.requests[0], now, issued);
    assert w.requests[1..] == [];
  }

  lemma BothResume(cfg: Config, w: World, task: nat, other: nat)
    requires task != other && task in w.tasks && other in w.tasks && w.starter == task
    requires w.tasks[task] == Task(Waiting(w.flights), 1) && w.tasks[other] == Task(Waiting(w.flights), 1)
    requires w.flights in w.answers && w.answers[w.flights]
    ensures var v := Step(cfg, Step(cfg, w, Resume(other)), Resume(task));
      && v.client == w.client.(flight := Grounded) && v.served == w.served
      && task in v.tasks && v.tasks[task] == Task(Retrying, 2)
      && other in v.tasks && v.tasks[other] == Task(Retrying, 2)
  {
  }

  /**
   Two requests meet a 401 while a live token of an eligible account is stored: the server sees one refresh, the client
   stores the new pair, and both requests are retried.
   */
  lemma OneRefreshServesAll(cfg: Config, w: World, session: nat, task: nat, other: nat, now: int, issued: Token)
    requires Sound(w, session) && w.client.flight == Grounded && w.client.refresh.Some? && task != other
    requires task in w.tasks && w.tasks[task].phase == First && other in w.tasks && w.tasks[other].phase == First
    requires Unused(w.server.tokens, issued) && Refreshable(cfg, w.server, w.client.refresh.value, now)
    ensures var asked := Step(cfg, Step(cfg, w, Respond(task, true)), Respond(other, true));
      var landed := Step(cfg, Step(cfg, asked, ServerAnswers(now, issued)), Deliver);
      var v := Step(cfg, Step(cfg, landed, Resume(other)), Resume(task));
      && |v.served| == |w.served| + 1 && v.client.flight == Grounded && v.client.refresh == Some(issued)
      && v.client.access.Some? && v.client.access.value.exp == now + cfg.accessTtl
      && task in v.tasks && v.tasks[task] == Task(Retrying, 2)
      && other in v.tasks && v.tasks[other] == Task(Retrying, 2)
  {
    SecondJoins(cfg, w, session, task, other);
    var asked := Step(cfg, Step(cfg, w, Respond(task, true)), Respond(other, true));
    GrantLands(cfg, asked, now, issued);
    BothResume(cfg, Step(cfg, Step(cfg, asked, ServerAnswers(now, issued)), Deliver), task, other);
  }

  // ---------- what happens without the assumptions ----------

  /** What the client stores after a refresh whose answer did, or did not, arrive. */
  function StoredAfter(c: Client, reply: Reply, arrives: bool): Option<Token> {
    if arrives then OnReply(c, reply).refresh else c.refresh
  }

  lemma RevokedIsReuse(cfg: Config, s: State, now: int, id: nat, issued: Token, claimsOk: bool)
    requires Chained(s.tokens) && id < |s.tokens| && s.tokens[id].revoked && s.tokens[id].user in s.users
    ensures var out := RefreshGrant(cfg, s, now, s.tokens[id].token, issued, claimsOk);
      out.reply == Refused(TokenReuseDetected) && FamilyDead(out.state.tokens, Root(s.tokens, id))
  {
    LookupFinds(s.tokens, id);
    ReuseKillsFamily(s.tokens, id);
  }

  lemma LiveIsNotReuse(cfg: Config, s: State, now: int, id: nat, issued: Token, claimsOk: bool)
    requires Chained(s.tokens) && id < |s.tokens| && !s.tokens[id].revoked
    ensures RefreshGrant(cfg, s, now, s.tokens[id].token, issued, claimsOk).reply != Refused(TokenReuseDetected)
  {
    LookupFinds(s.tokens, id);
  }

  /** Both rows after the rotation, whether or not the claims provider then failed. */
  lemma AfterRefresh(cfg: Config, s: State, id: nat, now: int, issued: Token, claimsOk: bool)
    requires Inv(s) && id < |s.tokens| && !s.tokens[id].revoked && Unused(s.tokens, issued)
    requires Ineligible(cfg, s, s.tokens[id].user, now).None?
    ensures var out := RefreshGrant(cfg, s, now, s.tokens[id].token, issued, claimsOk);
      var t := out.state.tokens;
      && Chained(t) && |t| == |s.tokens| + 1 && t[id].revoked && t[id].user in out.state.users
      && t[id].token == s.tokens[id].token && Root(t, id) == Root(s.tokens, id)
      && !t[|s.tokens|].revoked && t[|s.tokens|].token == issued
      && (claimsOk <==> out.reply.Granted?) && (claimsOk ==> out.reply.refresh == issued)
  {
    LookupFinds(s.tokens, id);
    RotateKeepsChained(s.tokens, id, issued);
    LinksStable(s.tokens, Rotate(s.tokens, id, issued), id);
  }

  /**
   A refresh of a live token by an eligible account. The client's next refresh is treated as token reuse, ending the
   session, if and only if the answer was lost or a claims provider failed after the rotation was committed.
   */
  lemma NextRefreshIsReuseIff(cfg: Config, s: State, id: nat, now: int, issued: Token, claimsOk: bool, arrives: bool,
                              later: int, issued2: Token, claimsOk2: bool)
    requires Inv(s) && id < |s.tokens| && !s.tokens[id].revoked && Unused(s.tokens, issued)
    requires Ineligible(cfg, s, s.tokens[id].user, now).None?
    ensures var client := Client(None, Some(s.tokens[id].token), Asking);
      var out := RefreshGrant(cfg, s, now, s.tokens[id].token, issued, claimsOk);
      var stored := StoredAfter(client, out.reply, arrives);
      && stored.Some?
      && (RefreshGrant(cfg, out.state, later, stored.value, issued2, claimsOk2).reply == Refused(TokenReuseDetected)
          <==> !arrives || !claimsOk)
      && (!arrives || !claimsOk ==>
            FamilyDead(RefreshGrant(cfg, out.state, later, stored.value, issued2, claimsOk2).state.tokens,
              Root(s.tokens, id)))
  {
    AfterRefresh(cfg, s, id, now, issued, claimsOk);
    var out := RefreshGrant(cfg, s, now, s.tokens[id].token, issued, claimsOk);
    RevokedIsReuse(cfg, out.state, later, id, issued2, claimsOk2);
    LiveIsNotReuse(cfg, out.state, later, |s.tokens|, issued2, claimsOk2);
  }

  // ---------- the SDK object ----------

  class SupythonClient {
    var accessToken: Option<Access>
    var refreshToken: Option<Token>
    var refreshInFlight: Flight

    function Contents(): Client
      reads this
    {
      Client(accessToken, refreshToken, refreshInFlight)
    }

    constructor ()
      ensures Contents() == Client(None, None, Grounded)
    {
      accessToken, refreshToken, refreshInFlight := None, None, Grounded;
    }

    method SetSession(access: Access, refresh: Token)
      modifies this
      ensures Contents() == Client(Some(access), Some(refresh), old(refreshInFlight))
    {
      accessToken := Some(access);
      refreshToken := Some(refresh);
    }

    method ClearSession()
      modifies this
      ensures Contents() == Cleared(old(Contents()))
    {
      accessToken := None;
      refreshToken := None;
    }

    /** Up to the first await: the token to send, when this call is the one that refreshes. */
    method StartHandle401() returns (sent: Option<Token>)
      modifies this
      ensures (Contents(), sent) == OnUnauthorized(old(Contents()))
    {
      if refreshInFlight != Grounded { return None; }
      if refreshToken.None? {
        ClearSession();
        refreshInFlight := Landed(false);
        return None;
      }
      refreshInFlight := Asking;
      return refreshToken;
    }

    /** The response of `/refresh`: adopt the pair, or drop the session on a 4xx. */
    method ReceiveRefresh(reply: Reply)
      modifies this
      ensures Contents() == OnReply(old(Contents()), reply)
    {
      match reply
      case Granted(_, refresh, access) =>
        SetSession(access, refresh);
        refreshInFlight := Landed(true);
      case Refused(e) =>
        if ClientError(e) { ClearSession(); }
        refreshInFlight := Landed(false);
      case Done =>
        refreshInFlight := Landed(true);
    }

    /** The starter's `finally`. */
    method FinishHandle401() returns (ok: bool)
      requires refreshInFlight.Landed?
      modifies this
      ensures Contents() == old(Contents()).(flight := Grounded) && ok == old(refreshInFlight).ok
    {
      ok := refreshInFlight.ok;
      refreshInFlight := Grounded;
    }
  }
}
