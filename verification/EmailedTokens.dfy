/**
 What emailed tokens are worth, in terms of the tables: how long they open, how often, and what opening them does.
 */
module EmailedTokens {
  import opened Common
  import opened TokenFamilies
  import opened AuthModel
  import opened AuthRuns
  import opened AuthTheorems
  import opened AuthLaws

  // ---------- requests and sessions ----------

  /** How long an emailed token lives; a magic link as long as asked, but from a minute up to the configured most. */
  function LifeOf(cfg: Config, kind: Kind, asked: Option<int>): int
    requires !ChangeKind(kind)
  {
    match kind
    case Recover => cfg.recoverTtl
    case Otp => cfg.otpTtl
    case SignupConfirm => cfg.signupConfirmTtl
    case MagicLink =>
      if asked.None? then cfg.magicLinkTtl
      else if asked.value < 60 || cfg.magicLinkMaxTtl < 60 then 60
      else if asked.value < cfg.magicLinkMaxTtl then asked.value
      else cfg.magicLinkMaxTtl
  }

  /** A request answers the same for every address, and stores a token for an account that has one to get. */
  lemma RequestStoresToken(cfg: Config, s: State, now: int, op: Op)
    requires UniqueEmails(s) && op.RequestOneTimeOp? && Enabled(s, op)
    ensures var out := Apply(cfg, s, now, op);
      && out.reply == Done
      && (!IsTaken(s, op.email) ==> out.state == s)
      && (forall u | u in s.users && s.users[u].email == op.email ::
            out.state ==
              if op.kind == SignupConfirm && s.users[u].confirmedAt.Some? then s
              else
                var o := OneTime(u, op.kind, now + LifeOf(cfg, op.kind, op.asked), None);
                s.(oneTime := s.oneTime[op.token := o]))
  {
  }

  /** The token opens: of this kind, unused, unexpired, and of the account with the address where one is claimed. */
  predicate Opens(s: State, token: Token, kind: Kind, claimed: Option<Email>, now: int) {
    && token in s.oneTime && s.oneTime[token].user in s.users
    && s.oneTime[token].kind == kind && s.oneTime[token].usedAt == None && now < s.oneTime[token].expiresAt
    && (claimed.Some? ==> s.users[s.oneTime[token].user].email == claimed.value)
  }

  function Proven(row: User, now: int): User {
    row.(confirmedAt := if row.confirmedAt.Some? then row.confirmedAt else Some(now))
  }

  /** A token that opens is worth one session of its account, whose address it proves; a refusal uses nothing up. */
  ghost predicate TokenAnswers(cfg: Config, s: State, out: Outcome, token: Token, row: User, now: int, claimsOk: bool)
    requires token in s.oneTime && s.oneTime[token].user in s.users
  {
    var u := s.oneTime[token].user;
    match out.reply
    case Granted(v, _, _) =>
      && v == u && MaySignIn(cfg, row, now) && claimsOk
      && token in out.state.oneTime && out.state.oneTime[token] == s.oneTime[token].(usedAt := Some(now))
      && out.state.users == s.users[u := row]
    case Refused(e) => TurnedAway(cfg, row, now, claimsOk, e) && out.state == s
    case Done => false
  }

  lemma VerifyAnswers(cfg: Config, s: State, now: int, op: Op)
    requires op.VerifyOneTimeOp?
    ensures var out := Apply(cfg, s, now, op);
      if Opens(s, op.token, op.kind, op.claimed, now)
      then TokenAnswers(cfg, s, out, op.token, Proven(s.users[s.oneTime[op.token].user], now), now, op.claimsOk)
      else out == Outcome(s, Refused(InvalidToken))
  {
    if Opens(s, op.token, op.kind, op.claimed, now) {
      var u := s.oneTime[op.token].user;
      PairIsProper(cfg, Confirmed(Burn(s, op.token, now), u, now), u, now, op.refresh, op.claimsOk);
    }
  }

  lemma RecoverAnswers(cfg: Config, s: State, now: int, op: Op)
    requires op.VerifyRecoverOp?
    ensures var out := Apply(cfg, s, now, op);
      if Opens(s, op.token, Recover, Some(op.email), now)
      then
        TokenAnswers(cfg, s, out, op.token,
                     Proven(s.users[s.oneTime[op.token].user], now).(password := Some(op.password)), now, op.claimsOk)
      else out == Outcome(s, Refused(InvalidToken))
  {
    if Opens(s, op.token, Recover, Some(op.email), now) {
      var recovered := Recovered(s, now, op.token, op.password);
      PairIsProper(cfg, recovered, s.oneTime[op.token].user, now, op.refresh, op.claimsOk);
    }
  }

  /** A token that was worth a session is worth nothing in any later state of the run. */
  lemma {:induction false} TokenWorksOnce(cfg: Config, trace: seq<State>, calls: seq<Call>, j: nat, k: nat,
                                          token: Token, now: int, op: Op)
    requires IsRun(cfg, trace, calls) && Inv(trace[0]) && j < k < |trace|
    requires (calls[j].op.VerifyOneTimeOp? || calls[j].op.VerifyRecoverOp?) && calls[j].op.token == token
    requires Apply(cfg, trace[j], calls[j].now, calls[j].op).reply.Granted?
    requires (op.VerifyOneTimeOp? || op.VerifyRecoverOp?) && op.token == token
    ensures Apply(cfg, trace[k], now, op) == Outcome(trace[k], Refused(InvalidToken))
  {
    assert CallAt(cfg, trace, calls, j);
    if calls[j].op.VerifyOneTimeOp? {
      VerifyAnswers(cfg, trace[j], calls[j].now, calls[j].op);
    } else {
      RecoverAnswers(cfg, trace[j], calls[j].now, calls[j].op);
    }
    SpentForGood(cfg, trace, calls, j + 1, k, token);
    if op.VerifyOneTimeOp? {
      VerifyAnswers(cfg, trace[k], now, op);
    } else {
      RecoverAnswers(cfg, trace[k], now, op);
    }
  }

  /** The call uses the token up: it was shown and worth a session, or its owner recovered the account. */
  ghost predicate UsesUp(s: State, op: Op, reply: Reply, token: Token)
    requires token in s.oneTime
  {
    && reply.Granted?
    && (((op.VerifyOneTimeOp? || op.VerifyRecoverOp?) && op.token == token) ||
        (op.VerifyRecoverOp? && s.oneTime[token].kind == Recover && s.oneTime[token].user == reply.user))
  }

  /** Every other call leaves the token as it is. */
  ghost predicate TokenKept(s: State, out: Outcome, op: Op, token: Token) {
    token in s.oneTime && !ChangeKind(s.oneTime[token].kind) && !UsesUp(s, op, out.reply, token) ==>
      token in out.state.oneTime && out.state.oneTime[token] == s.oneTime[token]
  }

  lemma RequestsKeepToken(cfg: Config, s: State, now: int, op: Op, token: Token)
    requires Enabled(s, op) && (op.SignupOp? || op.RequestChangeOp? || op.RequestOneTimeOp?)
    ensures TokenKept(s, Apply(cfg, s, now, op), op, token)
  {
  }

  lemma VerifiesKeepToken(cfg: Config, s: State, now: int, op: Op, token: Token)
    requires op.VerifyChangeOp? || op.VerifyOneTimeOp?
    ensures TokenKept(s, Apply(cfg, s, now, op), op, token)
  {
  }

  lemma RecoverKeepsToken(cfg: Config, s: State, now: int, op: Op, token: Token)
    requires op.VerifyRecoverOp?
    ensures TokenKept(s, Apply(cfg, s, now, op), op, token)
  {
  }

  lemma CallsKeepToken(cfg: Config, s: State, now: int, op: Op, token: Token)
    requires Enabled(s, op)
    ensures TokenKept(s, Apply(cfg, s, now, op), op, token)
  {
    if LeavesOneTime(op) {
      ApplyLeavesOneTime(cfg, s, now, op);
    } else if op.OauthOp? {
      OauthLeavesOneTime(cfg, s, now, op.identity, op.email, op.verified, op.user, op.refresh, op.claimsOk);
    } else if op.VerifyRecoverOp? {
      RecoverKeepsToken(cfg, s, now, op, token);
    } else if op.VerifyChangeOp? || op.VerifyOneTimeOp? {
      VerifiesKeepToken(cfg, s, now, op, token);
    } else {
      RequestsKeepToken(cfg, s, now, op, token);
    }
  }

  ghost predicate UsedUpAt(cfg: Config, trace: seq<State>, calls: seq<Call>, i: nat, token: Token)
    requires i < |calls| && i < |trace|
  {
    token in trace[i].oneTime &&
    UsesUp(trace[i], calls[i].op, Apply(cfg, trace[i], calls[i].now, calls[i].op).reply, token)
  }

  lemma TokenKeptByCall(cfg: Config, trace: seq<State>, calls: seq<Call>, k: nat, token: Token, o: OneTime)
    requires IsRun(cfg, trace, calls) && k < |calls| && !UsedUpAt(cfg, trace, calls, k, token)
    requires token in trace[k].oneTime && trace[k].oneTime[token] == o && !ChangeKind(o.kind)
    ensures token in trace[k + 1].oneTime && trace[k + 1].oneTime[token] == o
  {
    assert CallAt(cfg, trace, calls, k);
    CallsKeepToken(cfg, trace[k], calls[k].now, calls[k].op, token);
  }

  /** Call `j` stores the token for `u`. */
  ghost predicate Emails(s: State, op: Op, u: UserId) {
    && op.RequestOneTimeOp? && u in s.users && s.users[u].email == op.email
    && !(op.kind == SignupConfirm && s.users[u].confirmedAt.Some?)
  }

  lemma {:induction false} EmailedTokenStays(cfg: Config, trace: seq<State>, calls: seq<Call>, j: nat, k: nat,
                                             u: UserId)
    requires IsRun(cfg, trace, calls) && Inv(trace[0]) && j < k < |trace| && Emails(trace[j], calls[j].op, u)
    requires forall i: nat | j < i < k :: !UsedUpAt(cfg, trace, calls, i, calls[j].op.token)
    ensures var op := calls[j].op;
      && !ChangeKind(op.kind) && op.token in trace[k].oneTime
      && trace[k].oneTime[op.token] == OneTime(u, op.kind, calls[j].now + LifeOf(cfg, op.kind, op.asked), None)
  {
    var op := calls[j].op;
    assert CallAt(cfg, trace, calls, j);
    if k == j + 1 {
      RunKeepsInv(cfg, trace, calls, j);
      RequestStoresToken(cfg, trace[j], calls[j].now, op);
    } else {
      EmailedTokenStays(cfg, trace, calls, j, k - 1, u);
      assert !UsedUpAt(cfg, trace, calls, k - 1, op.token);
      TokenKeptByCall(cfg, trace, calls, k - 1, op.token,
                      OneTime(u, op.kind, calls[j].now + LifeOf(cfg, op.kind, op.asked), None));
    }
  }

  /**
   An emailed token, in every later state in which it has not been used up: it opens for its own kind and address, from
   its request to the end of its life, and is then worth a session of its account if that may sign in.
   */
  lemma {:induction false} EmailedTokenOpens(cfg: Config, trace: seq<State>, calls: seq<Call>, j: nat, k: nat,
                                             u: UserId, kind: Kind, claimed: Option<Email>, now: int)
    requires IsRun(cfg, trace, calls) && Inv(trace[0]) && j < k < |trace| && Emails(trace[j], calls[j].op, u)
    requires forall i: nat | j < i < k :: !UsedUpAt(cfg, trace, calls, i, calls[j].op.token)
    ensures var op := calls[j].op;
      && !ChangeKind(op.kind) && u in trace[k].users
      && (Opens(trace[k], op.token, kind, claimed, now) <==>
            && kind == op.kind && now < calls[j].now + LifeOf(cfg, op.kind, op.asked)
            && (claimed.Some? ==> claimed.value == trace[k].users[u].email))
  {
    EmailedTokenStays(cfg, trace, calls, j, k, u);
    RunKeepsInv(cfg, trace, calls, k);
  }

  // ---------- address changes ----------

  /** A request is refused for its own address, or one in use; else it replaces what was pending by two fresh tokens. */
  lemma RequestReplacesChange(cfg: Config, s: State, now: int, op: Op)
    requires op.RequestChangeOp? && Enabled(s, op)
    ensures var out := Apply(cfg, s, now, op);
      if op.user !in s.users then out == Outcome(s, Refused(UserNotFound))
      else if s.users[op.user].email == op.email then out == Outcome(s, Refused(EmailChangeInvalid))
      else if IsTaken(s, op.email) then out == Outcome(s, Refused(EmailTaken))
      else
        && out.reply == Done && out.state.tokens == s.tokens && out.state.identities == s.identities
        && Replaced(s, out.state, op.user, op.email, op.currentToken, op.newToken, now + cfg.emailChangeTtl)
  {
  }

  /** The other side of the latest request. */
  function OtherSide(s: State, token: Token): Token
    requires token in s.oneTime && s.oneTime[token].user in s.requests
  {
    var r := s.requests[s.oneTime[token].user];
    if token == r.currentToken then r.newToken else r.currentToken
  }

  predicate OpensChange(s: State, token: Token, now: int) {
    && token in s.oneTime && s.oneTime[token].user in s.users && ChangeKind(s.oneTime[token].kind)
    && s.oneTime[token].usedAt == None && now < s.oneTime[token].expiresAt
  }

  /**
   What showing one side of a change does. The first side is only noted. The second changes the address, which counts as
   proven now, and is worth a session; unless the address is taken, or the account may not sign in, and then all stays.
   */
  ghost predicate ChangeAnswers(cfg: Config, s: State, out: Outcome, op: Op, now: int)
    requires op.VerifyChangeOp? && OpensChange(s, op.token, now) && s.oneTime[op.token].user in s.requests
  {
    var u, other := s.oneTime[op.token].user, OtherSide(s, op.token);
    var row, email := s.users[u], s.requests[u].newEmail;
    var applied := row.(email := email, emailChange := None, confirmStatus := 0, confirmedAt := Some(now));
    if other in s.oneTime && s.oneTime[other].usedAt.None? then
      && out.reply == Done && u in out.state.users
      && out.state.users[u].(confirmStatus := 0) == row.(confirmStatus := 0)
      && out.state.users == s.users[u := out.state.users[u]] && out.state.tokens == s.tokens
      && out.state.oneTime == s.oneTime[op.token := s.oneTime[op.token].(usedAt := Some(now))]
    else if exists v :: v in s.users && v != u && s.users[v].email == email then
      out == Outcome(s, Refused(EmailTaken))
    else
      match out.reply
      case Granted(v, _, _) =>
        && v == u && MaySignIn(cfg, applied, now) && op.claimsOk && out.state.users == s.users[u := applied]
        && out.state.oneTime == s.oneTime[op.token := s.oneTime[op.token].(usedAt := Some(now))]
      case Refused(e) => TurnedAway(cfg, applied, now, op.claimsOk, e) && out.state == s
      case Done => false
  }

  lemma VerifyChangeAnswers(cfg: Config, s: State, now: int, op: Op)
    requires Inv(s) && op.VerifyChangeOp?
    ensures var out := Apply(cfg, s, now, op);
      if OpensChange(s, op.token, now)
      then s.oneTime[op.token].user in s.requests && ChangeAnswers(cfg, s, out, op, now)
      else out == Outcome(s, Refused(InvalidToken))
  {
    if OpensChange(s, op.token, now) {
      var u, other := BitSaysOtherSide(s, op.token, now);
      var row := s.users[u];
      var applied := row.(email := row.emailChange.value, emailChange := None, confirmStatus := 0,
                          confirmedAt := Some(now));
      PairIsProper(cfg, SetUser(Burn(s, op.token, now), u, applied), u, now, op.refresh, op.claimsOk);
    }
  }
}
