/**
 What each auth call does to accounts and sessions, in terms of the tables themselves, and what that means over runs:
 who can sign in with which password, how long a ban lasts, which sessions a sign-out ends.
 */
module AuthLaws {
  import opened Common
  import opened TokenFamilies
  import opened AuthModel
  import opened AuthRuns
  import opened AuthTheorems

  // ---------- which columns of an account a call may write ----------

  /** The call was granted a new password for `u`. */
  ghost predicate Resets(s: State, op: Op, reply: Reply, u: UserId) {
    && reply.Granted?
    && ((op.UpdatePasswordOp? && op.user == u) ||
        (op.VerifyRecoverOp? && op.token in s.oneTime && s.oneTime[op.token].user == u))
  }

  predicate AboutBan(op: Op, u: UserId) { (op.BanOp? || op.UnbanOp?) && op.user == u }

  /** Accounts stay; a password changes by a reset only, a ban by `ban` and `unban` only; stamps are not taken back. */
  ghost predicate RowKept(s: State, t: State, now: int, op: Op, reply: Reply, u: UserId)
    requires u in s.users
  {
    && u in t.users
    && (t.users[u].password == s.users[u].password || Resets(s, op, reply, u))
    && (t.users[u].bannedUntil == s.users[u].bannedUntil || (AboutBan(op, u) && reply == Done))
    && (t.users[u].activatedAt == s.users[u].activatedAt ||
        (s.users[u].activatedAt.None? && t.users[u].activatedAt == Some(now) &&
         ((op.ActivateOp? && op.user == u) || op.OauthOp?)))
    && (s.users[u].confirmedAt.Some? ==> t.users[u].confirmedAt.Some?)
  }

  lemma TokenCallsKeepRows(cfg: Config, s: State, now: int, op: Op, u: UserId)
    requires u in s.users
    requires op.PasswordOp? || op.RefreshOp? || op.LogoutOp? || op.ForceLogoutOp? || op.RevokeRowOp? ||
             op.RequestOneTimeOp?
    ensures Apply(cfg, s, now, op).state.users == s.users
  {
  }

  lemma AccountCallsKeepRows(cfg: Config, s: State, now: int, op: Op, u: UserId)
    requires Enabled(s, op) && u in s.users
    requires op.SignupOp? || op.ProvisionOp? || op.ActivateOp? || op.BanOp? || op.UnbanOp? || op.RequestChangeOp?
    ensures RowKept(s, Apply(cfg, s, now, op).state, now, op, Apply(cfg, s, now, op).reply, u)
  {
  }

  lemma VerifiesKeepRows(cfg: Config, s: State, now: int, op: Op, u: UserId)
    requires Enabled(s, op) && u in s.users && (op.VerifyChangeOp? || op.VerifyOneTimeOp?)
    ensures RowKept(s, Apply(cfg, s, now, op).state, now, op, Apply(cfg, s, now, op).reply, u)
  {
  }

  lemma ResetsKeepRows(cfg: Config, s: State, now: int, op: Op, u: UserId)
    requires Enabled(s, op) && u in s.users && (op.UpdatePasswordOp? || op.VerifyRecoverOp?)
    ensures RowKept(s, Apply(cfg, s, now, op).state, now, op, Apply(cfg, s, now, op).reply, u)
  {
  }

  /** Sign-in with activation writes one stamp, once, and issues. */
  lemma SignInActivatedRows(cfg: Config, s: State, now: int, user: UserId, refresh: Token, claimsOk: bool)
    requires user in s.users
    ensures var out := SignInActivated(cfg, s, now, user, refresh, claimsOk);
      && out.state.users ==
           s.users[user := s.users[user].(activatedAt := if s.users[user].activatedAt.None? then Some(now)
                                                         else s.users[user].activatedAt)]
      && out.state.identities == s.identities && (out.reply.Granted? ==> out.reply.user == user)
  {
  }

  /** The account that a provider sign-in is for, and what it makes of the accounts and links before it issues. */
  ghost predicate OauthSettled(s: State, t: State, op: Op, u: UserId, now: int)
    requires op.OauthOp?
  {
    if op.identity in s.identities && s.identities[op.identity] in s.users then
      u == s.identities[op.identity] && OnlyStamped(s, t, u, now) && t.identities == s.identities &&
      t.users[u].confirmedAt == s.users[u].confirmedAt
    else
      && op.verified && op.identity in t.identities
      && t.identities == s.identities[op.identity := t.identities[op.identity]]
      && (op.identity !in s.identities ==> t.identities[op.identity] == u)
      && if IsTaken(s, op.email) then
           && u in s.users && s.users[u].email == op.email
           && (s.users[u].password.None? || s.users[u].confirmedAt.Some?)
           && OnlyStamped(s, t, u, now) && t.users[u].confirmedAt.Some?
         else
           && u == op.user
           && t.users == s.users[u := User(op.email, None, Some(now), Some(now), None, None, 0)]
  }

  /** Only stamps of this account were set, to the present, where there were none. */
  ghost predicate OnlyStamped(s: State, t: State, u: UserId, now: int) {
    && u in s.users && u in t.users
    && t.users ==
         s.users[u := s.users[u].(activatedAt := t.users[u].activatedAt, confirmedAt := t.users[u].confirmedAt)]
    && t.users[u].activatedAt == (if s.users[u].activatedAt.Some? then s.users[u].activatedAt else Some(now))
    && (t.users[u].confirmedAt == s.users[u].confirmedAt ||
        (s.users[u].confirmedAt.None? && t.users[u].confirmedAt == Some(now)))
  }

  lemma OauthLinkSettles(cfg: Config, s: State, now: int, op: Op, u: UserId)
    requires op.OauthOp? && u in s.users && s.users[u].email == op.email && op.verified && IsTaken(s, op.email)
    requires !(op.identity in s.identities && s.identities[op.identity] in s.users)
    requires s.users[u].password.None? || s.users[u].confirmedAt.Some?
    ensures var linked := Linked(Confirmed(s, u, now), op.identity, u);
      var out := SignInActivated(cfg, linked, now, u, op.refresh, op.claimsOk);
      OauthSettled(s, out.state, op, u, now) && (out.reply.Granted? ==> out.reply.user == u)
  {
    var confirmed := Confirmed(s, u, now);
    var linked := Linked(confirmed, op.identity, u);
    SignInActivatedRows(cfg, linked, now, u, op.refresh, op.claimsOk);
    var t := SignInActivated(cfg, linked, now, u, op.refresh, op.claimsOk).state;
    assert t.users[u] == s.users[u].(activatedAt := t.users[u].activatedAt, confirmedAt := t.users[u].confirmedAt);
    if op.identity in s.identities {
      assert s.identities[op.identity := t.identities[op.identity]] == s.identities;
    }
  }

  lemma OauthCreateSettles(cfg: Config, s: State, now: int, op: Op)
    requires op.OauthOp? && op.user !in s.users && op.verified && !IsTaken(s, op.email)
    requires !(op.identity in s.identities && s.identities[op.identity] in s.users)
    ensures var linked := Linked(SetUser(s, op.user, User(op.email, None, None, Some(now), None, None, 0)), op.identity,
                                 op.user);
      var out := SignInActivated(cfg, linked, now, op.user, op.refresh, op.claimsOk);
      OauthSettled(s, out.state, op, op.user, now) && (out.reply.Granted? ==> out.reply.user == op.user)
  {
    var created := SetUser(s, op.user, User(op.email, None, None, Some(now), None, None, 0));
    var linked := Linked(created, op.identity, op.user);
    SignInActivatedRows(cfg, linked, now, op.user, op.refresh, op.claimsOk);
    var t := SignInActivated(cfg, linked, now, op.user, op.refresh, op.claimsOk).state;
    assert t.users == s.users[op.user := User(op.email, None, Some(now), Some(now), None, None, 0)];
    if op.identity in s.identities {
      assert s.identities[op.identity := t.identities[op.identity]] == s.identities;
    }
  }

  /** Refused before anything is written: no address, an unproven one, or an account that may be somebody else's. */
  ghost predicate OauthTurnsAway(s: State, op: Op, e: AuthError)
    requires op.OauthOp?
  {
    var known := op.identity in s.identities && s.identities[op.identity] in s.users;
    || (op.email == "" && e == NoEmail)
    || (op.email != "" && !known && !op.verified && e == ProviderEmailUnverified)
    || (op.email != "" && !known && op.verified && e == EmailConflict &&
        exists u :: u in s.users && s.users[u].email == op.email &&
                    s.users[u].password.Some? && s.users[u].confirmedAt.None?)
  }

  /**
   A provider sign-in takes over no account. It is for the account its identity is linked to, whatever the address; else
   for the one with its proven address, unless that has a password and an unproven address; else for a new one.
   */
  lemma OauthTakesOverNothing(cfg: Config, s: State, now: int, op: Op)
    requires UniqueEmails(s) && Enabled(s, op) && op.OauthOp?
    ensures var out := Apply(cfg, s, now, op);
      || (exists e :: OauthTurnsAway(s, op, e) && out == Outcome(s, Refused(e)))
      || (op.email != "" &&
          exists u :: OauthSettled(s, out.state, op, u, now) && (out.reply.Granted? ==> out.reply.user == u))
  {
    var out := Apply(cfg, s, now, op);
    if op.email == "" {
      assert OauthTurnsAway(s, op, NoEmail);
    } else if op.identity in s.identities && s.identities[op.identity] in s.users {
      SignInActivatedRows(cfg, s, now, s.identities[op.identity], op.refresh, op.claimsOk);
      assert OauthSettled(s, out.state, op, s.identities[op.identity], now);
    } else if !op.verified {
      assert OauthTurnsAway(s, op, ProviderEmailUnverified);
    } else {
      OauthByEmail(cfg, s, now, op);
    }
  }

  lemma OauthByEmail(cfg: Config, s: State, now: int, op: Op)
    requires UniqueEmails(s) && Enabled(s, op) && op.OauthOp? && op.verified && op.email != ""
    requires !(op.identity in s.identities && s.identities[op.identity] in s.users)
    ensures var out := Apply(cfg, s, now, op);
      || (OauthTurnsAway(s, op, EmailConflict) && out == Outcome(s, Refused(EmailConflict)))
      || (exists u :: OauthSettled(s, out.state, op, u, now) && (out.reply.Granted? ==> out.reply.user == u))
  {
    match ByEmail(s, op.email) {
      case Some(u) =>
        if s.users[u].password.None? || s.users[u].confirmedAt.Some? {
          OauthLinkSettles(cfg, s, now, op, u);
          assert OauthSettled(s, Apply(cfg, s, now, op).state, op, u, now);
        } else {
          assert OauthTurnsAway(s, op, EmailConflict);
        }
      case None =>
        OauthCreateSettles(cfg, s, now, op);
        assert OauthSettled(s, Apply(cfg, s, now, op).state, op, op.user, now);
    }
  }

  lemma OauthKeepsRows(cfg: Config, s: State, now: int, op: Op, u: UserId)
    requires UniqueEmails(s) && Enabled(s, op) && u in s.users && op.OauthOp?
    ensures RowKept(s, Apply(cfg, s, now, op).state, now, op, Apply(cfg, s, now, op).reply, u)
  {
    OauthTakesOverNothing(cfg, s, now, op);
  }

  lemma CallsKeepRows(cfg: Config, s: State, now: int, op: Op, u: UserId)
    requires UniqueEmails(s) && Enabled(s, op) && u in s.users
    ensures RowKept(s, Apply(cfg, s, now, op).state, now, op, Apply(cfg, s, now, op).reply, u)
  {
    if op.OauthOp? {
      OauthKeepsRows(cfg, s, now, op, u);
    } else if op.UpdatePasswordOp? || op.VerifyRecoverOp? {
      ResetsKeepRows(cfg, s, now, op, u);
    } else if op.VerifyChangeOp? || op.VerifyOneTimeOp? {
      VerifiesKeepRows(cfg, s, now, op, u);
    } else if op.SignupOp? || op.ProvisionOp? || op.ActivateOp? || op.BanOp? || op.UnbanOp? || op.RequestChangeOp? {
      AccountCallsKeepRows(cfg, s, now, op, u);
    } else {
      TokenCallsKeepRows(cfg, s, now, op, u);
    }
  }

  // ---------- who may be given a session ----------

  /** Not banned at this moment, activated, and with a proven address where that is required. */
  predicate MaySignIn(cfg: Config, row: User, now: int) {
    && (row.bannedUntil.Some? ==> row.bannedUntil.value <= now)
    && row.activatedAt.Some?
    && (cfg.requireConfirmation ==> row.confirmedAt.Some?)
  }

  /** Refused for what `row` is, or by a claims provider; nothing is said about credentials. */
  predicate TurnedAway(cfg: Config, row: User, now: int, claimsOk: bool, e: AuthError) {
    if MaySignIn(cfg, row, now) then !claimsOk && e == ClaimsProviderFailed
    else if row.bannedUntil.Some? && row.bannedUntil.value > now then e == AccountDisabled
    else if row.activatedAt.None? then e == AccountInactive
    else e == EmailNotConfirmed
  }

  /** One new pair for `u`: an access token that lives exactly as long as configured, and a live refresh token. */
  ghost predicate OnePair(cfg: Config, s: State, t: State, u: UserId, refresh: Token, access: Access, now: int) {
    && access == Access(u, now + cfg.accessTtl) && t.access == s.access + [access]
    && |t.tokens| == |s.tokens| + 1
    && t.tokens[|s.tokens|].user == u && t.tokens[|s.tokens|].token == refresh && !t.tokens[|s.tokens|].revoked
  }

  /** Granted means a pair for an account that may sign in as the tables now stand; anything else issues no access. */
  ghost predicate GrantedProperly(cfg: Config, s: State, out: Outcome, refresh: Option<Token>, now: int) {
    match out.reply
    case Granted(u, r, a) =>
      && refresh == Some(r) && u in out.state.users && MaySignIn(cfg, out.state.users[u], now)
      && OnePair(cfg, s, out.state, u, r, a, now)
    case _ => out.state.access == s.access
  }

  lemma PairIsProper(cfg: Config, s: State, user: UserId, now: int, refresh: Token, claimsOk: bool)
    ensures GrantedProperly(cfg, s, IssuePair(cfg, s, user, now, refresh, claimsOk), Some(refresh), now)
    ensures user in s.users ==>
      match IssuePair(cfg, s, user, now, refresh, claimsOk).reply
      case Granted(u, _, _) => u == user && MaySignIn(cfg, s.users[user], now) && claimsOk
      case Refused(e) => TurnedAway(cfg, s.users[user], now, claimsOk, e)
      case Done => false
  {
  }

  /** The refresh token a call would hand out. */
  function Offered(op: Op): Option<Token> {
    if op.RefreshOp? then Some(op.refresh) else SignInToken(op)
  }

  lemma SignInsGrantProperly(cfg: Config, s: State, now: int, op: Op)
    requires op.SignupOp? || op.PasswordOp? || op.RefreshOp? || op.VerifyOneTimeOp?
    ensures GrantedProperly(cfg, s, Apply(cfg, s, now, op), Offered(op), now)
  {
  }

  lemma ResetsGrantProperly(cfg: Config, s: State, now: int, op: Op)
    requires op.UpdatePasswordOp? || op.VerifyRecoverOp?
    ensures GrantedProperly(cfg, s, Apply(cfg, s, now, op), Offered(op), now)
  {
  }

  lemma ChangesGrantProperly(cfg: Config, s: State, now: int, op: Op)
    requires op.VerifyChangeOp?
    ensures GrantedProperly(cfg, s, Apply(cfg, s, now, op), Offered(op), now)
  {
  }

  lemma ActivatedGrantsProperly(cfg: Config, s: State, mid: State, now: int, user: UserId, refresh: Token,
                                claimsOk: bool)
    requires user in mid.users && mid.tokens == s.tokens && mid.access == s.access
    ensures GrantedProperly(cfg, s, SignInActivated(cfg, mid, now, user, refresh, claimsOk), Some(refresh), now)
  {
    PairIsProper(cfg, ActivateUser(mid, now, user).state, user, now, refresh, claimsOk);
  }

  lemma OauthByEmailGrantsProperly(cfg: Config, s: State, now: int, op: Op)
    requires op.OauthOp? && op.verified && op.email != ""
    requires !(op.identity in s.identities && s.identities[op.identity] in s.users)
    ensures GrantedProperly(cfg, s, Apply(cfg, s, now, op), Offered(op), now)
  {
    match ByEmail(s, op.email) {
      case Some(u) =>
        var linked := Linked(Confirmed(s, u, now), op.identity, u);
        ActivatedGrantsProperly(cfg, s, linked, now, u, op.refresh, op.claimsOk);
      case None =>
        var created := SetUser(s, op.user, User(op.email, None, None, Some(now), None, None, 0));
        ActivatedGrantsProperly(cfg, s, Linked(created, op.identity, op.user), now, op.user, op.refresh, op.claimsOk);
    }
  }

  lemma OauthGrantsProperly(cfg: Config, s: State, now: int, op: Op)
    requires op.OauthOp?
    ensures GrantedProperly(cfg, s, Apply(cfg, s, now, op), Offered(op), now)
  {
    if op.email != "" {
      if op.identity in s.identities && s.identities[op.identity] in s.users {
        ActivatedGrantsProperly(cfg, s, s, now, s.identities[op.identity], op.refresh, op.claimsOk);
      } else if op.verified {
        OauthByEmailGrantsProperly(cfg, s, now, op);
      }
    }
  }

  lemma OthersGrantNothing(cfg: Config, s: State, now: int, op: Op)
    requires Offered(op).None?
    ensures !Apply(cfg, s, now, op).reply.Granted? && Apply(cfg, s, now, op).state.access == s.access
  {
  }

  /** Every call, in every state: whoever is granted a session may have one, and gets exactly one pair. */
  lemma EveryGrantIsProper(cfg: Config, s: State, now: int, op: Op)
    ensures GrantedProperly(cfg, s, Apply(cfg, s, now, op), Offered(op), now)
  {
    if Offered(op).None? {
      OthersGrantNothing(cfg, s, now, op);
    } else if op.OauthOp? {
      OauthGrantsProperly(cfg, s, now, op);
    } else if op.VerifyChangeOp? {
      ChangesGrantProperly(cfg, s, now, op);
    } else if op.UpdatePasswordOp? || op.VerifyRecoverOp? {
      ResetsGrantProperly(cfg, s, now, op);
    } else {
      SignInsGrantProperly(cfg, s, now, op);
    }
  }

  /** What a refresh with the token of row `i` makes of the tables. */
  ghost predicate RefreshOfRow(cfg: Config, s: State, out: Outcome, op: Op, i: nat, now: int)
    requires op.RefreshOp? && i < |s.tokens|
  {
    var u := s.tokens[i].user;
    u in s.users &&
    if s.tokens[i].revoked then
      out.reply == Refused(TokenReuseDetected) && RevokesExactly(s, out.state, Descendants(s, op.presented))
    else if !MaySignIn(cfg, s.users[u], now) then
      out.state == s && out.reply.Refused? && TurnedAway(cfg, s.users[u], now, op.claimsOk, out.reply.error)
    else
      && (if op.claimsOk then out.reply.Granted? && out.reply.user == u else out.reply == Refused(ClaimsProviderFailed))
      && out.state.users == s.users && out.state.oneTime == s.oneTime && Rotates(s, out.state, op, i)
  }

  /** The row is revoked and its child, live and of the same user, comes last. */
  ghost predicate Rotates(s: State, t: State, op: Op, i: nat)
    requires op.RefreshOp? && i < |s.tokens|
  {
    && |t.tokens| == |s.tokens| + 1
    && t.tokens[|s.tokens|] == Row(s.tokens[i].user, op.refresh, Some(op.presented), false)
    && forall k | 0 <= k < |s.tokens| ::
         t.tokens[k] == if k == i then s.tokens[i].(revoked := true) else s.tokens[k]
  }

  lemma RefreshOfRowAnswers(cfg: Config, s: State, now: int, op: Op, i: nat)
    requires Inv(s) && op.RefreshOp? && i < |s.tokens| && s.tokens[i].token == op.presented
    ensures RefreshOfRow(cfg, s, Apply(cfg, s, now, op), op, i, now)
  {
    LookupFinds(s.tokens, i);
  }

  /** What refreshing with a token answers: by what its row is, then by what its owner is; a live one is rotated. */
  lemma RefreshAnswers(cfg: Config, s: State, now: int, op: Op)
    requires Inv(s) && Enabled(s, op) && op.RefreshOp?
    ensures var out := Apply(cfg, s, now, op);
      && (Unused(s.tokens, op.presented) ==> out == Outcome(s, Refused(InvalidRefreshToken)))
      && (forall i | 0 <= i < |s.tokens| && s.tokens[i].token == op.presented ::
            RefreshOfRow(cfg, s, out, op, i, now))
  {
    forall i | 0 <= i < |s.tokens| && s.tokens[i].token == op.presented
      ensures RefreshOfRow(cfg, s, Apply(cfg, s, now, op), op, i, now)
    {
      RefreshOfRowAnswers(cfg, s, now, op, i);
    }
  }

  // ---------- passwords ----------

  /** The call gives `u` the password `p`: an accepted sign-up, or a granted change or recovery. */
  ghost predicate SetsPassword(op: Op, reply: Reply, u: UserId, p: string) {
    || (op.SignupOp? && op.user == u && op.password == p && reply != Refused(EmailTaken))
    || (op.UpdatePasswordOp? && op.user == u && op.password == p && reply.Granted?)
    || (op.VerifyRecoverOp? && op.password == p && reply.Granted? && reply.user == u)
  }

  lemma SetIsStored(cfg: Config, s: State, now: int, op: Op, u: UserId, p: string)
    requires Enabled(s, op) && SetsPassword(op, Apply(cfg, s, now, op).reply, u, p)
    ensures var t := Apply(cfg, s, now, op).state; u in t.users && t.users[u].password == Some(p)
  {
  }

  /** Call `i` of the run resets nobody's password but others'. */
  ghost predicate ResetsAt(cfg: Config, trace: seq<State>, calls: seq<Call>, i: nat, u: UserId)
    requires i < |calls| && i < |trace|
  {
    Resets(trace[i], calls[i].op, Apply(cfg, trace[i], calls[i].now, calls[i].op).reply, u)
  }

  lemma KeptByCall(cfg: Config, trace: seq<State>, calls: seq<Call>, k: nat, u: UserId)
    requires IsRun(cfg, trace, calls) && Inv(trace[0]) && k < |calls| && u in trace[k].users
    ensures RowKept(trace[k], trace[k + 1], calls[k].now, calls[k].op,
                    Apply(cfg, trace[k], calls[k].now, calls[k].op).reply, u)
  {
    RunKeepsInv(cfg, trace, calls, k);
    assert CallAt(cfg, trace, calls, k);
    CallsKeepRows(cfg, trace[k], calls[k].now, calls[k].op, u);
  }

  lemma PasswordKeptByCall(cfg: Config, trace: seq<State>, calls: seq<Call>, k: nat, u: UserId, p: string)
    requires IsRun(cfg, trace, calls) && Inv(trace[0]) && k < |calls|
    requires u in trace[k].users && trace[k].users[u].password == Some(p) && !ResetsAt(cfg, trace, calls, k, u)
    ensures u in trace[k + 1].users && trace[k + 1].users[u].password == Some(p)
  {
    KeptByCall(cfg, trace, calls, k, u);
  }

  /** A password set at call `j` is the account's until the next reset. */
  lemma {:induction false} PasswordStands(cfg: Config, trace: seq<State>, calls: seq<Call>, j: nat, k: nat, u: UserId,
                                          p: string)
    requires IsRun(cfg, trace, calls) && Inv(trace[0]) && j < k < |trace|
    requires SetsPassword(calls[j].op, Apply(cfg, trace[j], calls[j].now, calls[j].op).reply, u, p)
    requires forall i: nat | j < i < k :: !ResetsAt(cfg, trace, calls, i, u)
    ensures u in trace[k].users && trace[k].users[u].password == Some(p)
  {
    if k == j + 1 {
      assert CallAt(cfg, trace, calls, j);
      SetIsStored(cfg, trace[j], calls[j].now, calls[j].op, u, p);
    } else {
      PasswordStands(cfg, trace, calls, j, k - 1, u, p);
      assert !ResetsAt(cfg, trace, calls, k - 1, u);
      PasswordKeptByCall(cfg, trace, calls, k - 1, u, p);
    }
  }

  /** What a sign-in with the address of `u` answers: the password decides, then what the account is. */
  ghost predicate SignInAnswers(cfg: Config, s: State, out: Outcome, u: UserId, right: bool, now: int, claimsOk: bool)
    requires u in s.users
  {
    if !right then out == Outcome(s, Refused(InvalidCredentials))
    else
      match out.reply
      case Granted(v, _, _) => v == u && MaySignIn(cfg, s.users[u], now) && claimsOk && out.state.users == s.users
      case Refused(e) => TurnedAway(cfg, s.users[u], now, claimsOk, e) && out.state == s
      case Done => false
  }

  lemma PasswordDecides(cfg: Config, s: State, now: int, u: UserId, password: string, refresh: Token, claimsOk: bool)
    requires UniqueEmails(s) && u in s.users
    ensures var out := Apply(cfg, s, now, PasswordOp(s.users[u].email, password, refresh, claimsOk));
      SignInAnswers(cfg, s, out, u, s.users[u].password == Some(password), now, claimsOk)
  {
    assert ByEmail(s, s.users[u].email) == Some(u);
    PairIsProper(cfg, s, u, now, refresh, claimsOk);
  }

  /**
   After an accepted sign-up, or a granted change or recovery, has set a password: in every later state before the next
   reset, that password signs in to the account, if it may sign in at all, and any other is refused and changes nothing.
   */
  lemma {:induction false} PasswordSignsIn(cfg: Config, trace: seq<State>, calls: seq<Call>, j: nat, k: nat, u: UserId,
                                           p: string, now: int, tried: string, refresh: Token, claimsOk: bool)
    requires IsRun(cfg, trace, calls) && Inv(trace[0]) && j < k < |trace|
    requires SetsPassword(calls[j].op, Apply(cfg, trace[j], calls[j].now, calls[j].op).reply, u, p)
    requires forall i: nat | j < i < k :: !ResetsAt(cfg, trace, calls, i, u)
    ensures u in trace[k].users
    ensures var out := Apply(cfg, trace[k], now, PasswordOp(trace[k].users[u].email, tried, refresh, claimsOk));
      SignInAnswers(cfg, trace[k], out, u, tried == p, now, claimsOk)
  {
    PasswordStands(cfg, trace, calls, j, k, u, p);
    RunKeepsInv(cfg, trace, calls, k);
    PasswordDecides(cfg, trace[k], now, u, tried, refresh, claimsOk);
  }

  /** An address nobody has, and an account without a password, are refused like a wrong password. */
  lemma NoPasswordNoSignIn(cfg: Config, s: State, now: int, email: Email, password: string, refresh: Token, ok: bool)
    requires forall u | u in s.users && s.users[u].email == email :: s.users[u].password.None?
    ensures Apply(cfg, s, now, PasswordOp(email, password, refresh, ok)) == Outcome(s, Refused(InvalidCredentials))
  {
  }

  /**
   A reset needs proof: a change is granted only to someone who shows the present password, where there is one; a
   recovery only to someone with an unused, unexpired recover token of the account, under the account's address.
   */
  lemma ResetNeedsProof(cfg: Config, s: State, now: int, op: Op, u: UserId)
    requires u in s.users && Resets(s, op, Apply(cfg, s, now, op).reply, u)
    ensures op.UpdatePasswordOp? && s.users[u].password.Some? ==> op.current == s.users[u].password
    ensures op.VerifyRecoverOp? ==>
      && s.users[u].email == op.email && s.oneTime[op.token].kind == Recover
      && s.oneTime[op.token].usedAt.None? && now < s.oneTime[op.token].expiresAt
  {
  }

  /** With the present password, where there is one, a change is granted whenever the account may sign in. */
  lemma ChangeIsGrantedIff(cfg: Config, s: State, now: int, op: Op)
    requires op.UpdatePasswordOp? && op.user in s.users
    ensures var row, out := s.users[op.user], Apply(cfg, s, now, op);
      && (out.reply.Granted? <==>
            && (row.password.Some? ==> op.current == row.password && op.current != Some(""))
            && MaySignIn(cfg, row, now) && op.claimsOk)
      && (!out.reply.Granted? ==> out.state == s)
  {
  }

  // ---------- bans ----------

  /** How long a ban lasts: a day when nothing is asked. */
  function BanSeconds(op: Op): int
    requires op.BanOp?
  {
    if op.seconds.Some? then op.seconds.value else 86400
  }

  /** A ban writes its end to one account and nothing else; it is refused for a bad duration or an unknown user only. */
  lemma BanBans(cfg: Config, s: State, now: int, op: Op)
    requires op.BanOp?
    ensures var out := Apply(cfg, s, now, op);
      if BanSeconds(op) <= 0 then out == Outcome(s, Refused(InvalidDuration))
      else if op.user !in s.users then out == Outcome(s, Refused(NotFound))
      else
        && out.reply == Done && op.user in out.state.users
        && out.state == s.(users := out.state.users)
        && out.state.users == s.users[op.user := s.users[op.user].(bannedUntil := out.state.users[op.user].bannedUntil)]
        && forall at :: BannedAt(out.state, op.user, at) <==> at < now + BanSeconds(op)
  {
  }

  /** An unban ends the ban at once and writes nothing else. */
  lemma UnbanUnbans(cfg: Config, s: State, now: int, op: Op)
    requires op.UnbanOp?
    ensures var out := Apply(cfg, s, now, op);
      if op.user !in s.users then out == Outcome(s, Refused(NotFound))
      else
        && out.reply == Done && out.state == s.(users := out.state.users)
        && out.state.users == s.users[op.user := s.users[op.user].(bannedUntil := None)]
        && forall at :: !BannedAt(out.state, op.user, at)
  {
  }

  /** Call `j` bans `u`, and no call after it and before `k` bans or unbans `u`. */
  ghost predicate BannedThroughout(cfg: Config, trace: seq<State>, calls: seq<Call>, j: nat, k: nat, u: UserId) {
    && j < k < |trace| && |trace| == |calls| + 1
    && calls[j].op.BanOp? && calls[j].op.user == u
    && Apply(cfg, trace[j], calls[j].now, calls[j].op).reply == Done
    && forall i | j < i < k :: !AboutBan(calls[i].op, u)
  }

  lemma BanKeptByCall(cfg: Config, trace: seq<State>, calls: seq<Call>, k: nat, u: UserId)
    requires IsRun(cfg, trace, calls) && Inv(trace[0]) && k < |calls|
    requires u in trace[k].users && !AboutBan(calls[k].op, u)
    ensures u in trace[k + 1].users && forall at :: BannedAt(trace[k + 1], u, at) <==> BannedAt(trace[k], u, at)
  {
    KeptByCall(cfg, trace, calls, k, u);
  }

  /** A ban stands in every later state, until its end and no longer. */
  lemma {:induction false} BanStands(cfg: Config, trace: seq<State>, calls: seq<Call>, j: nat, k: nat, u: UserId)
    requires IsRun(cfg, trace, calls) && Inv(trace[0]) && BannedThroughout(cfg, trace, calls, j, k, u)
    ensures u in trace[k].users
    ensures forall at :: BannedAt(trace[k], u, at) <==> at < calls[j].now + BanSeconds(calls[j].op)
  {
    if k == j + 1 {
      assert CallAt(cfg, trace, calls, j);
      BanBans(cfg, trace[j], calls[j].now, calls[j].op);
    } else {
      BanStands(cfg, trace, calls, j, k - 1, u);
      BanKeptByCall(cfg, trace, calls, k - 1, u);
      forall at ensures BannedAt(trace[k], u, at) <==> at < calls[j].now + BanSeconds(calls[j].op) {
        assert BannedAt(trace[k], u, at) <==> BannedAt(trace[k - 1], u, at);
      }
    }
  }

  /**
   An accepted ban at call `j`, no ban or unban of the user after it, and only calls before its end: no token is issued
   to the user any more, and every access token they hold expires within the access lifetime of the ban.
   */
  lemma {:induction false} BanCutsOff(cfg: Config, trace: seq<State>, calls: seq<Call>, u: UserId, j: nat, k: nat)
    requires IsRun(cfg, trace, calls) && trace[0] == EMPTY && BannedThroughout(cfg, trace, calls, j, k, u)
    requires forall i | j < i < k :: calls[i].now < calls[j].now + BanSeconds(calls[j].op)
    ensures NothingIssued(trace[j + 1], trace[k], u)
    ensures forall i | 0 <= i < |trace[k].access| && trace[k].access[i].user == u ::
      trace[k].access[i].exp <= calls[j].now + cfg.accessTtl
  {
    EveryReachableStateIsConsistent(cfg, trace, calls, 0);
    forall i | j < i < k ensures BannedAt(trace[i], u, calls[i].now) {
      BanStands(cfg, trace, calls, j, i, u);
    }
    StandingBanCutsOff(cfg, trace, calls, u, j, k);
  }

  /** Once the end of the ban has come the account may sign in again, if nothing else is against it. */
  lemma {:induction false} BanEnds(cfg: Config, trace: seq<State>, calls: seq<Call>, u: UserId, j: nat, k: nat,
                                   now: int)
    requires IsRun(cfg, trace, calls) && Inv(trace[0]) && BannedThroughout(cfg, trace, calls, j, k, u)
    requires u in trace[k].users
    ensures MaySignIn(cfg, trace[k].users[u], now) <==>
            && calls[j].now + BanSeconds(calls[j].op) <= now
            && trace[k].users[u].activatedAt.Some? && (cfg.requireConfirmation ==> trace[k].users[u].confirmedAt.Some?)
  {
    BanStands(cfg, trace, calls, j, k, u);
    assert BannedAt(trace[k], u, now) <==> now < calls[j].now + BanSeconds(calls[j].op);
  }

  // ---------- sign-outs ----------

  /** Exactly the live rows that `ended` picks were revoked. */
  ghost predicate RevokesExactly(s: State, t: State, ended: set<nat>) {
    && t == s.(tokens := t.tokens) && |t.tokens| == |s.tokens|
    && forall i | 0 <= i < |s.tokens| ::
         t.tokens[i] == s.tokens[i].(revoked := s.tokens[i].revoked || i in ended)
  }

  function Descendants(s: State, token: Token): set<nat> { set i: nat | i < |s.tokens| && Below(s.tokens, i, token) }

  function RowsOf(s: State, u: UserId): set<nat> { set i: nat | i < |s.tokens| && s.tokens[i].user == u }

  /** Whose sessions a global sign-out ends: the bearer's, else those of the owner of the token shown. */
  function SignsOut(s: State, op: Op): Option<UserId>
    requires op.LogoutOp?
  {
    if op.bearer.Some? then op.bearer
    else if op.shown.Some? && Lookup(s.tokens, op.shown.value).Some?
    then Some(s.tokens[Lookup(s.tokens, op.shown.value).value].user)
    else None
  }

  /** A global sign-out revokes every row of its user, and is refused only when it names none. */
  lemma GlobalSignOutRevokesAll(cfg: Config, s: State, now: int, op: Op)
    requires op.LogoutOp? && op.scope == Global
    ensures var out := Apply(cfg, s, now, op);
      match SignsOut(s, op)
      case None => out == Outcome(s, Refused(MissingCredentials))
      case Some(u) => out.reply == Done && RevokesExactly(s, out.state, RowsOf(s, u))
  {
  }

  /** So does an administrator's, for a user that exists; a single row can be revoked by its id. */
  lemma ForcedSignOutRevokes(cfg: Config, s: State, now: int, op: Op)
    requires op.ForceLogoutOp? || op.RevokeRowOp?
    ensures var out := Apply(cfg, s, now, op);
      if op.ForceLogoutOp? then
        if op.user in s.users then out.reply == Done && RevokesExactly(s, out.state, RowsOf(s, op.user))
        else out == Outcome(s, Refused(NotFound))
      else
        if op.id < |s.tokens| then out.reply == Done && RevokesExactly(s, out.state, {op.id})
        else out == Outcome(s, Refused(NotFound))
  {
  }

  /** A local sign-out revokes the row of the token shown and everything rotated out of it, and nothing else. */
  lemma LocalSignOutRevokes(cfg: Config, s: State, now: int, op: Op, id: nat)
    requires Inv(s) && id < |s.tokens|
    requires op.LogoutOp? && op.scope == Local && op.shown == Some(s.tokens[id].token)
    ensures var out := Apply(cfg, s, now, op);
      out.reply == Done && RevokesExactly(s, out.state, {id} + Descendants(s, s.tokens[id].token))
  {
    LookupFinds(s.tokens, id);
  }

  /** A sign-out that names no session of its own scope is refused, and does nothing. */
  lemma UnnamedSignOutIsRefused(cfg: Config, s: State, now: int, op: Op)
    requires op.LogoutOp? && op.scope != Global
    ensures op.shown.None? ==> Apply(cfg, s, now, op) == Outcome(s, Refused(InvalidRequest))
    ensures op.shown.Some? && Unused(s.tokens, op.shown.value) ==> Apply(cfg, s, now, op) == Outcome(s, Done)
    ensures op.shown.Some? ==> Apply(cfg, s, now, op).reply == Done
  {
  }

  /** The call signs `u` out of everything. */
  ghost predicate EndsAll(s: State, op: Op, u: UserId) {
    || (op.LogoutOp? && op.scope == Global && SignsOut(s, op) == Some(u))
    || (op.ForceLogoutOp? && op.user == u && u in s.users)
  }

  lemma EndedFamily(s: State, t: State, u: UserId, root: nat)
    requires Inv(s) && Inv(t) && RevokesExactly(s, t, RowsOf(s, u)) && root < |s.tokens| && s.tokens[root].user == u
    ensures FamilyDead(t.tokens, Root(s.tokens, root))
  {
    var r := Root(s.tokens, root);
    FamilyHasOneUser(s.tokens, root);
    forall i | 0 <= i < |t.tokens| ensures DeadAt(t.tokens, r, i) {
      assert SameLinks(s.tokens, t.tokens);
      LinksStable(s.tokens, t.tokens, i);
      FamilyHasOneUser(s.tokens, i);
    }
  }

  lemma EndsAllIsRevocation(cfg: Config, s: State, now: int, op: Op, u: UserId)
    requires EndsAll(s, op, u)
    ensures RevokesExactly(s, Apply(cfg, s, now, op).state, RowsOf(s, u))
  {
    if op.LogoutOp? {
      GlobalSignOutRevokesAll(cfg, s, now, op);
    } else {
      ForcedSignOutRevokes(cfg, s, now, op);
    }
  }

  lemma EndedByCall(cfg: Config, trace: seq<State>, calls: seq<Call>, j: nat, u: UserId, root: nat)
    requires IsRun(cfg, trace, calls) && Inv(trace[0]) && j + 1 < |trace| && EndsAll(trace[j], calls[j].op, u)
    requires root < |trace[j].tokens| && trace[j].tokens[root].user == u
    ensures |trace[j + 1].tokens| == |trace[j].tokens|
    ensures FamilyDead(trace[j + 1].tokens, Root(trace[j].tokens, root))
  {
    RunKeepsInv(cfg, trace, calls, j);
    RunKeepsInv(cfg, trace, calls, j + 1);
    assert CallAt(cfg, trace, calls, j);
    EndsAllIsRevocation(cfg, trace[j], calls[j].now, calls[j].op, u);
    EndedFamily(trace[j], trace[j + 1], u, root);
  }

  lemma {:induction false} OldSessionStaysEnded(cfg: Config, trace: seq<State>, calls: seq<Call>, j: nat, k: nat,
                                                u: UserId, root: nat)
    requires IsRun(cfg, trace, calls) && Inv(trace[0]) && j < k < |trace| && EndsAll(trace[j], calls[j].op, u)
    requires root < |trace[j].tokens| && root < |trace[k].tokens|
    requires trace[k].tokens[root].parent.None? && trace[k].tokens[root].user == u
    ensures FamilyDead(trace[k].tokens, root)
  {
    RootIsOld(cfg, trace, calls, j, k, root);
    EndedByCall(cfg, trace, calls, j, u, root);
    DeadFamilyNeverRevives(cfg, trace, calls, j + 1, k, root);
  }

  /** After it, in every later state, each live token of the user goes back to a later sign-in. */
  lemma {:induction false} SignedOutForGood(cfg: Config, trace: seq<State>, calls: seq<Call>, j: nat, k: nat, u: UserId)
    requires IsRun(cfg, trace, calls) && Inv(trace[0]) && j < k < |trace| && EndsAll(trace[j], calls[j].op, u)
    ensures OnlyNewSessions(trace[k].tokens, u, |trace[j].tokens|)
  {
    RunKeepsInv(cfg, trace, calls, k);
    var t := trace[k].tokens;
    forall i | 0 <= i < |t| && t[i].user == u && !t[i].revoked ensures Root(t, i) >= |trace[j].tokens| {
      FamilyHasOneUser(t, i);
      if Root(t, i) < |trace[j].tokens| {
        OldSessionStaysEnded(cfg, trace, calls, j, k, u, Root(t, i));
      }
      LiveRootIsNew(t, |trace[j].tokens|, i);
    }
  }

  // ---------- accounts ----------

  /** A sign-up makes one active, unproven account with its password, which waits for confirmation where required. */
  lemma SignupCreates(cfg: Config, s: State, now: int, op: Op)
    requires op.SignupOp? && Enabled(s, op)
    ensures var out := Apply(cfg, s, now, op);
      if IsTaken(s, op.email) then out == Outcome(s, Refused(EmailTaken))
      else
        && out.state.users == s.users[op.user := User(op.email, Some(op.password), Some(now), None, None, None, 0)]
        && out.state.identities == s.identities && out.state.requests == s.requests
        && if cfg.requireConfirmation then
             && out.reply == Done && out.state.tokens == s.tokens
             && out.state.oneTime ==
                  s.oneTime[op.confirm := OneTime(op.user, SignupConfirm, now + cfg.signupConfirmTtl, None)]
           else
             && out.state.oneTime == s.oneTime
             && (if op.claimsOk then out.reply.Granted? && out.reply.user == op.user
                 else out.reply == Refused(ClaimsProviderFailed) && out.state.tokens == s.tokens)
  {
  }

  /** A provisioned account has an address and nothing else; activation stamps an account once. */
  lemma ProvisionAndActivate(cfg: Config, s: State, now: int, op: Op)
    requires Enabled(s, op) && (op.ProvisionOp? || op.ActivateOp?)
    ensures var out := Apply(cfg, s, now, op);
      if op.ProvisionOp? then
        if IsTaken(s, op.email) then out == Outcome(s, Refused(EmailTaken))
        else
          out == Outcome(s.(users := s.users[op.user := User(op.email, None, None, None, None, None, 0)]), Done)
      else if op.user !in s.users then out == Outcome(s, Refused(UserNotFound))
      else
        && out.reply == Done && out.state == s.(users := out.state.users) && op.user in out.state.users
        && out.state.users == s.users[op.user := s.users[op.user].(activatedAt := out.state.users[op.user].activatedAt)]
        && out.state.users[op.user].activatedAt ==
             (if s.users[op.user].activatedAt.Some? then s.users[op.user].activatedAt else Some(now))
  {
  }

  predicate MayActivate(op: Op, u: UserId) { (op.ActivateOp? && op.user == u) || op.OauthOp? }

  lemma {:induction false} StaysInactive(cfg: Config, trace: seq<State>, calls: seq<Call>, j: nat, k: nat, u: UserId)
    requires IsRun(cfg, trace, calls) && Inv(trace[0]) && j <= k < |trace|
    requires u in trace[j].users && trace[j].users[u].activatedAt.None?
    requires forall i | j <= i < k :: !MayActivate(calls[i].op, u)
    ensures u in trace[k].users && trace[k].users[u].activatedAt.None?
  {
    if j < k {
      StaysInactive(cfg, trace, calls, j, k - 1, u);
      KeptByCall(cfg, trace, calls, k - 1, u);
    }
  }

  /** An inactive account gets no session, by whatever call, before it is activated. */
  lemma {:induction false} InactiveGetsNoSession(cfg: Config, trace: seq<State>, calls: seq<Call>, j: nat, k: nat,
                                                 u: UserId)
    requires IsRun(cfg, trace, calls) && Inv(trace[0]) && j <= k < |calls|
    requires u in trace[j].users && trace[j].users[u].activatedAt.None?
    requires forall i | j <= i <= k :: !MayActivate(calls[i].op, u)
    ensures var reply := Apply(cfg, trace[k], calls[k].now, calls[k].op).reply; reply.Granted? ==> reply.user != u
  {
    StaysInactive(cfg, trace, calls, j, k + 1, u);
    assert CallAt(cfg, trace, calls, k);
    EveryGrantIsProper(cfg, trace[k], calls[k].now, calls[k].op);
  }
}
