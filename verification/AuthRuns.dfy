/** The invariant of the auth tables, and why each flow keeps it. */
module AuthRuns {
  import opened Common
  import opened TokenFamilies
  import opened AuthModel

  // ---------- the invariant ----------

  ghost predicate UniqueEmails(s: State) {
    forall u, v :: u in s.users && v in s.users && s.users[u].email == s.users[v].email ==> u == v
  }

  ghost predicate TokensOwned(s: State) {
    Chained(s.tokens) && forall i :: 0 <= i < |s.tokens| ==> s.tokens[i].user in s.users
  }

  ghost predicate OneTimeOwned(s: State) {
    forall k :: k in s.oneTime ==> s.oneTime[k].user in s.users
  }

  predicate ChangeKind(kind: Kind) { kind == ChangeCurrent || kind == ChangeNew }

  ghost predicate SideOf(s: State, u: UserId, k: Token, kind: Kind) {
    k in s.oneTime && s.oneTime[k].user == u && s.oneTime[k].kind == kind
  }

  ghost predicate UsedInTime(o: OneTime) {
    o.usedAt.Some? ==> o.usedAt.value < o.expiresAt
  }

  function SideToken(r: ChangeRequest, kind: Kind): Token {
    if kind == ChangeCurrent then r.currentToken else r.newToken
  }

  /** An email-change token is a side of its user's latest request, and was used, if at all, before it expired. */
  ghost predicate LatestSide(s: State, k: Token)
    requires k in s.oneTime
  {
    var o := s.oneTime[k];
    ChangeKind(o.kind) ==> o.user in s.requests && k == SideToken(s.requests[o.user], o.kind) && UsedInTime(o)
  }

  /** The status bits of a pending change are exactly the set of its sides that have been consumed. */
  ghost predicate PendingTracked(s: State, u: UserId)
    requires u in s.users && s.users[u].emailChange.Some?
  {
    && u in s.requests && s.users[u].emailChange.value == s.requests[u].newEmail
    && SideOf(s, u, s.requests[u].currentToken, ChangeCurrent)
    && SideOf(s, u, s.requests[u].newToken, ChangeNew)
    && s.users[u].confirmStatus == (if s.oneTime[s.requests[u].currentToken].usedAt.Some? then 1 else 0)
                                 + (if s.oneTime[s.requests[u].newToken].usedAt.Some? then 2 else 0)
    && s.users[u].confirmStatus < 3
  }

  /** A change token that is still unused belongs to a user with a change pending. */
  ghost predicate UnusedMeansPending(s: State, k: Token)
    requires k in s.oneTime
  {
    ChangeKind(s.oneTime[k].kind) && s.oneTime[k].usedAt.None? ==>
      s.oneTime[k].user in s.users && s.users[s.oneTime[k].user].emailChange.Some?
  }

  ghost predicate ChangesTracked(s: State) {
    && OneTimeOwned(s)
    && (forall k :: k in s.oneTime ==> LatestSide(s, k) && UnusedMeansPending(s, k))
    && (forall u :: u in s.users ==>
          if s.users[u].emailChange.Some? then PendingTracked(s, u) else s.users[u].confirmStatus == 0)
  }

  ghost predicate Inv(s: State) {
    UniqueEmails(s) && TokensOwned(s) && ChangesTracked(s)
  }

  // ---------- emails and pending changes ----------

  predicate SameColumns(a: User, b: User) {
    a.email == b.email && a.emailChange == b.emailChange && a.confirmStatus == b.confirmStatus
  }

  /** No email, pending change or email-change token is touched, except that one new account may appear. */
  ghost predicate Frames(s: State, t: State) {
    && t.requests == s.requests
    && (forall u :: u in s.users ==> u in t.users && SameColumns(s.users[u], t.users[u]))
    && (forall u :: u in t.users && u !in s.users ==>
          t.users[u].emailChange.None? && t.users[u].confirmStatus == 0 && !IsTaken(s, t.users[u].email))
    && (forall u, v :: u in t.users && v in t.users && u !in s.users && v !in s.users ==> u == v)
    && (forall k :: k in s.oneTime ==> k in t.oneTime)
    && (forall k :: k in t.oneTime ==>
          if k in s.oneTime && ChangeKind(s.oneTime[k].kind) then t.oneTime[k] == s.oneTime[k]
          else !ChangeKind(t.oneTime[k].kind) && t.oneTime[k].user in t.users)
  }

  lemma FramesKeepEmails(s: State, t: State)
    requires UniqueEmails(s) && Frames(s, t)
    ensures UniqueEmails(t)
  {
  }

  lemma FramesKeepChanges(s: State, t: State)
    requires ChangesTracked(s) && Frames(s, t)
    ensures ChangesTracked(t)
  {
    forall k | k in t.oneTime ensures LatestSide(t, k) && UnusedMeansPending(t, k) && t.oneTime[k].user in t.users {
      if k in s.oneTime { assert LatestSide(s, k) && UnusedMeansPending(s, k); }
    }
    forall u | u in t.users
      ensures if t.users[u].emailChange.Some? then PendingTracked(t, u) else t.users[u].confirmStatus == 0
    {
      if u in s.users && s.users[u].emailChange.Some? { assert PendingTracked(s, u); }
    }
  }

  /** The same without new accounts: the steps that flows are composed of. */
  ghost predicate Quiet(s: State, t: State) {
    && t.requests == s.requests
    && t.users.Keys == s.users.Keys
    && (forall u :: u in s.users ==> SameColumns(s.users[u], t.users[u]))
    && (forall k :: k in s.oneTime ==> k in t.oneTime)
    && (forall k :: k in t.oneTime ==>
          if k in s.oneTime && ChangeKind(s.oneTime[k].kind) then t.oneTime[k] == s.oneTime[k]
          else !ChangeKind(t.oneTime[k].kind) && t.oneTime[k].user in t.users)
  }

  lemma QuietTransitive(s: State, t: State, u: State)
    requires Quiet(s, t) && Quiet(t, u)
    ensures Quiet(s, u)
  {
  }

  lemma FramesThenQuiet(s: State, t: State, u: State)
    requires Frames(s, t) && Quiet(t, u)
    ensures Frames(s, u)
  {
  }

  lemma QuietIsFrames(s: State, t: State)
    requires Quiet(s, t)
    ensures Frames(s, t)
  {
  }

  lemma SameTablesQuiet(s: State, t: State)
    requires OneTimeOwned(s) && t.users == s.users && t.oneTime == s.oneTime && t.requests == s.requests
    ensures Quiet(s, t) && OneTimeOwned(t)
  {
  }

  lemma RowQuiet(s: State, user: UserId, row: User)
    requires OneTimeOwned(s) && user in s.users && SameColumns(s.users[user], row)
    ensures Quiet(s, SetUser(s, user, row)) && OneTimeOwned(SetUser(s, user, row))
  {
  }

  lemma OneTimeQuiet(s: State, token: Token, o: OneTime)
    requires OneTimeOwned(s) && o.user in s.users && !ChangeKind(o.kind)
    requires token in s.oneTime ==> !ChangeKind(s.oneTime[token].kind)
    ensures Quiet(s, s.(oneTime := s.oneTime[token := o])) && OneTimeOwned(s.(oneTime := s.oneTime[token := o]))
  {
  }

  lemma IssuePairQuiet(cfg: Config, s: State, user: UserId, now: int, refresh: Token, claimsOk: bool)
    requires OneTimeOwned(s)
    ensures Quiet(s, IssuePair(cfg, s, user, now, refresh, claimsOk).state)
  {
    SameTablesQuiet(s, IssuePair(cfg, s, user, now, refresh, claimsOk).state);
  }

  lemma AccountFrames(s: State, user: UserId, row: User)
    requires OneTimeOwned(s) && user !in s.users && !IsTaken(s, row.email)
    requires row.emailChange.None? && row.confirmStatus == 0
    ensures Frames(s, SetUser(s, user, row)) && OneTimeOwned(SetUser(s, user, row))
  {
  }

  lemma SignupFrames(cfg: Config, s: State, now: int, user: UserId, email: Email, password: string,
                     refresh: Token, confirm: Token, claimsOk: bool)
    requires OneTimeOwned(s) && user !in s.users && confirm !in s.oneTime
    ensures Frames(s, Signup(cfg, s, now, user, email, password, refresh, confirm, claimsOk).state)
  {
    if !IsTaken(s, email) {
      var row := User(email, Some(password), Some(now), None, None, None, 0);
      AccountFrames(s, user, row);
      var created := SetUser(s, user, row);
      if cfg.requireConfirmation {
        OneTimeQuiet(created, confirm, OneTime(user, SignupConfirm, now + cfg.signupConfirmTtl, None));
      } else {
        IssuePairQuiet(cfg, created, user, now, refresh, claimsOk);
      }
      FramesThenQuiet(s, created, Signup(cfg, s, now, user, email, password, refresh, confirm, claimsOk).state);
    }
  }

  lemma VerifyOneTimeFrames(cfg: Config, s: State, now: int, kind: Kind, token: Token, email: Option<Email>,
                            refresh: Token, claimsOk: bool)
    requires OneTimeOwned(s) && !ChangeKind(kind)
    ensures Quiet(s, VerifyOneTime(cfg, s, now, kind, token, email, refresh, claimsOk).state)
  {
    SameTablesQuiet(s, s);
    if Consumable(s, token, {kind}, email, now) {
      var user := s.oneTime[token].user;
      var burnt := Burn(s, token, now);
      OneTimeQuiet(s, token, s.oneTime[token].(usedAt := Some(now)));
      var confirmed := Confirmed(burnt, user, now);
      RowQuiet(burnt, user, confirmed.users[user]);
      IssuePairQuiet(cfg, confirmed, user, now, refresh, claimsOk);
      QuietTransitive(s, burnt, confirmed);
      QuietTransitive(s, confirmed, IssuePair(cfg, confirmed, user, now, refresh, claimsOk).state);
    }
  }

  lemma BurnRecoversQuiet(s: State, user: UserId, now: int)
    requires OneTimeOwned(s)
    ensures Quiet(s, s.(oneTime := BurnRecovers(s.oneTime, user, now)))
    ensures OneTimeOwned(s.(oneTime := BurnRecovers(s.oneTime, user, now)))
  {
  }

  /** The state in which a recovery issues its pair, reached table by table. */
  function Recovered(s: State, now: int, token: Token, password: string): State
    requires token in s.oneTime && s.oneTime[token].user in s.users
  {
    var user := s.oneTime[token].user;
    var burnt := Burn(s, token, now);
    var changed := SetUser(burnt, user, s.users[user].(password := Some(password)));
    Confirmed(changed.(tokens := RevokeUser(s.tokens, user), oneTime := BurnRecovers(burnt.oneTime, user, now)),
              user, now)
  }

  lemma SweptQuiet(s: State, now: int, token: Token)
    requires OneTimeOwned(s) && token in s.oneTime && s.oneTime[token].kind == Recover
    ensures var t := s.(oneTime := BurnRecovers(Burn(s, token, now).oneTime, s.oneTime[token].user, now));
      Quiet(s, t) && OneTimeOwned(t)
  {
    var burnt := Burn(s, token, now);
    OneTimeQuiet(s, token, s.oneTime[token].(usedAt := Some(now)));
    BurnRecoversQuiet(burnt, s.oneTime[token].user, now);
    QuietTransitive(s, burnt, burnt.(oneTime := BurnRecovers(burnt.oneTime, s.oneTime[token].user, now)));
  }

  lemma RecoveredQuiet(s: State, now: int, token: Token, password: string)
    requires OneTimeOwned(s) && token in s.oneTime && s.oneTime[token].kind == Recover
    ensures Quiet(s, Recovered(s, now, token, password)) && OneTimeOwned(Recovered(s, now, token, password))
  {
    var user := s.oneTime[token].user;
    var swept := s.(oneTime := BurnRecovers(Burn(s, token, now).oneTime, user, now));
    SweptQuiet(s, now, token);
    var t := Recovered(s, now, token, password);
    var stamped := SetUser(swept, user, t.users[user]);
    RowQuiet(swept, user, t.users[user]);
    SameTablesQuiet(stamped, t);
    QuietTransitive(s, swept, stamped);
    QuietTransitive(s, stamped, t);
  }

  lemma VerifyRecoverFrames(cfg: Config, s: State, now: int, email: Email, token: Token, password: string,
                            refresh: Token, claimsOk: bool)
    requires OneTimeOwned(s)
    ensures Quiet(s, VerifyRecover(cfg, s, now, email, token, password, refresh, claimsOk).state)
  {
    SameTablesQuiet(s, s);
    if Consumable(s, token, {Recover}, Some(email), now) {
      var user := s.oneTime[token].user;
      RecoveredQuiet(s, now, token, password);
      var recovered := Recovered(s, now, token, password);
      IssuePairQuiet(cfg, recovered, user, now, refresh, claimsOk);
      QuietTransitive(s, recovered, IssuePair(cfg, recovered, user, now, refresh, claimsOk).state);
    }
  }

  lemma SignInActivatedQuiet(cfg: Config, s: State, now: int, user: UserId, refresh: Token, claimsOk: bool)
    requires OneTimeOwned(s) && user in s.users
    ensures Quiet(s, SignInActivated(cfg, s, now, user, refresh, claimsOk).state)
  {
    var active := ActivateUser(s, now, user).state;
    RowQuiet(s, user, active.users[user]);
    IssuePairQuiet(cfg, active, user, now, refresh, claimsOk);
    QuietTransitive(s, active, SignInActivated(cfg, s, now, user, refresh, claimsOk).state);
  }

  lemma OauthFrames(cfg: Config, s: State, now: int, identity: (string, string), email: Email, verified: bool,
                    newUser: UserId, refresh: Token, claimsOk: bool)
    requires OneTimeOwned(s) && newUser !in s.users
    ensures Frames(s, OauthFinish(cfg, s, now, identity, email, verified, newUser, refresh, claimsOk).state)
  {
    var t := OauthFinish(cfg, s, now, identity, email, verified, newUser, refresh, claimsOk).state;
    SameTablesQuiet(s, s);
    QuietIsFrames(s, s);
    if email != "" {
      if identity in s.identities && s.identities[identity] in s.users {
        SignInActivatedQuiet(cfg, s, now, s.identities[identity], refresh, claimsOk);
        QuietIsFrames(s, t);
      } else if verified {
        var found := ByEmail(s, email);
        if found.Some? {
          if !Conflicting(s.users[found.value]) {
            var confirmed := Confirmed(s, found.value, now);
            RowQuiet(s, found.value, confirmed.users[found.value]);
            var linked := Linked(confirmed, identity, found.value);
            SameTablesQuiet(confirmed, linked);
            SignInActivatedQuiet(cfg, linked, now, found.value, refresh, claimsOk);
            QuietTransitive(s, confirmed, linked);
            QuietTransitive(s, linked, t);
            QuietIsFrames(s, t);
          }
        } else {
          var row := User(email, None, None, Some(now), None, None, 0);
          AccountFrames(s, newUser, row);
          var created := SetUser(s, newUser, row);
          var linked := Linked(created, identity, newUser);
          SameTablesQuiet(created, linked);
          SignInActivatedQuiet(cfg, linked, now, newUser, refresh, claimsOk);
          QuietTransitive(created, linked, t);
          FramesThenQuiet(s, created, t);
        }
      }
    }
  }

  /** A consumable side is one of the pending request, and its bit completes the status when the other is consumed. */
  lemma BitSaysOtherSide(s: State, token: Token, now: int) returns (user: UserId, other: Token)
    requires ChangesTracked(s) && Consumable(s, token, {ChangeCurrent, ChangeNew}, None, now)
    ensures user == s.oneTime[token].user && user in s.users && s.users[user].emailChange.Some? &&
      PendingTracked(s, user)
    ensures token == SideToken(s.requests[user], s.oneTime[token].kind)
    ensures other == SideToken(s.requests[user],
                               if s.oneTime[token].kind == ChangeCurrent then ChangeNew else ChangeCurrent)
    ensures other in s.oneTime && other != token && s.oneTime[other].user == user
    ensures WithBit(s.users[user].confirmStatus, s.oneTime[token].kind) == 3 <==> s.oneTime[other].usedAt.Some?
    ensures s.oneTime[other].usedAt.None? ==> s.users[user].confirmStatus == 0
  {
    user := s.oneTime[token].user;
    assert LatestSide(s, token) && UnusedMeansPending(s, token);
    other := SideToken(s.requests[user], if s.oneTime[token].kind == ChangeCurrent then ChangeNew else ChangeCurrent);
  }

  /** What an accepted email-change request makes of the tables. */
  ghost predicate Replaced(s: State, t: State, user: UserId, email: Email, currentToken: Token, newToken: Token,
                           expiresAt: int)
  {
    && user in s.users && currentToken != newToken
    && t.requests == s.requests[user := ChangeRequest(email, currentToken, newToken)]
    && t.users == s.users[user := s.users[user].(emailChange := Some(email), confirmStatus := 0)]
    && currentToken in t.oneTime && t.oneTime[currentToken] == OneTime(user, ChangeCurrent, expiresAt, None)
    && newToken in t.oneTime && t.oneTime[newToken] == OneTime(user, ChangeNew, expiresAt, None)
    && (forall k :: k in t.oneTime && k != currentToken && k != newToken ==>
          k in s.oneTime && t.oneTime[k] == s.oneTime[k] && !IsChangeOf(s.oneTime[k], user))
    && (forall k :: k in s.oneTime && !IsChangeOf(s.oneTime[k], user) ==>
          k in t.oneTime && t.oneTime[k] == s.oneTime[k])
  }

  lemma ReplacedTracked(s: State, t: State, user: UserId, email: Email, currentToken: Token, newToken: Token,
                        expiresAt: int)
    requires ChangesTracked(s) && Replaced(s, t, user, email, currentToken, newToken, expiresAt)
    ensures ChangesTracked(t)
  {
    forall k | k in t.oneTime ensures LatestSide(t, k) && UnusedMeansPending(t, k) && t.oneTime[k].user in t.users {
      if k != currentToken && k != newToken { assert LatestSide(s, k) && UnusedMeansPending(s, k); }
    }
    forall u | u in t.users
      ensures if t.users[u].emailChange.Some? then PendingTracked(t, u) else t.users[u].confirmStatus == 0
    {
      if u != user && s.users[u].emailChange.Some? { assert PendingTracked(s, u); }
    }
  }

  lemma RequestChangeTracked(cfg: Config, s: State, now: int, user: UserId, email: Email, currentToken: Token,
                             newToken: Token)
    requires ChangesTracked(s) && currentToken !in s.oneTime && newToken !in s.oneTime && currentToken != newToken
    ensures ChangesTracked(RequestEmailChange(cfg, s, now, user, email, currentToken, newToken).state)
  {
    var out := RequestEmailChange(cfg, s, now, user, email, currentToken, newToken);
    if out.reply == Done {
      ReplacedTracked(s, out.state, user, email, currentToken, newToken, now + cfg.emailChangeTtl);
    }
  }

  /** The state in which one more side is consumed, or in which the change is applied. */
  lemma SideConsumed(s: State, now: int, token: Token, row: User)
    requires ChangesTracked(s) && Consumable(s, token, {ChangeCurrent, ChangeNew}, None, now)
    requires row.emailChange.Some? ==>
      row.emailChange == s.users[s.oneTime[token].user].emailChange && row.confirmStatus < 3 &&
      row.confirmStatus == WithBit(s.users[s.oneTime[token].user].confirmStatus, s.oneTime[token].kind)
    requires row.emailChange.None? ==>
      row.confirmStatus == 0 && WithBit(s.users[s.oneTime[token].user].confirmStatus, s.oneTime[token].kind) == 3
    ensures ChangesTracked(SetUser(Burn(s, token, now), s.oneTime[token].user, row))
  {
    var user, other := BitSaysOtherSide(s, token, now);
    var t := SetUser(Burn(s, token, now), user, row);
    forall k | k in t.oneTime ensures LatestSide(t, k) && UnusedMeansPending(t, k) && t.oneTime[k].user in t.users {
      assert LatestSide(s, k) && UnusedMeansPending(s, k);
    }
    forall u | u in t.users
      ensures if t.users[u].emailChange.Some? then PendingTracked(t, u) else t.users[u].confirmStatus == 0
    {
      if u in s.users && s.users[u].emailChange.Some? { assert PendingTracked(s, u); }
    }
  }

  lemma VerifyChangeTracked(cfg: Config, s: State, now: int, token: Token, refresh: Token, claimsOk: bool)
    requires ChangesTracked(s)
    ensures ChangesTracked(VerifyEmailChange(cfg, s, now, token, refresh, claimsOk).state)
  {
    if Consumable(s, token, {ChangeCurrent, ChangeNew}, None, now) {
      var user, other := BitSaysOtherSide(s, token, now);
      var row := s.users[user];
      var status := WithBit(row.confirmStatus, s.oneTime[token].kind);
      if status != 3 {
        SideConsumed(s, now, token, row.(confirmStatus := status));
      } else {
        var applied := row.(email := row.emailChange.value, emailChange := None, confirmStatus := 0,
                             confirmedAt := Some(now));
        SideConsumed(s, now, token, applied);
        var t := SetUser(Burn(s, token, now), user, applied);
        IssuePairQuiet(cfg, t, user, now, refresh, claimsOk);
        QuietIsFrames(t, IssuePair(cfg, t, user, now, refresh, claimsOk).state);
        FramesKeepChanges(t, IssuePair(cfg, t, user, now, refresh, claimsOk).state);
      }
    }
  }

  lemma VerifyChangeUnique(cfg: Config, s: State, now: int, token: Token, refresh: Token, claimsOk: bool)
    requires UniqueEmails(s)
    ensures UniqueEmails(VerifyEmailChange(cfg, s, now, token, refresh, claimsOk).state)
  {
  }

  /** The flows that touch one row, or none, of the accounts. */
  lemma RowFlowsQuiet(cfg: Config, s: State, now: int, op: Op)
    requires OneTimeOwned(s)
    requires op.ActivateOp? || op.BanOp? || op.UnbanOp?
    ensures Quiet(s, Apply(cfg, s, now, op).state)
  {
    SameTablesQuiet(s, s);
    var t := Apply(cfg, s, now, op).state;
    if op.user in s.users && t != s { RowQuiet(s, op.user, t.users[op.user]); }
  }

  lemma SignOutsQuiet(cfg: Config, s: State, now: int, op: Op)
    requires OneTimeOwned(s) && (op.LogoutOp? || op.ForceLogoutOp? || op.RevokeRowOp?)
    ensures Quiet(s, Apply(cfg, s, now, op).state)
  {
    var t := Apply(cfg, s, now, op).state;
    assert t.users == s.users && t.oneTime == s.oneTime && t.requests == s.requests;
    SameTablesQuiet(s, t);
  }

  lemma TokenFlowsQuiet(cfg: Config, s: State, now: int, op: Op)
    requires OneTimeOwned(s)
    requires op.PasswordOp? || op.RefreshOp? || op.LogoutOp? || op.ForceLogoutOp? || op.RevokeRowOp?
    ensures Quiet(s, Apply(cfg, s, now, op).state)
  {
    if op.PasswordOp? || op.RefreshOp? {
      var t := Apply(cfg, s, now, op).state;
      assert t.users == s.users && t.oneTime == s.oneTime && t.requests == s.requests;
      SameTablesQuiet(s, t);
    } else {
      SignOutsQuiet(cfg, s, now, op);
    }
  }

  lemma UpdatePasswordQuiet(cfg: Config, s: State, now: int, user: UserId, password: string, current: Option<string>,
                            refresh: Token, claimsOk: bool)
    requires OneTimeOwned(s)
    ensures Quiet(s, UpdatePassword(cfg, s, now, user, password, current, refresh, claimsOk).state)
  {
    SameTablesQuiet(s, s);
    if user in s.users {
      var changed := SetUser(s, user, s.users[user].(password := Some(password)));
      RowQuiet(s, user, changed.users[user]);
      var out := changed.(tokens := RevokeUser(s.tokens, user));
      var t := IssuePair(cfg, out, user, now, refresh, claimsOk).state;
      SameTablesQuiet(changed, t);
      QuietTransitive(s, changed, t);
    }
  }

  lemma RequestOneTimeQuiet(cfg: Config, s: State, now: int, kind: Kind, email: Email, token: Token, asked: Option<int>)
    requires OneTimeOwned(s) && !ChangeKind(kind) && token !in s.oneTime
    ensures Quiet(s, RequestOneTime(cfg, s, now, kind, email, token, asked).state)
  {
    SameTablesQuiet(s, s);
    var found := ByEmail(s, email);
    if found.Some? { OneTimeQuiet(s, token, OneTime(found.value, kind, now + TtlOf(cfg, kind, asked), None)); }
  }

  lemma ApplyFrames(cfg: Config, s: State, now: int, op: Op)
    requires OneTimeOwned(s) && Enabled(s, op) && !op.RequestChangeOp? && !op.VerifyChangeOp?
    ensures Frames(s, Apply(cfg, s, now, op).state)
  {
    match op {
      case SignupOp(u, e, p, r, c, ok) => SignupFrames(cfg, s, now, u, e, p, r, c, ok); return;
      case OauthOp(i, e, v, u, r, ok) => OauthFrames(cfg, s, now, i, e, v, u, r, ok); return;
      case ProvisionOp(u, e) =>
        SameTablesQuiet(s, s);
        QuietIsFrames(s, s);
        if !IsTaken(s, e) { AccountFrames(s, u, User(e, None, None, None, None, None, 0)); }
        return;
      case UpdatePasswordOp(u, p, c, r, ok) => UpdatePasswordQuiet(cfg, s, now, u, p, c, r, ok);
      case RequestOneTimeOp(k, e, t, asked) => RequestOneTimeQuiet(cfg, s, now, k, e, t, asked);
      case VerifyOneTimeOp(k, t, e, r, ok) => VerifyOneTimeFrames(cfg, s, now, k, t, e, r, ok);
      case VerifyRecoverOp(e, t, p, r, ok) => VerifyRecoverFrames(cfg, s, now, e, t, p, r, ok);
      case ActivateOp(_) => RowFlowsQuiet(cfg, s, now, op);
      case BanOp(_, _) => RowFlowsQuiet(cfg, s, now, op);
      case UnbanOp(_) => RowFlowsQuiet(cfg, s, now, op);
      case _ => TokenFlowsQuiet(cfg, s, now, op);
    }
    QuietIsFrames(s, Apply(cfg, s, now, op).state);
  }

  lemma ApplyKeepsChanges(cfg: Config, s: State, now: int, op: Op)
    requires ChangesTracked(s) && Enabled(s, op)
    ensures ChangesTracked(Apply(cfg, s, now, op).state)
  {
    match op
    case RequestChangeOp(u, e, tc, tn) => RequestChangeTracked(cfg, s, now, u, e, tc, tn);
    case VerifyChangeOp(t, r, ok) => VerifyChangeTracked(cfg, s, now, t, r, ok);
    case _ =>
      ApplyFrames(cfg, s, now, op);
      FramesKeepChanges(s, Apply(cfg, s, now, op).state);
  }

  lemma ApplyKeepsEmails(cfg: Config, s: State, now: int, op: Op)
    requires UniqueEmails(s) && OneTimeOwned(s) && Enabled(s, op)
    ensures UniqueEmails(Apply(cfg, s, now, op).state)
  {
    match op
    case RequestChangeOp(_, _, _, _) =>
    case VerifyChangeOp(t, r, ok) => VerifyChangeUnique(cfg, s, now, t, r, ok);
    case _ =>
      ApplyFrames(cfg, s, now, op);
      FramesKeepEmails(s, Apply(cfg, s, now, op).state);
  }

  // ---------- token rows ----------

  lemma RevocationOwned(s: State, tokens: Table)
    requires TokensOwned(s) && SameLinks(s.tokens, tokens) && |tokens| == |s.tokens|
    requires forall i :: 0 <= i < |tokens| && s.tokens[i].revoked ==> tokens[i].revoked
    ensures TokensOwned(s.(tokens := tokens)) && Evolves(s.tokens, tokens)
  {
    RevokingKeepsChained(s.tokens, tokens);
    forall i | 0 <= i < |tokens| ensures tokens[i].user in s.users {
      assert tokens[i].(revoked := false) == s.tokens[i].(revoked := false);
    }
  }

  lemma UntouchedOwned(s: State, t: State)
    requires TokensOwned(s) && t.tokens == s.tokens && s.users.Keys <= t.users.Keys
    ensures TokensOwned(t) && Evolves(s.tokens, t.tokens)
  {
  }

  ghost predicate BannedAt(s: State, user: UserId, now: int) {
    user in s.users && s.users[user].bannedUntil.Some? && s.users[user].bannedUntil.value > now
  }

  /** The row that a step added to the token table, if it added one. */
  function NewOwner(s: State, t: State): UserId
    requires |t.tokens| > |s.tokens|
  {
    t.tokens[|s.tokens|].user
  }

  /**
   Nothing is issued, or one sign-in: a new family and an access token for one user who is not banned, all of whose
   earlier rows either stay as they were or are revoked in the same step.
   */
  ghost predicate SignsIn(cfg: Config, s: State, now: int, t: State, refresh: Token) {
    && s.users.Keys <= t.users.Keys
    && (|t.tokens| == |s.tokens| ==> t.tokens == s.tokens && t.access == s.access)
    && |s.tokens| <= |t.tokens| <= |s.tokens| + 1
    && (|t.tokens| > |s.tokens| ==>
          var u := NewOwner(s, t);
          && u in t.users && !BannedAt(s, u, now) && t.access == s.access + [NewAccess(cfg, u, now)]
          && (t.tokens == Issue(s.tokens, u, refresh) || t.tokens == Issue(RevokeUser(s.tokens, u), u, refresh)))
  }

  lemma SignsInOwned(cfg: Config, s: State, now: int, t: State, refresh: Token)
    requires TokensOwned(s) && Unused(s.tokens, refresh) && SignsIn(cfg, s, now, t, refresh)
    ensures TokensOwned(t) && Evolves(s.tokens, t.tokens)
  {
    if |t.tokens| == |s.tokens| {
      UntouchedOwned(s, t);
    } else {
      var u := NewOwner(s, t);
      if t.tokens == Issue(s.tokens, u, refresh) {
        IssueKeepsChained(s.tokens, u, refresh);
      } else {
        var revoked := RevokeUser(s.tokens, u);
        RevocationOwned(s, revoked);
        forall i | 0 <= i < |revoked| ensures revoked[i].token != refresh {
          assert revoked[i].(revoked := false) == s.tokens[i].(revoked := false);
        }
        IssueKeepsChained(revoked, u, refresh);
        assert forall i :: 0 <= i < |s.tokens| ==> t.tokens[i] == revoked[i];
      }
    }
  }

  /** Issuing from a state reached without touching token rows, or after revoking all of the user's. */
  lemma IssueSignsIn(cfg: Config, s: State, mid: State, user: UserId, now: int, refresh: Token, claimsOk: bool)
    requires mid.tokens == s.tokens || mid.tokens == RevokeUser(s.tokens, user)
    requires mid.access == s.access && s.users.Keys <= mid.users.Keys
    requires user in s.users ==> mid.users[user].bannedUntil == s.users[user].bannedUntil
    ensures var out := IssuePair(cfg, mid, user, now, refresh, claimsOk);
      out.reply.Granted? || mid.tokens == s.tokens ==> SignsIn(cfg, s, now, out.state, refresh)
  {
    var t := IssuePair(cfg, mid, user, now, refresh, claimsOk).state;
    assert |RevokeUser(s.tokens, user)| == |s.tokens|;
    if |t.tokens| > |s.tokens| { assert NewOwner(s, t) == user; }
  }

  lemma SignupSignsIn(cfg: Config, s: State, now: int, user: UserId, email: Email, password: string,
                      refresh: Token, confirm: Token, claimsOk: bool)
    requires user !in s.users
    ensures SignsIn(cfg, s, now, Signup(cfg, s, now, user, email, password, refresh, confirm, claimsOk).state, refresh)
  {
    IssueSignsIn(cfg, s, SetUser(s, user, User(email, Some(password), Some(now), None, None, None, 0)),
                 user, now, refresh, claimsOk);
  }

  lemma UpdatePasswordSignsIn(cfg: Config, s: State, now: int, user: UserId, password: string, current: Option<string>,
                              refresh: Token, claimsOk: bool)
    ensures SignsIn(cfg, s, now, UpdatePassword(cfg, s, now, user, password, current, refresh, claimsOk).state, refresh)
  {
    if user in s.users {
      var changed := SetUser(s, user, s.users[user].(password := Some(password)));
      IssueSignsIn(cfg, s, changed.(tokens := RevokeUser(s.tokens, user)), user, now, refresh, claimsOk);
    }
  }

  lemma VerifyChangeSignsIn(cfg: Config, s: State, now: int, token: Token, refresh: Token, claimsOk: bool)
    ensures SignsIn(cfg, s, now, VerifyEmailChange(cfg, s, now, token, refresh, claimsOk).state, refresh)
  {
    if token in s.oneTime && s.oneTime[token].user in s.users && s.users[s.oneTime[token].user].emailChange.Some? {
      var user := s.oneTime[token].user;
      var row := s.users[user];
      IssueSignsIn(cfg, s, SetUser(Burn(s, token, now), user,
        row.(email := row.emailChange.value, emailChange := None, confirmStatus := 0, confirmedAt := Some(now))),
        user, now, refresh, claimsOk);
    }
  }

  lemma VerifyOneTimeSignsIn(cfg: Config, s: State, now: int, kind: Kind, token: Token, email: Option<Email>,
                             refresh: Token, claimsOk: bool)
    ensures SignsIn(cfg, s, now, VerifyOneTime(cfg, s, now, kind, token, email, refresh, claimsOk).state, refresh)
  {
    if Consumable(s, token, {kind}, email, now) {
      var user := s.oneTime[token].user;
      IssueSignsIn(cfg, s, Confirmed(Burn(s, token, now), user, now), user, now, refresh, claimsOk);
    }
  }

  lemma VerifyRecoverSignsIn(cfg: Config, s: State, now: int, email: Email, token: Token, password: string,
                             refresh: Token, claimsOk: bool)
    ensures SignsIn(cfg, s, now, VerifyRecover(cfg, s, now, email, token, password, refresh, claimsOk).state, refresh)
  {
    if Consumable(s, token, {Recover}, Some(email), now) {
      IssueSignsIn(cfg, s, Recovered(s, now, token, password), s.oneTime[token].user, now, refresh, claimsOk);
    }
  }

  lemma ActivatedSignsIn(cfg: Config, s: State, mid: State, user: UserId, now: int, refresh: Token, claimsOk: bool)
    requires mid.tokens == s.tokens && mid.access == s.access && s.users.Keys <= mid.users.Keys && user in mid.users
    requires user in s.users ==> mid.users[user].bannedUntil == s.users[user].bannedUntil
    ensures SignsIn(cfg, s, now, SignInActivated(cfg, mid, now, user, refresh, claimsOk).state, refresh)
  {
    IssueSignsIn(cfg, s, ActivateUser(mid, now, user).state, user, now, refresh, claimsOk);
  }

  lemma OauthSignsIn(cfg: Config, s: State, now: int, identity: (string, string), email: Email, verified: bool,
                     newUser: UserId, refresh: Token, claimsOk: bool)
    requires newUser !in s.users
    ensures SignsIn(cfg, s, now,
                    OauthFinish(cfg, s, now, identity, email, verified, newUser, refresh, claimsOk).state, refresh)
  {
    if identity in s.identities && s.identities[identity] in s.users {
      ActivatedSignsIn(cfg, s, s, s.identities[identity], now, refresh, claimsOk);
    } else if IsTaken(s, email) {
      var user := ByEmail(s, email).value;
      ActivatedSignsIn(cfg, s, Linked(Confirmed(s, user, now), identity, user), user, now, refresh, claimsOk);
    } else {
      var created := SetUser(s, newUser, User(email, None, None, Some(now), None, None, 0));
      ActivatedSignsIn(cfg, s, Linked(created, identity, newUser), newUser, now, refresh, claimsOk);
    }
  }

  /** The refresh token a call would issue as a new sign-in. */
  function SignInToken(op: Op): Option<Token> {
    match op
    case SignupOp(_, _, _, r, _, _) => Some(r)
    case PasswordOp(_, _, r, _) => Some(r)
    case UpdatePasswordOp(_, _, _, r, _) => Some(r)
    case VerifyChangeOp(_, r, _) => Some(r)
    case VerifyOneTimeOp(_, _, _, r, _) => Some(r)
    case VerifyRecoverOp(_, _, _, r, _) => Some(r)
    case OauthOp(_, _, _, _, r, _) => Some(r)
    case _ => None
  }

  lemma ApplySignsIn(cfg: Config, s: State, now: int, op: Op)
    requires Enabled(s, op) && SignInToken(op).Some?
    ensures SignsIn(cfg, s, now, Apply(cfg, s, now, op).state, SignInToken(op).value)
    ensures Unused(s.tokens, SignInToken(op).value)
  {
    match op
    case SignupOp(u, e, p, r, c, ok) => SignupSignsIn(cfg, s, now, u, e, p, r, c, ok);
    case PasswordOp(e, _, r, ok) => if IsTaken(s, e) { IssueSignsIn(cfg, s, s, ByEmail(s, e).value, now, r, ok); }
    case UpdatePasswordOp(u, p, c, r, ok) => UpdatePasswordSignsIn(cfg, s, now, u, p, c, r, ok);
    case VerifyChangeOp(k, r, ok) => VerifyChangeSignsIn(cfg, s, now, k, r, ok);
    case VerifyOneTimeOp(kind, k, e, r, ok) => VerifyOneTimeSignsIn(cfg, s, now, kind, k, e, r, ok);
    case VerifyRecoverOp(e, k, p, r, ok) => VerifyRecoverSignsIn(cfg, s, now, e, k, p, r, ok);
    case OauthOp(i, e, v, u, r, ok) => OauthSignsIn(cfg, s, now, i, e, v, u, r, ok);
  }

  lemma RefreshOwned(cfg: Config, s: State, now: int, presented: Token, refresh: Token, claimsOk: bool)
    requires TokensOwned(s) && Unused(s.tokens, refresh)
    ensures var t := RefreshGrant(cfg, s, now, presented, refresh, claimsOk).state;
      TokensOwned(t) && Evolves(s.tokens, t.tokens)
  {
    UntouchedOwned(s, s);
    var row := Lookup(s.tokens, presented);
    if row.Some? {
      var id := row.value;
      if s.tokens[id].revoked {
        RevocationOwned(s, RevokeBelow(s.tokens, presented));
      } else {
        RotateKeepsChained(s.tokens, id, refresh);
      }
    }
  }

  lemma LogoutOwned(s: State, shown: Option<Token>, scope: Scope, bearer: Option<UserId>)
    requires TokensOwned(s)
    ensures TokensOwned(Logout(s, shown, scope, bearer).state)
    ensures Evolves(s.tokens, Logout(s, shown, scope, bearer).state.tokens)
  {
    RevocationOwned(s, Logout(s, shown, scope, bearer).state.tokens);
  }

  lemma AdminRevocationOwned(s: State, user: UserId, id: nat)
    requires TokensOwned(s)
    ensures TokensOwned(ForceLogout(s, user).state) && Evolves(s.tokens, ForceLogout(s, user).state.tokens)
    ensures TokensOwned(RevokeRefreshToken(s, id).state) && Evolves(s.tokens, RevokeRefreshToken(s, id).state.tokens)
  {
    RevocationOwned(s, ForceLogout(s, user).state.tokens);
    RevocationOwned(s, RevokeRefreshToken(s, id).state.tokens);
  }

  /** The calls that neither issue nor revoke. */
  predicate LeavesTokens(op: Op) {
    op.ActivateOp? || op.RequestChangeOp? || op.RequestOneTimeOp? || op.BanOp? || op.UnbanOp? || op.ProvisionOp?
  }

  lemma ApplyLeavesTokens(cfg: Config, s: State, now: int, op: Op)
    requires LeavesTokens(op)
    ensures var t := Apply(cfg, s, now, op).state;
      t.tokens == s.tokens && t.access == s.access && s.users.Keys <= t.users.Keys
  {
  }

  lemma ApplyKeepsTokens(cfg: Config, s: State, now: int, op: Op)
    requires TokensOwned(s) && Enabled(s, op)
    ensures TokensOwned(Apply(cfg, s, now, op).state)
    ensures Evolves(s.tokens, Apply(cfg, s, now, op).state.tokens)
  {
    var t := Apply(cfg, s, now, op).state;
    if SignInToken(op).Some? {
      ApplySignsIn(cfg, s, now, op);
      SignsInOwned(cfg, s, now, t, SignInToken(op).value);
    } else if LeavesTokens(op) {
      ApplyLeavesTokens(cfg, s, now, op);
      UntouchedOwned(s, t);
    } else {
      match op
      case RefreshOp(presented, r, ok) => RefreshOwned(cfg, s, now, presented, r, ok);
      case LogoutOp(shown, scope, bearer) => LogoutOwned(s, shown, scope, bearer);
      case ForceLogoutOp(u) => AdminRevocationOwned(s, u, 0);
      case RevokeRowOp(id) => AdminRevocationOwned(s, 0, id);
    }
  }

  lemma ApplyKept(cfg: Config, s: State, now: int, op: Op)
    requires Inv(s) && Enabled(s, op)
    ensures Inv(Apply(cfg, s, now, op).state)
    ensures Evolves(s.tokens, Apply(cfg, s, now, op).state.tokens)
  {
    ApplyKeepsEmails(cfg, s, now, op);
    ApplyKeepsTokens(cfg, s, now, op);
    ApplyKeepsChanges(cfg, s, now, op);
  }

}
