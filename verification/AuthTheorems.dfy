/** What every run of the auth flows keeps, and what single flows achieve in any state a run can reach. */
module AuthTheorems {
  import opened Common
  import opened TokenFamilies
  import opened AuthModel
  import opened AuthRuns

  // ---------- runs ----------

  datatype Call = Call(now: int, op: Op)

  ghost predicate CallAt(cfg: Config, trace: seq<State>, calls: seq<Call>, i: nat)
    requires i < |calls| && i + 1 < |trace|
  {
    Enabled(trace[i], calls[i].op) && trace[i + 1] == Apply(cfg, trace[i], calls[i].now, calls[i].op).state
  }

  /** The states a run passes through: `trace[i + 1]` is what call `i` makes of `trace[i]`; time never goes back. */
  ghost predicate IsRun(cfg: Config, trace: seq<State>, calls: seq<Call>) {
    && |trace| == |calls| + 1
    && (forall i | 0 <= i < |calls| :: CallAt(cfg, trace, calls, i))
    && (forall i, j :: 0 <= i < j < |calls| ==> calls[i].now <= calls[j].now)
  }

  lemma {:induction false} RunKeepsInv(cfg: Config, trace: seq<State>, calls: seq<Call>, k: nat)
    requires IsRun(cfg, trace, calls) && Inv(trace[0]) && k < |trace|
    ensures Inv(trace[k])
  {
    if k > 0 {
      RunKeepsInv(cfg, trace, calls, k - 1);
      assert CallAt(cfg, trace, calls, k - 1);
      ApplyKept(cfg, trace[k - 1], calls[k - 1].now, calls[k - 1].op);
    }
  }

  /** Every run from the empty tables keeps chains, emails and pending changes consistent. */
  lemma EveryReachableStateIsConsistent(cfg: Config, trace: seq<State>, calls: seq<Call>, k: nat)
    requires IsRun(cfg, trace, calls) && trace[0] == EMPTY && k < |trace|
    ensures Inv(trace[k])
  {
    assert Inv(EMPTY);
    RunKeepsInv(cfg, trace, calls, k);
  }

  // ---------- token families ----------

  /** In every reachable state two tokens of one family belong to one user, and at most the later is live. */
  lemma OneLiveTokenPerFamily(s: State, i: nat, k: nat)
    requires Inv(s) && i < k < |s.tokens| && Root(s.tokens, i) == Root(s.tokens, k)
    ensures s.tokens[i].user == s.tokens[k].user && s.tokens[i].revoked && Below(s.tokens, k, s.tokens[i].token)
  {
    FamilyIsChain(s.tokens, i, k);
    FamilyHasOneUser(s.tokens, i);
    FamilyHasOneUser(s.tokens, k);
  }

  lemma {:induction false} DeadFamilyNeverRevives(cfg: Config, trace: seq<State>, calls: seq<Call>, j: nat, k: nat,
                                                  root: nat)
    requires IsRun(cfg, trace, calls) && Inv(trace[0]) && j <= k < |trace|
    requires root < |trace[j].tokens| && FamilyDead(trace[j].tokens, root)
    ensures |trace[j].tokens| <= |trace[k].tokens| && FamilyDead(trace[k].tokens, root)
    decreases k - j
  {
    if j < k {
      RunKeepsInv(cfg, trace, calls, j);
      RunKeepsInv(cfg, trace, calls, j + 1);
      assert CallAt(cfg, trace, calls, j);
      ApplyKept(cfg, trace[j], calls[j].now, calls[j].op);
      DeadStaysDead(trace[j].tokens, trace[j + 1].tokens, root);
      DeadFamilyNeverRevives(cfg, trace, calls, j + 1, k, root);
    }
  }

  /** The presented row's family is revoked as a whole: by reuse detection, or by a local sign-out with any member. */
  ghost predicate EndsFamily(s: State, op: Op, id: nat)
    requires id < |s.tokens|
  {
    || (op.RefreshOp? && op.presented == s.tokens[id].token && s.tokens[id].revoked)
    || (op.LogoutOp? && op.scope == Local && op.shown == Some(s.tokens[id].token))
  }

  lemma LookupFinds(t: Table, id: nat)
    requires Chained(t) && id < |t|
    ensures Lookup(t, t[id].token) == Some(id)
  {
  }

  /**
   Once a revoked token is presented, or any member is signed out locally, no token of that family is live in any
   later state of the run.
   */
  lemma EndedFamilyStaysEnded(cfg: Config, trace: seq<State>, calls: seq<Call>, j: nat, k: nat, id: nat)
    requires IsRun(cfg, trace, calls) && Inv(trace[0]) && j < k < |trace|
    requires id < |trace[j].tokens| && EndsFamily(trace[j], calls[j].op, id)
    ensures calls[j].op.RefreshOp? ==>
      Apply(cfg, trace[j], calls[j].now, calls[j].op).reply == Refused(TokenReuseDetected)
    ensures FamilyDead(trace[k].tokens, Root(trace[j].tokens, id))
  {
    RunKeepsInv(cfg, trace, calls, j);
    assert CallAt(cfg, trace, calls, j);
    EndingKillsFamily(cfg, trace[j], calls[j].now, calls[j].op, id);
    DeadFamilyNeverRevives(cfg, trace, calls, j + 1, k, Root(trace[j].tokens, id));
  }

  lemma EndingKillsFamily(cfg: Config, s: State, now: int, op: Op, id: nat)
    requires Inv(s) && id < |s.tokens| && EndsFamily(s, op, id)
    ensures op.RefreshOp? ==> Apply(cfg, s, now, op).reply == Refused(TokenReuseDetected)
    ensures FamilyDead(Apply(cfg, s, now, op).state.tokens, Root(s.tokens, id))
    ensures |Apply(cfg, s, now, op).state.tokens| == |s.tokens|
  {
    LookupFinds(s.tokens, id);
    if op.RefreshOp? {
      ReuseKillsFamily(s.tokens, id);
    } else {
      LocalLogoutKillsFamily(s.tokens, id);
    }
  }

  /** Whose sessions a sign-out with a presented row ends: the bearer's when there is one, else the row's owner's. */
  function SignedOut(s: State, id: nat, bearer: Option<UserId>): UserId
    requires id < |s.tokens|
  {
    if bearer.Some? then bearer.value else s.tokens[id].user
  }

  /** Some token of the family is live. */
  ghost predicate FamilyLive(t: Table, root: nat) {
    exists i :: 0 <= i < |t| && Root(t, i) == root && !t[i].revoked
  }

  lemma LiveIsNotDead(t: Table, root: nat)
    ensures FamilyLive(t, root) <==> !FamilyDead(t, root)
  {
    if FamilyLive(t, root) {
      var i :| 0 <= i < |t| && Root(t, i) == root && !t[i].revoked;
      assert !DeadAt(t, root, i);
    } else {
      forall i | 0 <= i < |t| ensures DeadAt(t, root, i) {}
    }
  }

  /** Revoking others' rows, or all rows of one's own but one, as the family of that one sees it. */
  lemma FamilyAfterRevokeExcept(t: Table, user: UserId, id: nat)
    requires Chained(t) && id < |t|
    ensures FamilyLive(RevokeUserExcept(t, user, id), Root(t, id)) <==>
            !t[id].revoked || (user != t[id].user && FamilyLive(t, Root(t, id)))
  {
    var u, root := RevokeUserExcept(t, user, id), Root(t, id);
    forall i | 0 <= i < |t| ensures Root(u, i) == Root(t, i) && (Root(t, i) == root ==> t[i].user == t[id].user) {
      LinksStable(t, u, i);
      FamilyHasOneUser(t, i);
      FamilyHasOneUser(t, id);
    }
    if !t[id].revoked {
      assert Root(u, id) == root && !u[id].revoked;
    } else if user != t[id].user && FamilyLive(t, root) {
      var i :| 0 <= i < |t| && Root(t, i) == root && !t[i].revoked;
      assert Root(u, i) == root && !u[i].revoked;
    }
  }

  /**
   `others` revokes all rows of the user but the presented one. The presented token's session survives if and only if
   that token itself is live, or the bearer is someone else and the session was live.
   */
  lemma LogoutOthersKeepsSessionIff(s: State, id: nat, bearer: Option<UserId>)
    requires Inv(s) && id < |s.tokens|
    ensures var t := Logout(s, Some(s.tokens[id].token), Others, bearer).state;
      var root := Root(s.tokens, id);
      && |t.tokens| == |s.tokens|
      && (forall i :: 0 <= i < |s.tokens| ==>
            t.tokens[i] == if s.tokens[i].user == SignedOut(s, id, bearer) && i != id
                           then Revoked(s.tokens[i]) else s.tokens[i])
      && (FamilyLive(t.tokens, root) <==>
            !s.tokens[id].revoked ||
            (bearer.Some? && bearer.value != s.tokens[id].user && !FamilyDead(s.tokens, root)))
  {
    LookupFinds(s.tokens, id);
    FamilyAfterRevokeExcept(s.tokens, SignedOut(s, id, bearer), id);
    LiveIsNotDead(s.tokens, Root(s.tokens, id));
  }

  // ---------- all or nothing ----------

  /** An OAuth sign-in has something to write before it issues: an account, a link, a confirmation or an activation. */
  ghost predicate OauthSettles(s: State, identity: (string, string), email: Email) {
    if identity in s.identities && s.identities[identity] in s.users then
      s.users[s.identities[identity]].activatedAt.None?
    else
      match ByEmail(s, email)
      case Some(u) => identity !in s.identities || s.users[u].confirmedAt.None? || s.users[u].activatedAt.None?
      case None => true
  }

  /** A live descendant of the presented token. */
  ghost predicate HasLiveBelow(t: Table, presented: Token) {
    exists i :: 0 <= i < |t| && Below(t, i, presented) && !t[i].revoked
  }

  /**
   The refusals that leave a mark: detected reuse with a live descendant, a provider failing after a rotation or a
   sign-up has been committed, and an OAuth sign-in refused at issuance after something was settled.
   */
  ghost predicate LeavesMark(s: State, op: Op, e: AuthError) {
    match op
    case RefreshOp(presented, _, _) =>
      e == ClaimsProviderFailed || (e == TokenReuseDetected && HasLiveBelow(s.tokens, presented))
    case SignupOp(_, _, _, _, _, _) => e == ClaimsProviderFailed
    case OauthOp(identity, email, _, _, _, _) =>
      (e == AccountDisabled || e == EmailNotConfirmed || e == ClaimsProviderFailed) && OauthSettles(s, identity, email)
    case _ => false
  }

  lemma RefusedRefreshMarks(cfg: Config, s: State, now: int, presented: Token, refresh: Token, claimsOk: bool)
    requires RefreshGrant(cfg, s, now, presented, refresh, claimsOk).reply.Refused?
    ensures var out := RefreshGrant(cfg, s, now, presented, refresh, claimsOk);
      out.state != s <==> LeavesMark(s, RefreshOp(presented, refresh, claimsOk), out.reply.error)
  {
    var out := RefreshGrant(cfg, s, now, presented, refresh, claimsOk);
    if out.reply.error == TokenReuseDetected {
      if HasLiveBelow(s.tokens, presented) {
        var i :| 0 <= i < |s.tokens| && Below(s.tokens, i, presented) && !s.tokens[i].revoked;
        assert out.state.tokens[i] != s.tokens[i];
      } else {
        assert out.state.tokens == s.tokens;
      }
    } else if out.reply.error == ClaimsProviderFailed {
      assert |out.state.tokens| == |s.tokens| + 1;
    }
  }

  lemma RefusedSignupMarks(cfg: Config, s: State, now: int, user: UserId, email: Email, password: string,
                           refresh: Token, confirm: Token, claimsOk: bool)
    requires user !in s.users && Signup(cfg, s, now, user, email, password, refresh, confirm, claimsOk).reply.Refused?
    ensures var out := Signup(cfg, s, now, user, email, password, refresh, confirm, claimsOk);
      out.state != s <==> LeavesMark(s, SignupOp(user, email, password, refresh, confirm, claimsOk), out.reply.error)
  {
    var out := Signup(cfg, s, now, user, email, password, refresh, confirm, claimsOk);
    if out.reply.error == ClaimsProviderFailed {
      assert user in out.state.users;
    }
  }

  lemma RefusedSignInMarks(cfg: Config, s: State, now: int, user: UserId, refresh: Token, claimsOk: bool)
    requires user in s.users && SignInActivated(cfg, s, now, user, refresh, claimsOk).reply.Refused?
    ensures var out := SignInActivated(cfg, s, now, user, refresh, claimsOk);
      && out.state == ActivateUser(s, now, user).state
      && (out.state != s <==> s.users[user].activatedAt.None?)
      && (out.reply.error == AccountDisabled || out.reply.error == EmailNotConfirmed ||
          out.reply.error == ClaimsProviderFailed)
  {
    var row := s.users[user].(activatedAt := Coalesce(s.users[user].activatedAt, now));
    assert ActivateUser(s, now, user).state.users[user] == row;
    if s.users[user].activatedAt.Some? {
      assert row == s.users[user];
      assert s.users[user := row] == s.users;
    }
  }

  lemma RefusedOauthMarks(cfg: Config, s: State, now: int, identity: (string, string), email: Email, verified: bool,
                          newUser: UserId, refresh: Token, claimsOk: bool)
    requires newUser !in s.users
    requires OauthFinish(cfg, s, now, identity, email, verified, newUser, refresh, claimsOk).reply.Refused?
    ensures var out := OauthFinish(cfg, s, now, identity, email, verified, newUser, refresh, claimsOk);
      out.state != s <==> LeavesMark(s, OauthOp(identity, email, verified, newUser, refresh, claimsOk), out.reply.error)
  {
    if email == "" {
    } else if identity in s.identities && s.identities[identity] in s.users {
      RefusedSignInMarks(cfg, s, now, s.identities[identity], refresh, claimsOk);
    } else if verified {
      match ByEmail(s, email) {
        case Some(u) =>
          if !Conflicting(s.users[u]) {
            RefusedLinkMarks(cfg, s, now, identity, u, refresh, claimsOk);
          }
        case None =>
          var created := SetUser(s, newUser, User(email, None, None, Some(now), None, None, 0));
          RefusedSignInMarks(cfg, Linked(created, identity, newUser), now, newUser, refresh, claimsOk);
          var out := OauthFinish(cfg, s, now, identity, email, verified, newUser, refresh, claimsOk);
          assert newUser in out.state.users;
      }
    }
  }

  lemma RefusedLinkMarks(cfg: Config, s: State, now: int, identity: (string, string), user: UserId, refresh: Token,
                         claimsOk: bool)
    requires user in s.users
    requires var linked := Linked(Confirmed(s, user, now), identity, user);
      SignInActivated(cfg, linked, now, user, refresh, claimsOk).reply.Refused?
    ensures var linked := Linked(Confirmed(s, user, now), identity, user);
      var out := SignInActivated(cfg, linked, now, user, refresh, claimsOk);
      && (out.state != s <==>
            identity !in s.identities || s.users[user].confirmedAt.None? || s.users[user].activatedAt.None?)
      && (out.reply.error == AccountDisabled || out.reply.error == EmailNotConfirmed ||
          out.reply.error == ClaimsProviderFailed)
  {
    var confirmed := Confirmed(s, user, now);
    var linked := Linked(confirmed, identity, user);
    RefusedSignInMarks(cfg, linked, now, user, refresh, claimsOk);
    var out := SignInActivated(cfg, linked, now, user, refresh, claimsOk);
    var row := s.users[user];
    assert out.state.users[user] ==
      row.(confirmedAt := Coalesce(row.confirmedAt, now), activatedAt := Coalesce(row.activatedAt, now));
    if row.confirmedAt.Some? && row.activatedAt.Some? {
      assert out.state.users == s.users;
    }
    if identity !in s.identities {
      assert identity in out.state.identities;
    }
  }

  /** A refusal changes the tables exactly when it is one of those that leave a mark. */
  lemma RefusalLeavesMarkIff(cfg: Config, s: State, now: int, op: Op)
    requires Enabled(s, op) && Apply(cfg, s, now, op).reply.Refused?
    ensures Apply(cfg, s, now, op).state != s <==> LeavesMark(s, op, Apply(cfg, s, now, op).reply.error)
  {
    match op {
      case RefreshOp(presented, refresh, ok) => RefusedRefreshMarks(cfg, s, now, presented, refresh, ok);
      case SignupOp(u, e, p, r, c, ok) => RefusedSignupMarks(cfg, s, now, u, e, p, r, c, ok);
      case OauthOp(i, e, v, u, r, ok) => RefusedOauthMarks(cfg, s, now, i, e, v, u, r, ok);
      case _ =>
    }
  }

  // ---------- sole survivors ----------

  ghost predicate SoleSurvivor(s: State, t: State, user: UserId, refresh: Token) {
    && |t.tokens| == |s.tokens| + 1
    && t.tokens[|s.tokens|] == Row(user, refresh, None, false)
    && (forall i :: 0 <= i < |s.tokens| && s.tokens[i].user == user ==> t.tokens[i] == Revoked(s.tokens[i]))
    && (forall i :: 0 <= i < |s.tokens| && s.tokens[i].user != user ==> t.tokens[i] == s.tokens[i])
  }

  /** Every family the user had before is dead. */
  lemma SurvivorEndsFamilies(s: State, t: State, user: UserId, refresh: Token, root: nat)
    requires Inv(s) && Inv(t) && SoleSurvivor(s, t, user, refresh)
    requires root < |s.tokens| && s.tokens[root].user == user
    ensures FamilyDead(t.tokens, Root(s.tokens, root))
  {
    var r := Root(s.tokens, root);
    FamilyHasOneUser(s.tokens, root);
    forall i | 0 <= i < |t.tokens| ensures DeadAt(t.tokens, r, i) {
      FamilyHasOneUser(t.tokens, i);
      if i == |s.tokens| {
        assert Root(t.tokens, i) == i;
      } else {
        OldRowOfSurvivor(s, t, user, refresh, i);
        if Root(t.tokens, i) == r {
          FamilyHasOneUser(s.tokens, i);
        }
      }
    }
  }

  lemma OldRowOfSurvivor(s: State, t: State, user: UserId, refresh: Token, i: nat)
    requires SoleSurvivor(s, t, user, refresh) && i < |s.tokens|
    ensures Root(t.tokens, i) == Root(s.tokens, i)
  {
    assert SameLinks(s.tokens, t.tokens);
    LinksStable(s.tokens, t.tokens, i);
  }

  /** Whoever is live later signed in no earlier than row `from`. */
  ghost predicate OnlyNewSessions(t: Table, user: UserId, from: nat) {
    forall i | 0 <= i < |t| && t[i].user == user && !t[i].revoked :: Root(t, i) >= from
  }

  /** A family that the user had before a step with a sole survivor is dead in every later state. */
  lemma OldFamilyStaysDead(cfg: Config, trace: seq<State>, calls: seq<Call>, j: nat, k: nat, user: UserId,
                           refresh: Token, root: nat)
    requires IsRun(cfg, trace, calls) && Inv(trace[0]) && j < k < |trace|
    requires SoleSurvivor(trace[j], trace[j + 1], user, refresh)
    requires root < |trace[j].tokens| && root < |trace[k].tokens|
    requires trace[k].tokens[root].parent.None? && trace[k].tokens[root].user == user
    ensures FamilyDead(trace[k].tokens, root)
  {
    RootIsOld(cfg, trace, calls, j, k, root);
    RunKeepsInv(cfg, trace, calls, j);
    RunKeepsInv(cfg, trace, calls, j + 1);
    SurvivorEndsFamilies(trace[j], trace[j + 1], user, refresh, root);
    DeadFamilyNeverRevives(cfg, trace, calls, j + 1, k, root);
  }

  lemma LiveRootIsNew(t: Table, from: nat, i: nat)
    requires Chained(t) && i < |t| && !t[i].revoked
    requires Root(t, i) < from ==> FamilyDead(t, Root(t, i))
    ensures Root(t, i) >= from
  {
    assert FamilyDead(t, Root(t, i)) ==> DeadAt(t, Root(t, i), i);
  }

  /** After a step with a sole survivor, every live token of the user, in every later state, starts with it or later. */
  lemma SurvivorHolds(cfg: Config, trace: seq<State>, calls: seq<Call>, j: nat, k: nat, user: UserId, refresh: Token)
    requires IsRun(cfg, trace, calls) && Inv(trace[0]) && j < k < |trace|
    requires SoleSurvivor(trace[j], trace[j + 1], user, refresh)
    ensures OnlyNewSessions(trace[k].tokens, user, |trace[j].tokens|)
  {
    RunKeepsInv(cfg, trace, calls, k);
    var t := trace[k].tokens;
    forall i | 0 <= i < |t| && t[i].user == user && !t[i].revoked ensures Root(t, i) >= |trace[j].tokens| {
      FamilyHasOneUser(t, i);
      if Root(t, i) < |trace[j].tokens| {
        OldFamilyStaysDead(cfg, trace, calls, j, k, user, refresh, Root(t, i));
      }
      LiveRootIsNew(t, |trace[j].tokens|, i);
    }
  }

  lemma TokensGrow(cfg: Config, trace: seq<State>, calls: seq<Call>, k: nat)
    requires IsRun(cfg, trace, calls) && Inv(trace[0]) && k + 1 < |trace|
    ensures SameLinks(trace[k].tokens, trace[k + 1].tokens)
  {
    RunKeepsInv(cfg, trace, calls, k);
    assert CallAt(cfg, trace, calls, k);
    ApplyKept(cfg, trace[k], calls[k].now, calls[k].op);
  }

  lemma {:induction false} TokensOnlyGrow(cfg: Config, trace: seq<State>, calls: seq<Call>, j: nat, k: nat)
    requires IsRun(cfg, trace, calls) && Inv(trace[0]) && j <= k < |trace|
    ensures SameLinks(trace[j].tokens, trace[k].tokens)
  {
    if j < k {
      TokensOnlyGrow(cfg, trace, calls, j, k - 1);
      TokensGrow(cfg, trace, calls, k - 1);
      SameLinksTransitive(trace[j].tokens, trace[k - 1].tokens, trace[k].tokens);
    }
  }

  lemma SameLinksTransitive(t: Table, u: Table, v: Table)
    requires SameLinks(t, u) && SameLinks(u, v)
    ensures SameLinks(t, v)
  {
  }

  /** A family's first row is its own root, and its owner never changes. */
  lemma RootIsOld(cfg: Config, trace: seq<State>, calls: seq<Call>, j: nat, k: nat, root: nat)
    requires IsRun(cfg, trace, calls) && Inv(trace[0]) && j <= k < |trace| && root < |trace[j].tokens|
    requires root < |trace[k].tokens| && trace[k].tokens[root].parent.None?
    ensures Root(trace[j].tokens, root) == root && trace[j].tokens[root].user == trace[k].tokens[root].user
  {
    TokensOnlyGrow(cfg, trace, calls, j, k);
    LinksStable(trace[j].tokens, trace[k].tokens, root);
    assert trace[j].tokens[root].(revoked := false) == trace[k].tokens[root].(revoked := false);
    assert trace[j].tokens[root].(revoked := false).user == trace[k].tokens[root].(revoked := false).user;
  }

  lemma PasswordChangeSurvivor(cfg: Config, s: State, now: int, user: UserId, password: string,
                               current: Option<string>, refresh: Token, claimsOk: bool)
    requires UpdatePassword(cfg, s, now, user, password, current, refresh, claimsOk).reply.Granted?
    ensures SoleSurvivor(s, UpdatePassword(cfg, s, now, user, password, current, refresh, claimsOk).state,
                         user, refresh)
  {
  }

  /**
   A granted password change at call `j` leaves the returned token as the user's one live token and everyone else's
   tokens alone; and in every later state of the run each live token of the user goes back to that one or to a sign-in
   after it.
   */
  lemma PasswordChangeSoleSurvivor(cfg: Config, trace: seq<State>, calls: seq<Call>, j: nat, k: nat)
    requires IsRun(cfg, trace, calls) && Inv(trace[0]) && j < k < |trace|
    requires calls[j].op.UpdatePasswordOp? && Apply(cfg, trace[j], calls[j].now, calls[j].op).reply.Granted?
    ensures SoleSurvivor(trace[j], trace[j + 1], calls[j].op.user, calls[j].op.refresh)
    ensures OnlyNewSessions(trace[k].tokens, calls[j].op.user, |trace[j].tokens|)
  {
    var op := calls[j].op;
    assert CallAt(cfg, trace, calls, j);
    PasswordChangeSurvivor(cfg, trace[j], calls[j].now, op.user, op.password, op.current, op.refresh, op.claimsOk);
    SurvivorHolds(cfg, trace, calls, j, k, op.user, op.refresh);
  }

  /** An emailed token, other than of an address change, that has been used. */
  predicate Spent(s: State, token: Token) {
    token in s.oneTime && !ChangeKind(s.oneTime[token].kind) && s.oneTime[token].usedAt.Some?
  }

  predicate RecoverOf(s: State, token: Token, user: UserId) {
    token in s.oneTime && s.oneTime[token].user == user && s.oneTime[token].kind == Recover
  }

  /** The flows that write no one-time token. */
  predicate LeavesOneTime(op: Op) {
    op.PasswordOp? || op.RefreshOp? || op.LogoutOp? || op.ActivateOp? || op.UpdatePasswordOp? || op.BanOp? ||
    op.UnbanOp? || op.ForceLogoutOp? || op.RevokeRowOp? || op.ProvisionOp?
  }

  lemma OauthLeavesOneTime(cfg: Config, s: State, now: int, identity: (string, string), email: Email, verified: bool,
                           user: UserId, refresh: Token, claimsOk: bool)
    ensures OauthFinish(cfg, s, now, identity, email, verified, user, refresh, claimsOk).state.oneTime == s.oneTime
  {
  }

  lemma ApplyLeavesOneTime(cfg: Config, s: State, now: int, op: Op)
    requires LeavesOneTime(op)
    ensures Apply(cfg, s, now, op).state.oneTime == s.oneTime
  {
  }

  lemma RequestsKeepSpent(cfg: Config, s: State, now: int, op: Op, token: Token)
    requires op.SignupOp? || op.RequestChangeOp? || op.RequestOneTimeOp?
    requires Enabled(s, op) && Spent(s, token)
    ensures Spent(Apply(cfg, s, now, op).state, token)
  {
  }

  lemma VerifiesKeepSpent(cfg: Config, s: State, now: int, op: Op, token: Token)
    requires op.VerifyChangeOp? || op.VerifyOneTimeOp?
    requires Spent(s, token)
    ensures Spent(Apply(cfg, s, now, op).state, token)
  {
  }

  lemma RecoverKeepsSpent(cfg: Config, s: State, now: int, op: Op, token: Token)
    requires op.VerifyRecoverOp? && Spent(s, token)
    ensures Spent(Apply(cfg, s, now, op).state, token)
  {
  }

  /** No call un-uses or deletes a used token. */
  lemma ApplyKeepsSpent(cfg: Config, s: State, now: int, op: Op, token: Token)
    requires Enabled(s, op) && Spent(s, token)
    ensures Spent(Apply(cfg, s, now, op).state, token)
  {
    if LeavesOneTime(op) {
      ApplyLeavesOneTime(cfg, s, now, op);
    } else if op.OauthOp? {
      OauthLeavesOneTime(cfg, s, now, op.identity, op.email, op.verified, op.user, op.refresh, op.claimsOk);
    } else if op.VerifyRecoverOp? {
      RecoverKeepsSpent(cfg, s, now, op, token);
    } else if op.VerifyChangeOp? || op.VerifyOneTimeOp? {
      VerifiesKeepSpent(cfg, s, now, op, token);
    } else {
      RequestsKeepSpent(cfg, s, now, op, token);
    }
  }

  lemma SpentNext(cfg: Config, trace: seq<State>, calls: seq<Call>, k: nat, token: Token)
    requires IsRun(cfg, trace, calls) && k + 1 < |trace| && Spent(trace[k], token)
    ensures Spent(trace[k + 1], token)
  {
    assert CallAt(cfg, trace, calls, k);
    ApplyKeepsSpent(cfg, trace[k], calls[k].now, calls[k].op, token);
  }

  lemma {:induction false} SpentForGood(cfg: Config, trace: seq<State>, calls: seq<Call>, j: nat, k: nat, token: Token)
    requires IsRun(cfg, trace, calls) && j <= k < |trace| && Spent(trace[j], token)
    ensures Spent(trace[k], token)
  {
    if j < k {
      SpentForGood(cfg, trace, calls, j, k - 1, token);
      SpentNext(cfg, trace, calls, k - 1, token);
    }
  }

  /** The recover tokens of the user are all used after a granted recovery. */
  lemma RecoverySurvivor(cfg: Config, s: State, now: int, email: Email, token: Token, password: string,
                         refresh: Token, claimsOk: bool, other: Token)
    requires VerifyRecover(cfg, s, now, email, token, password, refresh, claimsOk).reply.Granted?
    ensures var out := VerifyRecover(cfg, s, now, email, token, password, refresh, claimsOk);
      && token in s.oneTime && s.oneTime[token].user == out.reply.user && s.users[out.reply.user].email == email
      && SoleSurvivor(s, out.state, out.reply.user, refresh)
      && (RecoverOf(s, other, out.reply.user) ==> Spent(out.state, other))
  {
  }

  /**
   A granted recovery does the same, for the owner of the address; and no recover token that the owner had at that
   moment can be consumed in any later state.
   */
  lemma RecoverySoleSurvivor(cfg: Config, trace: seq<State>, calls: seq<Call>, j: nat, k: nat)
    requires IsRun(cfg, trace, calls) && Inv(trace[0]) && j < k < |trace|
    requires calls[j].op.VerifyRecoverOp? && Apply(cfg, trace[j], calls[j].now, calls[j].op).reply.Granted?
    ensures var user := Apply(cfg, trace[j], calls[j].now, calls[j].op).reply.user;
      && user in trace[j].users && trace[j].users[user].email == calls[j].op.email
      && SoleSurvivor(trace[j], trace[j + 1], user, calls[j].op.refresh)
      && OnlyNewSessions(trace[k].tokens, user, |trace[j].tokens|)
      && (forall other, claimed, later ::
            RecoverOf(trace[j], other, user) ==>
            !Consumable(trace[k], other, {Recover}, claimed, later))
  {
    var op := calls[j].op;
    var user := Apply(cfg, trace[j], calls[j].now, op).reply.user;
    assert CallAt(cfg, trace, calls, j);
    RecoverySurvivor(cfg, trace[j], calls[j].now, op.email, op.token, op.password, op.refresh, op.claimsOk, op.token);
    SurvivorHolds(cfg, trace, calls, j, k, user, op.refresh);
    forall other | RecoverOf(trace[j], other, user)
      ensures Spent(trace[k], other)
    {
      RecoverySurvivor(cfg, trace[j], calls[j].now, op.email, op.token, op.password, op.refresh, op.claimsOk, other);
      SpentForGood(cfg, trace, calls, j + 1, k, other);
    }
  }

  // ---------- ban cut-off ----------

  /** Nothing was issued to `user` between the two states. */
  ghost predicate NothingIssued(s: State, t: State, user: UserId) {
    && |s.access| <= |t.access| && t.access[..|s.access|] == s.access
    && (forall i :: |s.access| <= i < |t.access| ==> t.access[i].user != user)
    && |s.tokens| <= |t.tokens|
    && (forall i :: |s.tokens| <= i < |t.tokens| ==> t.tokens[i].user != user)
  }

  lemma RefreshIssues(cfg: Config, s: State, now: int, presented: Token, refresh: Token, claimsOk: bool, user: UserId)
    requires BannedAt(s, user, now)
    ensures NothingIssued(s, RefreshGrant(cfg, s, now, presented, refresh, claimsOk).state, user)
  {
    assert Ineligible(cfg, s, user, now) == Some(AccountDisabled);
  }

  lemma RevocationIssuesNothing(cfg: Config, s: State, now: int, op: Op, user: UserId)
    requires op.LogoutOp? || op.ForceLogoutOp? || op.RevokeRowOp?
    ensures NothingIssued(s, Apply(cfg, s, now, op).state, user)
  {
  }

  lemma BannedGetsNothing(cfg: Config, s: State, now: int, op: Op, user: UserId)
    requires Enabled(s, op) && BannedAt(s, user, now)
    ensures NothingIssued(s, Apply(cfg, s, now, op).state, user)
  {
    if SignInToken(op).Some? {
      ApplySignsIn(cfg, s, now, op);
    } else if LeavesTokens(op) {
      ApplyLeavesTokens(cfg, s, now, op);
    } else if op.RefreshOp? {
      RefreshIssues(cfg, s, now, op.presented, op.refresh, op.claimsOk, user);
    } else {
      RevocationIssuesNothing(cfg, s, now, op, user);
    }
  }

  /** A refresh refused for a ban leaves the presented token unburned. */
  lemma BannedRefreshKeepsToken(cfg: Config, s: State, now: int, id: nat, refresh: Token, claimsOk: bool)
    requires Inv(s) && id < |s.tokens| && !s.tokens[id].revoked && BannedAt(s, s.tokens[id].user, now)
    ensures RefreshGrant(cfg, s, now, s.tokens[id].token, refresh, claimsOk) == Outcome(s, Refused(AccountDisabled))
  {
    LookupFinds(s.tokens, id);
  }

  ghost predicate AccessBounded(cfg: Config, s: State, now: int) {
    forall i :: 0 <= i < |s.access| ==> s.access[i].exp <= now + cfg.accessTtl
  }

  lemma ApplyBoundsAccess(cfg: Config, s: State, now: int, op: Op)
    requires Enabled(s, op) && AccessBounded(cfg, s, now)
    ensures AccessBounded(cfg, Apply(cfg, s, now, op).state, now)
  {
    if SignInToken(op).Some? {
      ApplySignsIn(cfg, s, now, op);
    } else if LeavesTokens(op) {
      ApplyLeavesTokens(cfg, s, now, op);
    } else if op.RefreshOp? {
      RefreshBoundsAccess(cfg, s, now, op.presented, op.refresh, op.claimsOk);
    } else {
      RevocationIssuesNothing(cfg, s, now, op, 0);
      assert Apply(cfg, s, now, op).state.access == s.access;
    }
  }

  lemma RefreshBoundsAccess(cfg: Config, s: State, now: int, presented: Token, refresh: Token, claimsOk: bool)
    requires AccessBounded(cfg, s, now)
    ensures AccessBounded(cfg, RefreshGrant(cfg, s, now, presented, refresh, claimsOk).state, now)
  {
  }

  lemma {:induction false} RunBoundsAccess(cfg: Config, trace: seq<State>, calls: seq<Call>, k: nat)
    requires IsRun(cfg, trace, calls) && trace[0] == EMPTY && 0 < k < |trace|
    ensures AccessBounded(cfg, trace[k], calls[k - 1].now)
  {
    if k > 1 { RunBoundsAccess(cfg, trace, calls, k - 1); }
    assert AccessBounded(cfg, trace[k - 1], calls[k - 1].now);
    assert CallAt(cfg, trace, calls, k - 1);
    ApplyBoundsAccess(cfg, trace[k - 1], calls[k - 1].now, calls[k - 1].op);
  }

  lemma NothingIssuedTransitive(s: State, t: State, u: State, user: UserId)
    requires NothingIssued(s, t, user) && NothingIssued(t, u, user) && Evolves(t.tokens, u.tokens)
    ensures NothingIssued(s, u, user)
  {
    assert u.access[..|s.access|] == t.access[..|s.access|];
    forall i | |s.access| <= i < |u.access| ensures u.access[i].user != user {
      if i < |t.access| { assert u.access[..|t.access|][i] == t.access[i]; }
    }
    forall i | |s.tokens| <= i < |u.tokens| ensures u.tokens[i].user != user {
      if i < |t.tokens| { assert u.tokens[i].(revoked := false) == t.tokens[i].(revoked := false); }
    }
  }

  lemma StepEvolves(cfg: Config, trace: seq<State>, calls: seq<Call>, k: nat)
    requires IsRun(cfg, trace, calls) && trace[0] == EMPTY && k < |calls|
    ensures Evolves(trace[k].tokens, trace[k + 1].tokens)
  {
    EveryReachableStateIsConsistent(cfg, trace, calls, k);
    assert CallAt(cfg, trace, calls, k);
    ApplyKept(cfg, trace[k], calls[k].now, calls[k].op);
  }

  lemma StepIssuesNothing(cfg: Config, trace: seq<State>, calls: seq<Call>, k: nat, user: UserId)
    requires IsRun(cfg, trace, calls) && k < |calls| && BannedAt(trace[k], user, calls[k].now)
    ensures NothingIssued(trace[k], trace[k + 1], user)
  {
    assert CallAt(cfg, trace, calls, k);
    BannedGetsNothing(cfg, trace[k], calls[k].now, calls[k].op, user);
  }

  lemma {:induction false} NothingIssuedThroughout(trace: seq<State>, user: UserId, j: nat, k: nat)
    requires j <= k < |trace|
    requires forall i :: j <= i < k ==>
      NothingIssued(trace[i], trace[i + 1], user) && Evolves(trace[i].tokens, trace[i + 1].tokens)
    ensures NothingIssued(trace[j], trace[k], user)
  {
    if j < k {
      NothingIssuedThroughout(trace, user, j, k - 1);
      NothingIssuedTransitive(trace[j], trace[k - 1], trace[k], user);
    }
  }

  lemma BannedRunIssuesNothing(cfg: Config, trace: seq<State>, calls: seq<Call>, user: UserId, j: nat, k: nat)
    requires IsRun(cfg, trace, calls) && trace[0] == EMPTY && j <= k < |trace|
    requires forall i :: j <= i < k ==> BannedAt(trace[i], user, calls[i].now)
    ensures NothingIssued(trace[j], trace[k], user)
  {
    forall i | j <= i < k
      ensures NothingIssued(trace[i], trace[i + 1], user) && Evolves(trace[i].tokens, trace[i + 1].tokens)
    {
      StepIssuesNothing(cfg, trace, calls, i, user);
      StepEvolves(cfg, trace, calls, i);
    }
    NothingIssuedThroughout(trace, user, j, k);
  }

  /** A call `j`, and the user is banned at every later one. */
  lemma StandingBanCutsOff(cfg: Config, trace: seq<State>, calls: seq<Call>, user: UserId, j: nat, k: nat)
    requires IsRun(cfg, trace, calls) && trace[0] == EMPTY && j < k < |trace|
    requires forall i :: j < i < k ==> BannedAt(trace[i], user, calls[i].now)
    ensures NothingIssued(trace[j + 1], trace[k], user)
    ensures forall i :: 0 <= i < |trace[k].access| && trace[k].access[i].user == user ==>
      trace[k].access[i].exp <= calls[j].now + cfg.accessTtl
  {
    BannedRunIssuesNothing(cfg, trace, calls, user, j + 1, k);
    RunBoundsAccess(cfg, trace, calls, j + 1);
    forall i | 0 <= i < |trace[k].access| && trace[k].access[i].user == user
      ensures trace[k].access[i].exp <= calls[j].now + cfg.accessTtl
    {
      assert i < |trace[j + 1].access|;
      assert trace[k].access[..|trace[j + 1].access|][i] == trace[j + 1].access[i];
    }
  }

  // ---------- dual confirmation ----------

  /** Both sides of the latest request of `user` are consumed, each before it expired. */
  ghost predicate BothConsumed(s: State, user: UserId) {
    && user in s.requests
    && SideOf(s, user, s.requests[user].currentToken, ChangeCurrent)
    && SideOf(s, user, s.requests[user].newToken, ChangeNew)
    && s.oneTime[s.requests[user].currentToken].usedAt.Some? && UsedInTime(s.oneTime[s.requests[user].currentToken])
    && s.oneTime[s.requests[user].newToken].usedAt.Some? && UsedInTime(s.oneTime[s.requests[user].newToken])
  }

  /**
   An account's email changes only by verifying an email change, only to the address of the latest request, and only
   when this call and an earlier one have consumed both of that request's tokens unexpired.
   */
  lemma EmailChangesOnlyWhenBothConfirmed(cfg: Config, s: State, now: int, op: Op, user: UserId)
    requires Inv(s) && Enabled(s, op) && user in s.users
    requires user in Apply(cfg, s, now, op).state.users
    requires Apply(cfg, s, now, op).state.users[user].email != s.users[user].email
    ensures op.VerifyChangeOp? && op.token in s.oneTime && s.oneTime[op.token].usedAt.None?
    ensures var t := Apply(cfg, s, now, op).state;
      && t.requests == s.requests && user in s.requests && t.users[user].email == s.requests[user].newEmail
      && (op.token == s.requests[user].currentToken || op.token == s.requests[user].newToken)
      && BothConsumed(t, user)
  {
    if op.VerifyChangeOp? {
      AppliedChangeConsumedBoth(cfg, s, now, op.token, op.refresh, op.claimsOk, user);
    } else {
      OtherCallsKeepEmails(cfg, s, now, op, user);
    }
  }

  lemma OtherCallsKeepEmails(cfg: Config, s: State, now: int, op: Op, user: UserId)
    requires OneTimeOwned(s) && Enabled(s, op) && user in s.users && !op.VerifyChangeOp?
    ensures user in Apply(cfg, s, now, op).state.users
    ensures Apply(cfg, s, now, op).state.users[user].email == s.users[user].email
  {
    if !op.RequestChangeOp? { ApplyFrames(cfg, s, now, op); }
  }

  /** The one branch of the verify flow that sets an email. */
  lemma AppliedChangeShape(cfg: Config, s: State, now: int, token: Token, refresh: Token, claimsOk: bool, user: UserId)
    requires user in s.users
    requires user in VerifyEmailChange(cfg, s, now, token, refresh, claimsOk).state.users
    requires VerifyEmailChange(cfg, s, now, token, refresh, claimsOk).state.users[user].email != s.users[user].email
    ensures Consumable(s, token, {ChangeCurrent, ChangeNew}, None, now) && s.oneTime[token].user == user
    ensures s.users[user].emailChange.Some? && WithBit(s.users[user].confirmStatus, s.oneTime[token].kind) == 3
    ensures var t := VerifyEmailChange(cfg, s, now, token, refresh, claimsOk).state;
      && t.users[user].email == s.users[user].emailChange.value
      && t.requests == s.requests && t.oneTime == Burn(s, token, now).oneTime
  {
  }

  lemma AppliedChangeConsumedBoth(cfg: Config, s: State, now: int, token: Token, refresh: Token, claimsOk: bool,
                                  user: UserId)
    requires ChangesTracked(s) && user in s.users
    requires user in VerifyEmailChange(cfg, s, now, token, refresh, claimsOk).state.users
    requires VerifyEmailChange(cfg, s, now, token, refresh, claimsOk).state.users[user].email != s.users[user].email
    ensures token in s.oneTime && s.oneTime[token].usedAt.None?
    ensures var t := VerifyEmailChange(cfg, s, now, token, refresh, claimsOk).state;
      && t.requests == s.requests && user in s.requests && t.users[user].email == s.requests[user].newEmail
      && (token == s.requests[user].currentToken || token == s.requests[user].newToken)
      && BothConsumed(t, user)
  {
    AppliedChangeShape(cfg, s, now, token, refresh, claimsOk, user);
    var owner, other := BitSaysOtherSide(s, token, now);
    assert LatestSide(s, token) && LatestSide(s, other);
  }

  /** A consumable email-change token always finds its change pending: that refusal is unreachable. */
  lemma ChangeIsAlwaysPending(cfg: Config, s: State, now: int, token: Token, refresh: Token, claimsOk: bool)
    requires Inv(s) && Consumable(s, token, {ChangeCurrent, ChangeNew}, None, now)
    ensures VerifyEmailChange(cfg, s, now, token, refresh, claimsOk).reply != Refused(InvalidToken)
  {
    var user, other := BitSaysOtherSide(s, token, now);
  }

  /**
   An address claimed by someone else while the change was pending: the clearing update is rolled back with the
   refusal, so the request stays pending with one side consumed, and the token stays usable until it expires.
   */
  lemma TakenAddressLeavesChangePending(cfg: Config, s: State, now: int, token: Token, refresh: Token, claimsOk: bool,
                                        rival: UserId)
    requires Inv(s) && Consumable(s, token, {ChangeCurrent, ChangeNew}, None, now)
    requires s.users[s.oneTime[token].user].confirmStatus != 0
    requires rival in s.users && rival != s.oneTime[token].user
    requires Some(s.users[rival].email) == s.users[s.oneTime[token].user].emailChange
    ensures var out := VerifyEmailChange(cfg, s, now, token, refresh, claimsOk);
      && out == Outcome(s, Refused(EmailTaken))
      && Consumable(out.state, token, {ChangeCurrent, ChangeNew}, None, now)
      && out.state.users[s.oneTime[token].user].emailChange.Some?
  {
    var user, other := BitSaysOtherSide(s, token, now);
  }
}
