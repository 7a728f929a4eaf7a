/**
 The auth flows as the service runs them: statement by statement on the tables, with a rollback where a flow refuses
 inside its transaction. Each method does exactly what its flow in AuthModel says.
 */
module AuthService {
  import opened Common
  import opened TokenFamilies
  import opened AuthModel
  import opened AuthRuns

  class Service {
    var users: map<UserId, User>
    var tokens: Table
    var oneTime: map<Token, OneTime>
    var identities: map<(string, string), UserId>
    ghost var access: seq<Access>
    ghost var requests: map<UserId, ChangeRequest>
    const cfg: Config

    ghost function Contents(): State
      reads this
    {
      State(users, tokens, oneTime, identities, access, requests)
    }

    ghost predicate Valid()
      reads this
    {
      Inv(Contents())
    }

    constructor (cfg: Config)
      ensures Valid() && Contents() == EMPTY && this.cfg == cfg
    {
      users, tokens, oneTime, identities, access, requests := map[], [], map[], map[], [], map[];
      this.cfg := cfg;
    }

    // ---------- statements ----------

    method SelectByEmail(email: Email) returns (r: Option<UserId>)
      requires UniqueEmails(Contents())
      ensures r == ByEmail(Contents(), email)
    {
      var rest := users.Keys;
      while rest != {}
        invariant rest <= users.Keys
        invariant forall u :: u in users.Keys - rest ==> users[u].email != email
      {
        var u :| u in rest;
        if users[u].email == email { return Some(u); }
        rest := rest - {u};
      }
      return None;
    }

    method EmailIsTaken(email: Email, except: Option<UserId>) returns (taken: bool)
      ensures taken <==> exists u :: u in users && Some(u) != except && users[u].email == email
    {
      var rest := users.Keys;
      while rest != {}
        invariant rest <= users.Keys
        invariant forall u :: u in users.Keys - rest ==> Some(u) == except || users[u].email != email
      {
        var u :| u in rest;
        if Some(u) != except && users[u].email == email { return true; }
        rest := rest - {u};
      }
      return false;
    }

    method SelectToken(token: Token) returns (id: Option<nat>)
      ensures id == Lookup(tokens, token)
    {
      var n := |tokens|;
      assert tokens[..n] == tokens;
      while n > 0
        invariant 0 <= n <= |tokens|
        invariant Lookup(tokens[..n], token) == Lookup(tokens, token)
      {
        assert tokens[..n][..n - 1] == tokens[..n - 1];
        if tokens[n - 1].token == token { return Some(n - 1); }
        n := n - 1;
      }
      return None;
    }

    /** Row by row: the user's live rows become revoked, all but the one to keep when there is one. */
    method UpdateRevoked(user: UserId, except: Option<nat>)
      modifies this`tokens
      ensures except.None? ==> tokens == RevokeUser(old(tokens), user)
      ensures except.Some? ==> tokens == RevokeUserExcept(old(tokens), user, except.value)
    {
      for i := 0 to |tokens|
        invariant |tokens| == |old(tokens)|
        invariant forall j :: 0 <= j < |tokens| ==>
          tokens[j] == if j < i && old(tokens)[j].user == user && except != Some(j)
                       then Revoked(old(tokens)[j]) else old(tokens)[j]
      {
        if tokens[i].user == user && !tokens[i].revoked && except != Some(i) {
          tokens := tokens[i := Revoked(tokens[i])];
        }
      }
    }

    method StoreOneTime(token: Token, user: UserId, kind: Kind, expiresAt: int)
      modifies this`oneTime
      ensures oneTime == old(oneTime)[token := OneTime(user, kind, expiresAt, None)]
    {
      oneTime := oneTime[token := OneTime(user, kind, expiresAt, None)];
    }

    /** One conditional update: at most one caller can ever burn a token. */
    method ConsumeOneTime(token: Token, kinds: set<Kind>, email: Option<Email>, now: int) returns (row: Option<OneTime>)
      modifies this`oneTime
      ensures row.Some? <==> Consumable(old(Contents()), token, kinds, email, now)
      ensures row.Some? ==> row.value == old(oneTime)[token] && Contents() == Burn(old(Contents()), token, now)
      ensures row.None? ==> oneTime == old(oneTime)
    {
      if token !in oneTime { return None; }
      var o := oneTime[token];
      if o.kind !in kinds || o.usedAt.Some? || o.expiresAt <= now || o.user !in users { return None; }
      if email.Some? && users[o.user].email != email.value { return None; }
      oneTime := oneTime[token := o.(usedAt := Some(now))];
      return Some(o);
    }

    method MarkEmailConfirmed(user: UserId, now: int)
      requires user in users
      modifies this`users
      ensures Contents() == Confirmed(old(Contents()), user, now)
    {
      if users[user].confirmedAt.None? {
        users := users[user := users[user].(confirmedAt := Some(now))];
      }
      assert users == old(users)[user := old(users)[user].(confirmedAt := Coalesce(old(users)[user].confirmedAt, now))];
    }

    // ---------- issuing ----------

    method AssertCanAuthenticate(user: UserId, now: int) returns (refusal: Option<AuthError>)
      ensures refusal == Ineligible(cfg, Contents(), user, now)
    {
      if user !in users { return Some(AccountDisabled); }
      var row := users[user];
      if row.bannedUntil.Some? && row.bannedUntil.value > now { return Some(AccountDisabled); }
      if row.activatedAt.None? { return Some(AccountInactive); }
      if cfg.requireConfirmation && row.confirmedAt.None? { return Some(EmailNotConfirmed); }
      return None;
    }

    method IssueTokens(user: UserId, now: int, refresh: Token, claimsOk: bool) returns (reply: Reply)
      modifies this`tokens, this`access
      ensures Outcome(Contents(), reply) == IssuePair(cfg, old(Contents()), user, now, refresh, claimsOk)
    {
      var refusal := AssertCanAuthenticate(user, now);
      if refusal.Some? { return Refused(refusal.value); }
      if !claimsOk { return Refused(ClaimsProviderFailed); }
      var token := NewAccess(cfg, user, now);
      tokens := tokens + [Row(user, refresh, None, false)];
      access := access + [token];
      return Granted(user, refresh, token);
    }

    /** The tables as they were when a transaction began. */
    method Rollback(users0: map<UserId, User>, tokens0: Table, oneTime0: map<Token, OneTime>)
      modifies this`users, this`tokens, this`oneTime
      ensures users == users0 && tokens == tokens0 && oneTime == oneTime0
    {
      users, tokens, oneTime := users0, tokens0, oneTime0;
    }

    // ---------- flows ----------

    method SignUp(now: int, user: UserId, email: Email, password: string, refresh: Token, confirm: Token,
                  claimsOk: bool)
      returns (reply: Reply)
      modifies this
      ensures Outcome(Contents(), reply) ==
        Signup(cfg, old(Contents()), now, user, email, password, refresh, confirm, claimsOk)
    {
      var taken := EmailIsTaken(email, None);
      assert taken <==> IsTaken(Contents(), email);
      if taken { return Refused(EmailTaken); }
      users := users[user := User(email, Some(password), Some(now), None, None, None, 0)];
      if cfg.requireConfirmation {
        StoreOneTime(confirm, user, SignupConfirm, now + cfg.signupConfirmTtl);
        return Done;
      }
      reply := IssueTokens(user, now, refresh, claimsOk);
    }

    method SignIn(now: int, email: Email, password: string, refresh: Token, claimsOk: bool) returns (reply: Reply)
      requires UniqueEmails(Contents())
      modifies this
      ensures Outcome(Contents(), reply) == PasswordGrant(cfg, old(Contents()), now, email, password, refresh, claimsOk)
    {
      var row := SelectByEmail(email);
      if row.None? || users[row.value].password.None? { return Refused(InvalidCredentials); }
      if users[row.value].password.value != password { return Refused(InvalidCredentials); }
      reply := IssueTokens(row.value, now, refresh, claimsOk);
    }

    method Refresh(now: int, presented: Token, refresh: Token, claimsOk: bool) returns (reply: Reply)
      requires TokensOwned(Contents())
      modifies this
      ensures Outcome(Contents(), reply) == RefreshGrant(cfg, old(Contents()), now, presented, refresh, claimsOk)
    {
      var id := SelectToken(presented);
      if id.None? { return Refused(InvalidRefreshToken); }
      var row := tokens[id.value];
      if row.user !in users { return Refused(InvalidRefreshToken); }
      if row.revoked {
        tokens := RevokeDescendants(tokens, presented);
        return Refused(TokenReuseDetected);
      }
      var refusal := AssertCanAuthenticate(row.user, now);
      if refusal.Some? { return Refused(refusal.value); }
      var revoked := MarkRevoked(tokens, {id.value});
      assert revoked == RevokeRow(tokens, id.value);
      tokens := revoked + [Row(row.user, refresh, Some(presented), false)];
      if !claimsOk { return Refused(ClaimsProviderFailed); }
      var token := NewAccess(cfg, row.user, now);
      access := access + [token];
      return Granted(row.user, refresh, token);
    }

    method SignOut(presented: Option<Token>, scope: Scope, bearer: Option<UserId>) returns (reply: Reply)
      requires TokensOwned(Contents())
      modifies this
      ensures Outcome(Contents(), reply) == Logout(old(Contents()), presented, scope, bearer)
    {
      var row: Option<nat> := None;
      if presented.Some? { row := SelectToken(presented.value); }
      if scope == Local {
        if presented.None? { return Refused(InvalidRequest); }
        if row.None? { return Done; }
        tokens := RevokeChain(tokens, row.value);
        return Done;
      }
      if scope == Others && row.None? {
        if presented.None? { return Refused(InvalidRequest); }
        return Done;
      }
      var user := bearer;
      if user.None? && row.Some? { user := Some(tokens[row.value].user); }
      if user.None? { return Refused(MissingCredentials); }
      if scope == Others { UpdateRevoked(user.value, row); } else { UpdateRevoked(user.value, None); }
      return Done;
    }

    method Activate(now: int, user: UserId) returns (reply: Reply)
      modifies this
      ensures Outcome(Contents(), reply) == ActivateUser(old(Contents()), now, user)
    {
      if user !in users { return Refused(UserNotFound); }
      if users[user].activatedAt.None? { users := users[user := users[user].(activatedAt := Some(now))]; }
      assert users == old(users)[user := old(users)[user].(activatedAt := Coalesce(old(users)[user].activatedAt, now))];
      return Done;
    }

    method ChangePassword(now: int, user: UserId, password: string, current: Option<string>, refresh: Token,
                          claimsOk: bool)
      returns (reply: Reply)
      modifies this
      ensures Outcome(Contents(), reply) ==
              UpdatePassword(cfg, old(Contents()), now, user, password, current, refresh, claimsOk)
    {
      if user !in users { return Refused(UserNotFound); }
      if users[user].password.Some? {
        if current.None? || current.value == "" || current.value != users[user].password.value {
          return Refused(InvalidCredentials);
        }
      }
      var users0, tokens0, oneTime0 := users, tokens, oneTime;
      users := users[user := users[user].(password := Some(password))];
      UpdateRevoked(user, None);
      reply := IssueTokens(user, now, refresh, claimsOk);
      if reply.Refused? { Rollback(users0, tokens0, oneTime0); }
    }

    method RequestChange(now: int, user: UserId, email: Email, currentToken: Token, newToken: Token)
      returns (reply: Reply)
      modifies this
      ensures Outcome(Contents(), reply) ==
              RequestEmailChange(cfg, old(Contents()), now, user, email, currentToken, newToken)
    {
      if user !in users { return Refused(UserNotFound); }
      if users[user].email == email { return Refused(EmailChangeInvalid); }
      var taken := EmailIsTaken(email, None);
      assert taken <==> IsTaken(Contents(), email);
      if taken { return Refused(EmailTaken); }
      users := users[user := users[user].(emailChange := Some(email), confirmStatus := 0)];
      oneTime := WithoutChangeTokens(oneTime, user);
      StoreOneTime(currentToken, user, ChangeCurrent, now + cfg.emailChangeTtl);
      StoreOneTime(newToken, user, ChangeNew, now + cfg.emailChangeTtl);
      requests := requests[user := ChangeRequest(email, currentToken, newToken)];
      return Done;
    }

    method VerifyChange(now: int, token: Token, refresh: Token, claimsOk: bool) returns (reply: Reply)
      modifies this
      ensures Outcome(Contents(), reply) == VerifyEmailChange(cfg, old(Contents()), now, token, refresh, claimsOk)
    {
      var users0, tokens0, oneTime0 := users, tokens, oneTime;
      var row := ConsumeOneTime(token, {ChangeCurrent, ChangeNew}, None, now);
      if row.None? { return Refused(InvalidToken); }
      var user := row.value.user;
      var urow := users[user];
      if urow.emailChange.None? {
        Rollback(users0, tokens0, oneTime0);
        return Refused(InvalidToken);
      }
      var status := WithBit(urow.confirmStatus, row.value.kind);
      if status != 3 {
        users := users[user := urow.(confirmStatus := status)];
        return Done;
      }
      var taken := EmailIsTaken(urow.emailChange.value, Some(user));
      if taken {
        users := users[user := urow.(emailChange := None, confirmStatus := 0)];
        Rollback(users0, tokens0, oneTime0);
        return Refused(EmailTaken);
      }
      users := users[user :=
        urow.(email := urow.emailChange.value, emailChange := None, confirmStatus := 0, confirmedAt := Some(now))];
      reply := IssueTokens(user, now, refresh, claimsOk);
      if reply.Refused? { Rollback(users0, tokens0, oneTime0); }
    }

    method RequestToken(now: int, kind: Kind, email: Email, token: Token, asked: Option<int>) returns (reply: Reply)
      requires UniqueEmails(Contents())
      modifies this
      ensures Outcome(Contents(), reply) == RequestOneTime(cfg, old(Contents()), now, kind, email, token, asked)
    {
      var row := SelectByEmail(email);
      if row.None? { return Done; }
      if kind == SignupConfirm && users[row.value].confirmedAt.Some? { return Done; }
      StoreOneTime(token, row.value, kind, now + TtlOf(cfg, kind, asked));
      return Done;
    }

    method VerifyToken(now: int, kind: Kind, token: Token, email: Option<Email>, refresh: Token, claimsOk: bool)
      returns (reply: Reply)
      modifies this
      ensures Outcome(Contents(), reply) ==
        VerifyOneTime(cfg, old(Contents()), now, kind, token, email, refresh, claimsOk)
    {
      var users0, tokens0, oneTime0 := users, tokens, oneTime;
      var row := ConsumeOneTime(token, {kind}, email, now);
      if row.None? { return Refused(InvalidToken); }
      MarkEmailConfirmed(row.value.user, now);
      reply := IssueTokens(row.value.user, now, refresh, claimsOk);
      if reply.Refused? { Rollback(users0, tokens0, oneTime0); }
    }

    method Recover(now: int, email: Email, token: Token, password: string, refresh: Token, claimsOk: bool)
      returns (reply: Reply)
      modifies this
      ensures Outcome(Contents(), reply) ==
              VerifyRecover(cfg, old(Contents()), now, email, token, password, refresh, claimsOk)
    {
      var users0, tokens0, oneTime0 := users, tokens, oneTime;
      var row := ConsumeOneTime(token, {Kind.Recover}, Some(email), now);
      if row.None? { return Refused(InvalidToken); }
      var user := row.value.user;
      users := users[user := users[user].(password := Some(password))];
      UpdateRevoked(user, None);
      oneTime := BurnRecovers(oneTime, user, now);
      MarkEmailConfirmed(user, now);
      reply := IssueTokens(user, now, refresh, claimsOk);
      if reply.Refused? { Rollback(users0, tokens0, oneTime0); }
    }

    method FinishOauth(now: int, identity: (string, string), email: Email, verified: bool, newUser: UserId,
                       refresh: Token, claimsOk: bool)
      returns (reply: Reply)
      requires UniqueEmails(Contents())
      modifies this
      ensures Outcome(Contents(), reply) ==
              OauthFinish(cfg, old(Contents()), now, identity, email, verified, newUser, refresh, claimsOk)
    {
      if email == "" { return Refused(NoEmail); }
      var user;
      if identity in identities && identities[identity] in users {
        user := identities[identity];
      } else {
        if !verified { return Refused(ProviderEmailUnverified); }
        var row := SelectByEmail(email);
        if row.Some? && users[row.value].confirmedAt.None? && users[row.value].password.Some? {
          return Refused(EmailConflict);
        }
        if row.Some? {
          user := row.value;
          MarkEmailConfirmed(user, now);
        } else {
          user := newUser;
          users := users[user := User(email, None, None, Some(now), None, None, 0)];
        }
        if identity !in identities { identities := identities[identity := user]; }
      }
      var _ := Activate(now, user);
      reply := IssueTokens(user, now, refresh, claimsOk);
    }

    // ---------- administration ----------

    method Ban(now: int, user: UserId, seconds: Option<int>) returns (reply: Reply)
      modifies this
      ensures Outcome(Contents(), reply) == BanUser(old(Contents()), now, user, seconds)
    {
      var duration := if seconds.Some? then seconds.value else DEFAULT_BAN_SECONDS;
      if duration <= 0 { return Refused(InvalidDuration); }
      if user !in users { return Refused(NotFound); }
      users := users[user := users[user].(bannedUntil := Some(now + duration))];
      return Done;
    }

    method Unban(user: UserId) returns (reply: Reply)
      modifies this
      ensures Outcome(Contents(), reply) == UnbanUser(old(Contents()), user)
    {
      if user !in users { return Refused(NotFound); }
      users := users[user := users[user].(bannedUntil := None)];
      return Done;
    }

    method ForceSignOut(user: UserId) returns (reply: Reply)
      modifies this
      ensures Outcome(Contents(), reply) == ForceLogout(old(Contents()), user)
    {
      if user !in users { return Refused(NotFound); }
      UpdateRevoked(user, None);
      return Done;
    }

    method RevokeOne(id: nat) returns (reply: Reply)
      modifies this
      ensures Outcome(Contents(), reply) == RevokeRefreshToken(old(Contents()), id)
    {
      if id >= |tokens| { return Refused(NotFound); }
      tokens := MarkRevoked(tokens, {id});
      assert tokens == RevokeRow(old(tokens), id);
      return Done;
    }

    method PreCreate(user: UserId, email: Email) returns (reply: Reply)
      modifies this
      ensures Outcome(Contents(), reply) == Provision(old(Contents()), user, email)
    {
      var taken := EmailIsTaken(email, None);
      assert taken <==> IsTaken(Contents(), email);
      if taken { return Refused(EmailTaken); }
      users := users[user := User(email, None, None, None, None, None, 0)];
      return Done;
    }

    // ---------- one call ----------

    /** Any call on valid tables: the model's step, and valid tables again. */
    method Serve(now: int, op: Op) returns (reply: Reply)
      requires Valid() && Enabled(Contents(), op)
      modifies this
      ensures Valid()
      ensures Outcome(Contents(), reply) == Apply(cfg, old(Contents()), now, op)
    {
      ApplyKept(cfg, Contents(), now, op);
      match op
      case SignupOp(u, e, p, r, c, ok) => reply := SignUp(now, u, e, p, r, c, ok);
      case PasswordOp(e, p, r, ok) => reply := SignIn(now, e, p, r, ok);
      case RefreshOp(t, r, ok) => reply := Refresh(now, t, r, ok);
      case LogoutOp(t, scope, b) => reply := SignOut(t, scope, b);
      case ActivateOp(u) => reply := Activate(now, u);
      case UpdatePasswordOp(u, p, c, r, ok) => reply := ChangePassword(now, u, p, c, r, ok);
      case RequestChangeOp(u, e, tc, tn) => reply := RequestChange(now, u, e, tc, tn);
      case VerifyChangeOp(t, r, ok) => reply := VerifyChange(now, t, r, ok);
      case RequestOneTimeOp(k, e, t, asked) => reply := RequestToken(now, k, e, t, asked);
      case VerifyOneTimeOp(k, t, e, r, ok) => reply := VerifyToken(now, k, t, e, r, ok);
      case VerifyRecoverOp(e, t, p, r, ok) => reply := Recover(now, e, t, p, r, ok);
      case OauthOp(i, e, v, u, r, ok) => reply := FinishOauth(now, i, e, v, u, r, ok);
      case BanOp(u, d) => reply := Ban(now, u, d);
      case UnbanOp(u) => reply := Unban(u);
      case ForceLogoutOp(u) => reply := ForceSignOut(u);
      case RevokeRowOp(id) => reply := RevokeOne(id);
      case ProvisionOp(u, e) => reply := PreCreate(u, e);
    }
  }
}
