/**
 The auth service's tables and flows, one atomic step per call. A flow that raises inside its transaction leaves the
 tables as they were; statements outside a transaction stay. Times are whole seconds of one clock.
 Emails are compared as the citext column compares them; a password stands for its hash.
 */
module AuthModel {
  import opened Common
  import opened TokenFamilies

  type Email = string

  datatype User = User(
    email: Email,
    password: Option<string>,
    activatedAt: Option<int>,
    confirmedAt: Option<int>,
    bannedUntil: Option<int>,
    emailChange: Option<Email>,
    confirmStatus: nat)

  datatype Kind = Recover | MagicLink | Otp | SignupConfirm | ChangeCurrent | ChangeNew

  datatype OneTime = OneTime(user: UserId, kind: Kind, expiresAt: int, usedAt: Option<int>)

  datatype Access = Access(user: UserId, exp: int)

  datatype ChangeRequest = ChangeRequest(newEmail: Email, currentToken: Token, newToken: Token)

  // `access` (every access token handed out) and `requests` (the latest email-change request of each user)
  // are history: no table holds them and no flow reads them.
  datatype State = State(
    users: map<UserId, User>,
    tokens: Table,
    oneTime: map<Token, OneTime>,
    identities: map<(string, string), UserId>,
    access: seq<Access>,
    requests: map<UserId, ChangeRequest>)

  const EMPTY := State(map[], [], map[], map[], [], map[])

  datatype Config = Config(
    requireConfirmation: bool,
    accessTtl: nat,
    recoverTtl: nat,
    magicLinkTtl: nat,
    magicLinkMaxTtl: nat,
    otpTtl: nat,
    signupConfirmTtl: nat,
    emailChangeTtl: nat)

  datatype AuthError =
    | InvalidCredentials | EmailTaken | InvalidRefreshToken | TokenReuseDetected
    | AccountDisabled | AccountInactive | EmailNotConfirmed | ClaimsProviderFailed
    | InvalidToken | UserNotFound | EmailChangeInvalid | InvalidRequest | MissingCredentials
    | NoEmail | ProviderEmailUnverified | EmailConflict | InvalidDuration | NotFound

  datatype Reply = Granted(user: UserId, refresh: Token, access: Access) | Done | Refused(error: AuthError)

  datatype Outcome = Outcome(state: State, reply: Reply)

  // ---------- lookups ----------

  predicate IsTaken(s: State, email: Email) {
    exists u :: u in s.users && s.users[u].email == email
  }

  ghost function ByEmail(s: State, email: Email): (r: Option<UserId>)
    ensures r.Some? ==> r.value in s.users && s.users[r.value].email == email
    ensures r.None? <==> !IsTaken(s, email)
  {
    if u :| u in s.users && s.users[u].email == email then Some(u) else None
  }

  // ---------- issuing ----------

  /** Why the account may not be given a session now, if it may not. */
  function Ineligible(cfg: Config, s: State, user: UserId, now: int): Option<AuthError> {
    if user !in s.users then Some(AccountDisabled)
    else if s.users[user].bannedUntil.Some? && s.users[user].bannedUntil.value > now then Some(AccountDisabled)
    else if s.users[user].activatedAt.None? then Some(AccountInactive)
    else if cfg.requireConfirmation && s.users[user].confirmedAt.None? then Some(EmailNotConfirmed)
    else None
  }

  function NewAccess(cfg: Config, user: UserId, now: int): Access {
    Access(user, now + cfg.accessTtl)
  }

  function IssuePair(cfg: Config, s: State, user: UserId, now: int, refresh: Token, claimsOk: bool): Outcome {
    match Ineligible(cfg, s, user, now)
    case Some(e) => Outcome(s, Refused(e))
    case None =>
      if !claimsOk then Outcome(s, Refused(ClaimsProviderFailed))
      else
        var access := NewAccess(cfg, user, now);
        Outcome(s.(tokens := Issue(s.tokens, user, refresh), access := s.access + [access]),
                Granted(user, refresh, access))
  }

  /** A transaction begun in state `s`: a refusal rolls everything back. */
  function Transaction(s: State, body: Outcome): Outcome {
    if body.reply.Refused? then Outcome(s, body.reply) else body
  }

  // ---------- one-time tokens ----------

  predicate Consumable(s: State, token: Token, kinds: set<Kind>, email: Option<Email>, now: int) {
    && token in s.oneTime
    && s.oneTime[token].kind in kinds
    && s.oneTime[token].usedAt.None?
    && s.oneTime[token].expiresAt > now
    && s.oneTime[token].user in s.users
    && (email.Some? ==> s.users[s.oneTime[token].user].email == email.value)
  }

  function Burn(s: State, token: Token, now: int): State
    requires token in s.oneTime
  {
    s.(oneTime := s.oneTime[token := s.oneTime[token].(usedAt := Some(now))])
  }

  function Store(s: State, token: Token, user: UserId, kind: Kind, expiresAt: int): State {
    s.(oneTime := s.oneTime[token := OneTime(user, kind, expiresAt, None)])
  }

  function SetUser(s: State, user: UserId, row: User): State {
    s.(users := s.users[user := row])
  }

  function Coalesce(t: Option<int>, now: int): Option<int> {
    if t.Some? then t else Some(now)
  }

  function Confirmed(s: State, user: UserId, now: int): State
    requires user in s.users
  {
    SetUser(s, user, s.users[user].(confirmedAt := Coalesce(s.users[user].confirmedAt, now)))
  }

  function ClampMagicLinkTtl(cfg: Config, asked: Option<int>): (ttl: int)
    ensures asked.Some? ==> 60 <= ttl && (cfg.magicLinkMaxTtl >= 60 ==> ttl <= cfg.magicLinkMaxTtl)
    ensures asked.Some? && 60 <= asked.value <= cfg.magicLinkMaxTtl ==> ttl == asked.value
    ensures asked.None? ==> ttl == cfg.magicLinkTtl
  {
    if asked.None? then cfg.magicLinkTtl
    else
      var capped := if asked.value < cfg.magicLinkMaxTtl then asked.value else cfg.magicLinkMaxTtl;
      if capped < 60 then 60 else capped
  }

  // ---------- flows ----------

  function Signup(cfg: Config, s: State, now: int, user: UserId, email: Email, password: string,
                  refresh: Token, confirm: Token, claimsOk: bool): Outcome {
    if IsTaken(s, email) then Outcome(s, Refused(EmailTaken))
    else
      var created := SetUser(s, user, User(email, Some(password), Some(now), None, None, None, 0));
      if cfg.requireConfirmation then
        Outcome(Store(created, confirm, user, SignupConfirm, now + cfg.signupConfirmTtl), Done)
      else IssuePair(cfg, created, user, now, refresh, claimsOk)
  }

  ghost function PasswordGrant(cfg: Config, s: State, now: int, email: Email, password: string,
                               refresh: Token, claimsOk: bool): Outcome {
    match ByEmail(s, email)
    case None => Outcome(s, Refused(InvalidCredentials))
    case Some(u) =>
      if s.users[u].password != Some(password) then Outcome(s, Refused(InvalidCredentials))
      else IssuePair(cfg, s, u, now, refresh, claimsOk)
  }

  function RefreshGrant(cfg: Config, s: State, now: int, presented: Token, refresh: Token, claimsOk: bool): Outcome {
    match Lookup(s.tokens, presented)
    case None => Outcome(s, Refused(InvalidRefreshToken))
    case Some(id) =>
      var user := s.tokens[id].user;
      if user !in s.users then Outcome(s, Refused(InvalidRefreshToken))
      else if s.tokens[id].revoked then
        Outcome(s.(tokens := RevokeBelow(s.tokens, presented)), Refused(TokenReuseDetected))
      else
        match Ineligible(cfg, s, user, now)
        case Some(e) => Outcome(s, Refused(e))
        case None =>
          var rotated := s.(tokens := Rotate(s.tokens, id, refresh));
          if !claimsOk then Outcome(rotated, Refused(ClaimsProviderFailed))
          else
            var access := NewAccess(cfg, user, now);
            Outcome(rotated.(access := s.access + [access]), Granted(user, refresh, access))
  }

  datatype Scope = Local | Global | Others

  function Logout(s: State, presented: Option<Token>, scope: Scope, bearer: Option<UserId>): Outcome {
    var row := if presented.Some? then Lookup(s.tokens, presented.value) else None;
    if scope == Local then
      if presented.None? then Outcome(s, Refused(InvalidRequest))
      else if row.None? then Outcome(s, Done)
      else Outcome(s.(tokens := RevokeFrom(s.tokens, row.value)), Done)
    else if scope == Others && row.None? then
      if presented.None? then Outcome(s, Refused(InvalidRequest)) else Outcome(s, Done)
    else
      var user := if bearer.Some? then bearer else if row.Some? then Some(s.tokens[row.value].user) else None;
      if user.None? then Outcome(s, Refused(MissingCredentials))
      else if scope == Others then Outcome(s.(tokens := RevokeUserExcept(s.tokens, user.value, row.value)), Done)
      else Outcome(s.(tokens := RevokeUser(s.tokens, user.value)), Done)
  }

  function ActivateUser(s: State, now: int, user: UserId): Outcome {
    if user !in s.users then Outcome(s, Refused(UserNotFound))
    else Outcome(SetUser(s, user, s.users[user].(activatedAt := Coalesce(s.users[user].activatedAt, now))), Done)
  }

  /** A stored password must be re-proved; an account without one may set its first. */
  predicate Proves(row: User, current: Option<string>) {
    row.password.Some? ==> current.Some? && current.value != "" && current.value == row.password.value
  }

  function UpdatePassword(cfg: Config, s: State, now: int, user: UserId, password: string, current: Option<string>,
                          refresh: Token, claimsOk: bool): Outcome {
    if user !in s.users then Outcome(s, Refused(UserNotFound))
    else if !Proves(s.users[user], current) then Outcome(s, Refused(InvalidCredentials))
    else
      var changed := SetUser(s, user, s.users[user].(password := Some(password)));
      var signedOut := changed.(tokens := RevokeUser(s.tokens, user));
      Transaction(s, IssuePair(cfg, signedOut, user, now, refresh, claimsOk))
  }

  predicate IsChangeOf(o: OneTime, user: UserId) {
    o.user == user && (o.kind == ChangeCurrent || o.kind == ChangeNew)
  }

  function WithoutChangeTokens(m: map<Token, OneTime>, user: UserId): map<Token, OneTime> {
    map t | t in m && !IsChangeOf(m[t], user) :: m[t]
  }

  function RequestEmailChange(cfg: Config, s: State, now: int, user: UserId, email: Email,
                              currentToken: Token, newToken: Token): Outcome {
    if user !in s.users then Outcome(s, Refused(UserNotFound))
    else if s.users[user].email == email then Outcome(s, Refused(EmailChangeInvalid))
    else if IsTaken(s, email) then Outcome(s, Refused(EmailTaken))
    else
      var pending := SetUser(s, user, s.users[user].(emailChange := Some(email), confirmStatus := 0));
      var cleared := pending.(oneTime := WithoutChangeTokens(s.oneTime, user));
      var first := Store(cleared, currentToken, user, ChangeCurrent, now + cfg.emailChangeTtl);
      var both := Store(first, newToken, user, ChangeNew, now + cfg.emailChangeTtl);
      Outcome(both.(requests := s.requests[user := ChangeRequest(email, currentToken, newToken)]), Done)
  }

  /** The bitwise or of a stored status with one side's bit. */
  function WithBit(status: nat, kind: Kind): nat {
    if kind == ChangeCurrent then (if status % 2 == 1 then status else status + 1)
    else if (status / 2) % 2 == 1 then status else status + 2
  }

  function VerifyEmailChange(cfg: Config, s: State, now: int, token: Token, refresh: Token, claimsOk: bool): Outcome {
    if !Consumable(s, token, {ChangeCurrent, ChangeNew}, None, now) then Outcome(s, Refused(InvalidToken))
    else
      var user := s.oneTime[token].user;
      var burnt := Burn(s, token, now);
      var row := s.users[user];
      if row.emailChange.None? then Outcome(s, Refused(InvalidToken))
      else
        var status := WithBit(row.confirmStatus, s.oneTime[token].kind);
        if status != 3 then Outcome(SetUser(burnt, user, row.(confirmStatus := status)), Done)
        else if exists u :: u in s.users && u != user && s.users[u].email == row.emailChange.value then
          Outcome(s, Refused(EmailTaken))
        else
          var applied := SetUser(burnt, user,
            row.(email := row.emailChange.value, emailChange := None, confirmStatus := 0, confirmedAt := Some(now)));
          Transaction(s, IssuePair(cfg, applied, user, now, refresh, claimsOk))
  }

  function TtlOf(cfg: Config, kind: Kind, asked: Option<int>): int {
    match kind
    case Recover => cfg.recoverTtl
    case MagicLink => ClampMagicLinkTtl(cfg, asked)
    case Otp => cfg.otpTtl
    case SignupConfirm => cfg.signupConfirmTtl
    case _ => cfg.emailChangeTtl
  }

  /** A request for an emailed token: silent when there is nothing to send. */
  ghost function RequestOneTime(cfg: Config, s: State, now: int, kind: Kind, email: Email, token: Token,
                                asked: Option<int>): Outcome {
    match ByEmail(s, email)
    case None => Outcome(s, Done)
    case Some(u) =>
      if kind == SignupConfirm && s.users[u].confirmedAt.Some? then Outcome(s, Done)
      else Outcome(Store(s, token, u, kind, now + TtlOf(cfg, kind, asked)), Done)
  }

  /** The passwordless verifies: magic link, one-time password and signup confirmation. */
  function VerifyOneTime(cfg: Config, s: State, now: int, kind: Kind, token: Token, email: Option<Email>,
                         refresh: Token, claimsOk: bool): Outcome {
    if !Consumable(s, token, {kind}, email, now) then Outcome(s, Refused(InvalidToken))
    else
      var user := s.oneTime[token].user;
      Transaction(s, IssuePair(cfg, Confirmed(Burn(s, token, now), user, now), user, now, refresh, claimsOk))
  }

  function BurnRecovers(m: map<Token, OneTime>, user: UserId, now: int): map<Token, OneTime> {
    map t | t in m ::
      if m[t].user == user && m[t].kind == Recover && m[t].usedAt.None? then m[t].(usedAt := Some(now)) else m[t]
  }

  function VerifyRecover(cfg: Config, s: State, now: int, email: Email, token: Token, password: string,
                         refresh: Token, claimsOk: bool): Outcome {
    if !Consumable(s, token, {Recover}, Some(email), now) then Outcome(s, Refused(InvalidToken))
    else
      var user := s.oneTime[token].user;
      var burnt := Burn(s, token, now);
      var changed := SetUser(burnt, user, s.users[user].(password := Some(password)));
      var signedOut := changed.(tokens := RevokeUser(s.tokens, user),
                                  oneTime := BurnRecovers(burnt.oneTime, user, now));
      Transaction(s, IssuePair(cfg, Confirmed(signedOut, user, now), user, now, refresh, claimsOk))
  }

  /** An account whose address was never proven but which has a password is not linked to. */
  predicate Conflicting(row: User) {
    row.confirmedAt.None? && row.password.Some?
  }

  ghost function OauthFinish(cfg: Config, s: State, now: int, identity: (string, string), email: Email, verified: bool,
                             newUser: UserId, refresh: Token, claimsOk: bool): Outcome {
    if email == "" then Outcome(s, Refused(NoEmail))
    else if identity in s.identities && s.identities[identity] in s.users then
      SignInActivated(cfg, s, now, s.identities[identity], refresh, claimsOk)
    else if !verified then Outcome(s, Refused(ProviderEmailUnverified))
    else
      match ByEmail(s, email)
      case Some(u) =>
        if Conflicting(s.users[u]) then Outcome(s, Refused(EmailConflict))
        else SignInActivated(cfg, Linked(Confirmed(s, u, now), identity, u), now, u, refresh, claimsOk)
      case None =>
        var created := SetUser(s, newUser, User(email, None, None, Some(now), None, None, 0));
        SignInActivated(cfg, Linked(created, identity, newUser), now, newUser, refresh, claimsOk)
  }

  function Linked(s: State, identity: (string, string), user: UserId): State {
    if identity in s.identities then s else s.(identities := s.identities[identity := user])
  }

  /** Activation inline, then issuance, outside any transaction. */
  function SignInActivated(cfg: Config, s: State, now: int, user: UserId, refresh: Token, claimsOk: bool): Outcome
    requires user in s.users
  {
    IssuePair(cfg, ActivateUser(s, now, user).state, user, now, refresh, claimsOk)
  }

  const DEFAULT_BAN_SECONDS := 24 * 60 * 60

  function BanUser(s: State, now: int, user: UserId, seconds: Option<int>): Outcome {
    var duration := if seconds.Some? then seconds.value else DEFAULT_BAN_SECONDS;
    if duration <= 0 then Outcome(s, Refused(InvalidDuration))
    else if user !in s.users then Outcome(s, Refused(NotFound))
    else Outcome(SetUser(s, user, s.users[user].(bannedUntil := Some(now + duration))), Done)
  }

  function UnbanUser(s: State, user: UserId): Outcome {
    if user !in s.users then Outcome(s, Refused(NotFound))
    else Outcome(SetUser(s, user, s.users[user].(bannedUntil := None)), Done)
  }

  function ForceLogout(s: State, user: UserId): Outcome {
    if user !in s.users then Outcome(s, Refused(NotFound))
    else Outcome(s.(tokens := RevokeUser(s.tokens, user)), Done)
  }

  function RevokeRefreshToken(s: State, id: nat): Outcome {
    if id >= |s.tokens| then Outcome(s, Refused(NotFound))
    else Outcome(s.(tokens := RevokeRow(s.tokens, id)), Done)
  }

  /** A consumer pre-creates an account that stays inactive until `ActivateUser`. */
  function Provision(s: State, user: UserId, email: Email): Outcome {
    if IsTaken(s, email) then Outcome(s, Refused(EmailTaken))
    else Outcome(SetUser(s, user, User(email, None, None, None, None, None, 0)), Done)
  }

  // ---------- the state machine ----------

  // Each step carries the random values the flow would draw and whether the claims providers succeed.
  datatype Op =
    | SignupOp(user: UserId, email: Email, password: string, refresh: Token, confirm: Token, claimsOk: bool)
    | PasswordOp(email: Email, password: string, refresh: Token, claimsOk: bool)
    | RefreshOp(presented: Token, refresh: Token, claimsOk: bool)
    | LogoutOp(shown: Option<Token>, scope: Scope, bearer: Option<UserId>)
    | ActivateOp(user: UserId)
    | UpdatePasswordOp(user: UserId, password: string, current: Option<string>, refresh: Token, claimsOk: bool)
    | RequestChangeOp(user: UserId, email: Email, currentToken: Token, newToken: Token)
    | VerifyChangeOp(token: Token, refresh: Token, claimsOk: bool)
    | RequestOneTimeOp(kind: Kind, email: Email, token: Token, asked: Option<int>)
    | VerifyOneTimeOp(kind: Kind, token: Token, claimed: Option<Email>, refresh: Token, claimsOk: bool)
    | VerifyRecoverOp(email: Email, token: Token, password: string, refresh: Token, claimsOk: bool)
    | OauthOp(identity: (string, string), email: Email, verified: bool, user: UserId, refresh: Token, claimsOk: bool)
    | BanOp(user: UserId, seconds: Option<int>)
    | UnbanOp(user: UserId)
    | ForceLogoutOp(user: UserId)
    | RevokeRowOp(id: nat)
    | ProvisionOp(user: UserId, email: Email)

  ghost function Apply(cfg: Config, s: State, now: int, op: Op): Outcome {
    match op
    case SignupOp(u, e, p, r, c, ok) => Signup(cfg, s, now, u, e, p, r, c, ok)
    case PasswordOp(e, p, r, ok) => PasswordGrant(cfg, s, now, e, p, r, ok)
    case RefreshOp(t, r, ok) => RefreshGrant(cfg, s, now, t, r, ok)
    case LogoutOp(t, scope, b) => Logout(s, t, scope, b)
    case ActivateOp(u) => ActivateUser(s, now, u)
    case UpdatePasswordOp(u, p, c, r, ok) => UpdatePassword(cfg, s, now, u, p, c, r, ok)
    case RequestChangeOp(u, e, tc, tn) => RequestEmailChange(cfg, s, now, u, e, tc, tn)
    case VerifyChangeOp(t, r, ok) => VerifyEmailChange(cfg, s, now, t, r, ok)
    case RequestOneTimeOp(k, e, t, asked) => RequestOneTime(cfg, s, now, k, e, t, asked)
    case VerifyOneTimeOp(k, t, e, r, ok) => VerifyOneTime(cfg, s, now, k, t, e, r, ok)
    case VerifyRecoverOp(e, t, p, r, ok) => VerifyRecover(cfg, s, now, e, t, p, r, ok)
    case OauthOp(i, e, v, u, r, ok) => OauthFinish(cfg, s, now, i, e, v, u, r, ok)
    case BanOp(u, d) => BanUser(s, now, u, d)
    case UnbanOp(u) => UnbanUser(s, u)
    case ForceLogoutOp(u) => ForceLogout(s, u)
    case RevokeRowOp(id) => RevokeRefreshToken(s, id)
    case ProvisionOp(u, e) => Provision(s, u, e)
  }

  /** Random values and account ids are new, and only the three emailed kinds pass through the generic flows. */
  ghost predicate Enabled(s: State, op: Op) {
    match op
    case SignupOp(u, _, _, r, c, _) => u !in s.users && Unused(s.tokens, r) && c !in s.oneTime
    case PasswordOp(_, _, r, _) => Unused(s.tokens, r)
    case RefreshOp(_, r, _) => Unused(s.tokens, r)
    case UpdatePasswordOp(_, _, _, r, _) => Unused(s.tokens, r)
    case RequestChangeOp(_, _, tc, tn) => tc !in s.oneTime && tn !in s.oneTime && tc != tn
    case VerifyChangeOp(_, r, _) => Unused(s.tokens, r)
    case RequestOneTimeOp(k, _, t, _) => t !in s.oneTime && k != ChangeCurrent && k != ChangeNew
    case VerifyOneTimeOp(k, _, e, r, _) =>
      Unused(s.tokens, r) && (k == MagicLink || k == Otp || k == SignupConfirm) && (k == Otp <==> e.Some?)
    case VerifyRecoverOp(_, _, _, r, _) => Unused(s.tokens, r)
    case OauthOp(_, _, _, u, r, _) => u !in s.users && Unused(s.tokens, r)
    case ProvisionOp(u, _) => u !in s.users
    case _ => true
  }
}
