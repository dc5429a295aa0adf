/** The auth service's tables, and each of its operations as one transition of them. */
module Accounts {
  import opened Options

  /** bcrypt as an injective function. */
  datatype Hash = Hashed(password: string)

  datatype User = User(email: string, hash: Hash, verified: bool, role: string, blockedAt: Option<int>)

  /** A signed refresh token: its subject, the role at issue, and the issuing instant, which its id and expiry carry. */
  datatype Token = Token(subject: int, role: string, issuedAt: int)

  datatype RefreshRow = RefreshRow(userId: int, expiresAt: int, revokedAt: Option<int>)

  /** A password reset or email verification token. */
  datatype OneTime = OneTime(userId: int, expiresAt: int, usedAt: Option<int>)

  datatype State = State(users: map<int, User>, nextId: int, refresh: map<Token, RefreshRow>,
                         resets: map<string, OneTime>, verifications: map<string, OneTime>)

  const SECOND := 1_000_000_000
  const REFRESH_TTL := 7 * 24 * 3600 * SECOND
  const RESET_TTL := 3600 * SECOND
  const VERIFY_TTL := 24 * 3600 * SECOND

  /** What a client sends where a token is expected: something that does not parse, a signed access token,
      or a signed refresh token. */
  datatype Presented = Unsigned | AccessToken(token: Token) | RefreshToken(token: Token)

  /** Whether the k-th repository call of an operation succeeds. */
  type Calls = nat -> bool

  datatype Op =
    | Register(email: string, password: string, hashOk: bool, admin: bool)
    | Login(email: string, password: string)
    | Refresh(presented: Presented)
    | RequestPasswordReset(email: string, generated: Option<string>)
    | ConfirmPasswordReset(text: string, newPassword: string, hashOk: bool)
    | RequestEmailVerification(email: string, generated: Option<string>)
    | VerifyEmail(text: string)
    | UpdateUserRole(userId: int, role: string)
    | SetUserBlocked(userId: int, blocked: bool)

  // ----- lookups -----

  ghost predicate HasEmail(s: State, email: string, u: int) {
    u in s.users && s.users[u].email == email
  }

  /** The unique index on email. */
  ghost predicate UniqueEmails(s: State) {
    forall u, v | u in s.users && v in s.users && s.users[u].email == s.users[v].email :: u == v
  }

  function ByEmail(s: State, email: string): (r: Option<int>)
    requires UniqueEmails(s)
    ensures r.Some? ==> HasEmail(s, email, r.value)
    ensures r.None? ==> forall u | u in s.users :: s.users[u].email != email
  {
    if u :| u in s.users && s.users[u].email == email then Some(u) else None
  }

  predicate Blocked(s: State, u: int) {
    u in s.users && s.users[u].blockedAt.Some?
  }

  /** The expiry inside the signed token, in whole seconds. */
  function ClaimedExpiry(t: Token): int {
    (t.issuedAt + REFRESH_TTL) / SECOND * SECOND
  }

  /** A stored refresh token that Refresh accepts. */
  predicate Exchangeable(s: State, presented: Presented, now: int) {
    && presented.RefreshToken? && now < ClaimedExpiry(presented.token)
    && presented.token in s.refresh && s.refresh[presented.token].revokedAt.None?
    && now <= s.refresh[presented.token].expiresAt
  }

  predicate Usable(table: map<string, OneTime>, text: string, now: int) {
    text != "" && text in table && table[text].usedAt.None? && now <= table[text].expiresAt
  }

  // ----- statements -----

  function Revoked(row: RefreshRow, now: int): RefreshRow {
    if row.revokedAt.None? then row.(revokedAt := Some(now)) else row
  }

  function Revoke(s: State, t: Token, now: int): State {
    if t in s.refresh then s.(refresh := s.refresh[t := Revoked(s.refresh[t], now)]) else s
  }

  function RevokeAll(s: State, u: int, now: int): State {
    s.(refresh := map t | t in s.refresh ::
       if s.refresh[t].userId == u then Revoked(s.refresh[t], now) else s.refresh[t])
  }

  function Used(table: map<string, OneTime>, text: string, now: int): map<string, OneTime> {
    if text in table && table[text].usedAt.None? then table[text := table[text].(usedAt := Some(now))] else table
  }

  function SetUser(s: State, u: int, user: User): State {
    s.(users := s.users[u := user])
  }

  // ----- operations -----

  /** issueTokenPair for an existing, unblocked user, starting at the k-th call. A token already stored is a unique
      violation. */
  predicate Issues(s: State, u: int, now: int, calls: Calls, k: nat) {
    u in s.users && !Blocked(s, u) && calls(k) && calls(k + 1) && Token(u, s.users[u].role, now) !in s.refresh
  }

  function Issue(s: State, u: int, now: int, calls: Calls, k: nat): State {
    if Issues(s, u, now, calls, k) then
      s.(refresh := s.refresh[Token(u, s.users[u].role, now) := RefreshRow(u, now + REFRESH_TTL, None)])
    else s
  }

  /** The state once the user row is in, or as before when the statement fails; an id is drawn either way. */
  function Created(s: State, op: Op, calls: Calls): State
    requires op.Register? && UniqueEmails(s)
  {
    var drawn := s.(nextId := s.nextId + 1);
    if !calls(0) then s
    else if ByEmail(s, op.email).Some? then drawn
    else SetUser(drawn, s.nextId, User(op.email, Hashed(op.password), false,
                                       if op.admin then "admin" else "user", None))
  }

  predicate Registers(s: State, op: Op, calls: Calls)
    requires UniqueEmails(s)
  {
    op.Register? && op.email != "" && op.password != "" && op.hashOk && calls(0) && ByEmail(s, op.email).None?
  }

  predicate Authenticates(s: State, op: Op, calls: Calls)
    requires UniqueEmails(s)
  {
    && op.Login? && op.email != "" && op.password != "" && calls(0)
    && ByEmail(s, op.email).Some? && s.users[ByEmail(s, op.email).value].hash == Hashed(op.password)
  }

  /** The user an operation would issue a token pair to, the state at that point, and the next call. */
  datatype Grant = Grant(user: int, state: State, next: nat)

  function Grants(s: State, op: Op, now: int, calls: Calls): Option<Grant>
    requires UniqueEmails(s)
  {
    match op
    case Register(_, _, _, _) => if Registers(s, op, calls) then Some(Grant(s.nextId, Created(s, op, calls), 1))
      else None
    case Login(email, _) => if Authenticates(s, op, calls) then Some(Grant(ByEmail(s, email).value, s, 1)) else None
    case Refresh(presented) =>
      if calls(0) && Exchangeable(s, presented, now) && calls(1) && calls(2)
      then Some(Grant(presented.token.subject, Revoke(s, presented.token, now), 3)) else None
    case _ => None
  }

  /** The refresh token an operation hands out. */
  function Issued(s: State, op: Op, now: int, calls: Calls): Option<Token>
    requires UniqueEmails(s)
  {
    match Grants(s, op, now, calls)
    case None => None
    case Some(g) => if Issues(g.state, g.user, now, calls, g.next)
      then Some(Token(g.user, g.state.users[g.user].role, now)) else None
  }

  /** Saves a one-time token for the owner of an email address; a text already stored is a unique violation. */
  function SavedFor(table: map<string, OneTime>, s: State, email: string, generated: Option<string>, expiresAt: int,
                    calls: Calls): map<string, OneTime>
    requires UniqueEmails(s)
  {
    if email != "" && calls(0) && ByEmail(s, email).Some? && generated.Some? && calls(1) && generated.value !in table
    then table[generated.value := OneTime(ByEmail(s, email).value, expiresAt, None)]
    else table
  }

  /** The new password reaches the user's row. */
  predicate SetsPassword(s: State, op: Op, now: int, calls: Calls) {
    op.ConfirmPasswordReset? && op.newPassword != "" && calls(0) && Usable(s.resets, op.text, now) && op.hashOk
      && calls(1)
  }

  predicate SetsVerified(s: State, op: Op, now: int, calls: Calls) {
    op.VerifyEmail? && calls(0) && Usable(s.verifications, op.text, now) && calls(1)
  }

  predicate SetsBlocked(s: State, op: Op, calls: Calls) {
    op.SetUserBlocked? && op.userId > 0 && op.userId in s.users && calls(0)
  }

  function Exec(s: State, op: Op, now: int, calls: Calls): State
    requires UniqueEmails(s)
  {
    match op
    case Register(email, password, hashOk, _) =>
      if email == "" || password == "" || !hashOk then s
      else if Registers(s, op, calls) then Issue(Created(s, op, calls), s.nextId, now, calls, 1)
      else Created(s, op, calls)
    case Login(email, _) => if Authenticates(s, op, calls) then Issue(s, ByEmail(s, email).value, now, calls, 1) else s
    case Refresh(presented) =>
      if !(calls(0) && Exchangeable(s, presented, now) && calls(1)) then s
      else
        var revoked := Revoke(s, presented.token, now);
        if calls(2) then Issue(revoked, presented.token.subject, now, calls, 3) else revoked
    case RequestPasswordReset(email, generated) =>
      s.(resets := SavedFor(s.resets, s, email, generated, now + RESET_TTL, calls))
    case ConfirmPasswordReset(text, newPassword, _) =>
      if !SetsPassword(s, op, now, calls) then s
      else
        var u := s.resets[text].userId;
        var t := if u in s.users then SetUser(s, u, s.users[u].(hash := Hashed(newPassword))) else s;
        if calls(2) then t.(resets := Used(s.resets, text, now)) else t
    case RequestEmailVerification(email, generated) =>
      if email != "" && calls(0) && ByEmail(s, email).Some? && s.users[ByEmail(s, email).value].verified then s
      else s.(verifications := SavedFor(s.verifications, s, email, generated, now + VERIFY_TTL, calls))
    case VerifyEmail(text) =>
      if !SetsVerified(s, op, now, calls) then s
      else
        var u := s.verifications[text].userId;
        var t := if u in s.users then SetUser(s, u, s.users[u].(verified := true)) else s;
        if calls(2) then t.(verifications := Used(s.verifications, text, now)) else t
    case UpdateUserRole(u, role) =>
      if u > 0 && (role == "user" || role == "admin") && calls(0) && u in s.users
        then SetUser(s, u, s.users[u].(role := role)) else s
    case SetUserBlocked(u, blocked) =>
      if !SetsBlocked(s, op, calls) then s
      else
        var t := SetUser(s, u, s.users[u].(blockedAt := if blocked then Some(now) else None));
        if blocked && calls(1) then RevokeAll(t, u, now) else t
  }
}
