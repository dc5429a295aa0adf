/** What each operation of the auth service does to the five tables and what it keeps, whatever calls fail. */
module AccountFacts {
  import opened Options
  import opened Accounts

  // ----- shape of the tables -----

  ghost predicate Shaped(s: State) {
    && UniqueEmails(s)
    && (forall u | u in s.users :: u < s.nextId)
    && (forall t | t in s.refresh :: s.refresh[t].userId in s.users)
    && (forall x | x in s.resets :: s.resets[x].userId in s.users)
    && (forall x | x in s.verifications :: s.verifications[x].userId in s.users)
  }

  // ----- the refresh table after an operation -----

  /** Refresh gets as far as revoking the presented token. */
  predicate GivesUp(s: State, op: Op, now: int, calls: Calls) {
    op.Refresh? && calls(0) && Exchangeable(s, op.presented, now) && calls(1)
  }

  predicate RevokesAllOf(s: State, op: Op, calls: Calls, u: int) {
    SetsBlocked(s, op, calls) && op.blocked && calls(1) && op.userId == u
  }

  /** The table once the operation's revocations are done. */
  function AfterRevoking(s: State, op: Op, now: int, calls: Calls): map<Token, RefreshRow> {
    if GivesUp(s, op, now, calls) then Revoke(s, op.presented.token, now).refresh
    else if op.SetUserBlocked? && RevokesAllOf(s, op, calls, op.userId) then RevokeAll(s, op.userId, now).refresh
    else s.refresh
  }

  /** All that any operation does to the refresh table: its revocations, then at most one new row. */
  lemma RefreshTableAfter(s: State, op: Op, now: int, calls: Calls)
    requires UniqueEmails(s)
    ensures var (base, issued) := (AfterRevoking(s, op, now, calls), Issued(s, op, now, calls));
      && Exec(s, op, now, calls).refresh
         == (if issued.Some? then base[issued.value := RefreshRow(issued.value.subject, now + REFRESH_TTL, None)]
             else base)
      && (issued.Some? ==> issued.value !in s.refresh && issued.value.subject in Exec(s, op, now, calls).users)
  {
    hide ClaimedExpiry, Exchangeable, ByEmail, Revoked;
    match op
    case Register(_, _, _, _) =>
    case Login(_, _) =>
    case Refresh(_) =>
    case RequestPasswordReset(_, _) =>
    case ConfirmPasswordReset(_, _, _) =>
    case RequestEmailVerification(_, _) =>
    case VerifyEmail(_) =>
    case UpdateUserRole(_, _) =>
    case SetUserBlocked(_, _) =>
      if SetsBlocked(s, op, calls) {
        RevokeAllTable(s, op.userId, s.users[op.userId := s.users[op.userId].(blockedAt := Some(now))], now);
      }
  }

  lemma RevokeAllTable(s: State, u: int, users: map<int, User>, now: int)
    ensures RevokeAll(s.(users := users), u, now).refresh == RevokeAll(s, u, now).refresh
  {
  }

  predicate SetsRole(s: State, op: Op, calls: Calls) {
    op.UpdateUserRole? && op.userId > 0 && (op.role == "user" || op.role == "admin") && calls(0) && op.userId in s.users
  }

  /** The one user row an operation writes, if any. */
  function Target(s: State, op: Op, now: int, calls: Calls): Option<int>
    requires UniqueEmails(s)
  {
    if Registers(s, op, calls) then Some(s.nextId)
    else if SetsPassword(s, op, now, calls) then Some(s.resets[op.text].userId)
    else if SetsVerified(s, op, now, calls) then Some(s.verifications[op.text].userId)
    else if SetsRole(s, op, calls) || SetsBlocked(s, op, calls) then Some(op.userId)
    else None
  }

  function Written(s: State, op: Op, now: int, user: User): User {
    match op
    case ConfirmPasswordReset(_, newPassword, _) => user.(hash := Hashed(newPassword))
    case VerifyEmail(_) => user.(verified := true)
    case UpdateUserRole(_, role) => user.(role := role)
    case SetUserBlocked(_, blocked) => user.(blockedAt := if blocked then Some(now) else None)
    case _ => user
  }

  lemma IssueAndRevokeLeaveUsers()
    ensures forall s: State, u, now, calls, k ::
      Issue(s, u, now, calls, k).users == s.users && Issue(s, u, now, calls, k).nextId == s.nextId
    ensures forall s, t, now :: Revoke(s, t, now).users == s.users && Revoke(s, t, now).nextId == s.nextId
    ensures forall s, u, now :: RevokeAll(s, u, now).users == s.users && RevokeAll(s, u, now).nextId == s.nextId
  {
  }

  /** All that any operation does to the user table: one new row, or one column of one row. */
  lemma UserTableAfter(s: State, op: Op, now: int, calls: Calls)
    requires UniqueEmails(s)
    ensures var (target, s') := (Target(s, op, now, calls), Exec(s, op, now, calls));
      && (target.None? ==> s'.users == s.users)
      && (op.Register? && target.Some? ==>
            ByEmail(s, op.email).None? && s'.nextId == s.nextId + 1
            && s'.users == s.users[s.nextId := User(op.email, Hashed(op.password), false,
                                                    if op.admin then "admin" else "user", None)])
      && (!op.Register? && target.Some? ==>
            s'.users == (if target.value in s.users
                         then s.users[target.value := Written(s, op, now, s.users[target.value])] else s.users))
      && s.nextId <= s'.nextId
  {
    IssueAndRevokeLeaveUsers();
    hide ClaimedExpiry, ByEmail, Usable, Issue, Revoke, RevokeAll, UniqueEmails, SavedFor, Used;
    match op
    case Register(_, _, _, _) =>
    case Login(_, _) =>
    case Refresh(_) =>
    case RequestPasswordReset(_, _) =>
    case ConfirmPasswordReset(_, _, _) =>
    case RequestEmailVerification(_, _) =>
    case VerifyEmail(_) =>
    case UpdateUserRole(_, _) =>
    case SetUserBlocked(_, _) =>
  }

  /** Users are only added and keep their address. */
  lemma UsersAfter(s: State, op: Op, now: int, calls: Calls)
    requires UniqueEmails(s) && forall u | u in s.users :: u < s.nextId
    ensures var s' := Exec(s, op, now, calls);
      && UniqueEmails(s') && (forall u | u in s'.users :: u < s'.nextId)
      && forall u | u in s.users :: u in s'.users && s'.users[u].email == s.users[u].email
  {
    UserTableAfter(s, op, now, calls);
    hide Exec, Target;
  }

  function ResetsAfter(s: State, op: Op, now: int, calls: Calls): map<string, OneTime>
    requires UniqueEmails(s)
  {
    match op
    case RequestPasswordReset(email, generated) => SavedFor(s.resets, s, email, generated, now + RESET_TTL, calls)
    case ConfirmPasswordReset(text, _, _) => if SetsPassword(s, op, now, calls) && calls(2)
      then Used(s.resets, text, now) else s.resets
    case _ => s.resets
  }

  function VerificationsAfter(s: State, op: Op, now: int, calls: Calls): map<string, OneTime>
    requires UniqueEmails(s)
  {
    match op
    case RequestEmailVerification(email, generated) =>
      if email != "" && calls(0) && ByEmail(s, email).Some? && s.users[ByEmail(s, email).value].verified
        then s.verifications
      else SavedFor(s.verifications, s, email, generated, now + VERIFY_TTL, calls)
    case VerifyEmail(text) => if SetsVerified(s, op, now, calls) && calls(2) then Used(s.verifications, text, now)
      else s.verifications
    case _ => s.verifications
  }

  /** All that any operation does to the one-time tokens: one more of them, or one used. */
  lemma OneTimeTablesAfter(s: State, op: Op, now: int, calls: Calls)
    requires UniqueEmails(s)
    ensures Exec(s, op, now, calls).resets == ResetsAfter(s, op, now, calls)
    ensures Exec(s, op, now, calls).verifications == VerificationsAfter(s, op, now, calls)
  {
    IssueAndRevokeLeaveOneTime();
    hide ClaimedExpiry, Usable, Issue, Revoke, RevokeAll, UniqueEmails, SavedFor, Used;
    match op
    case Register(_, _, _, _) =>
    case Login(_, _) =>
    case Refresh(_) =>
    case RequestPasswordReset(_, _) =>
    case ConfirmPasswordReset(_, _, _) =>
    case RequestEmailVerification(_, _) =>
    case VerifyEmail(_) =>
    case UpdateUserRole(_, _) =>
    case SetUserBlocked(_, _) =>
  }

  /** One more unused token under a new text, one unused token becoming used now, or no change. */
  ghost predicate OneTimeChange(before: map<string, OneTime>, after: map<string, OneTime>, now: int) {
    || after == before
    || (exists x, row: OneTime :: x !in before && row.usedAt.None? && now < row.expiresAt && after == before[x := row])
    || (exists x ::
        x in before && before[x].usedAt.None? && now <= before[x].expiresAt
          && after == before[x := before[x].(usedAt := Some(now))])
  }

  /** An operation adds at most one unused, unexpired token or uses up one such token, in at most one of the two
      tables. */
  lemma OneTimeTokensChange(s: State, op: Op, now: int, calls: Calls)
    requires UniqueEmails(s)
    ensures var s' := Exec(s, op, now, calls);
      && OneTimeChange(s.resets, s'.resets, now) && OneTimeChange(s.verifications, s'.verifications, now)
      && (s'.resets == s.resets || s'.verifications == s.verifications)
  {
    OneTimeTablesAfter(s, op, now, calls);
    hide Exec, UniqueEmails, ByEmail;
    var s' := Exec(s, op, now, calls);
    match op
    case RequestPasswordReset(email, generated) =>
      SavedChanges(s.resets, s, email, generated, now, RESET_TTL, calls);
    case RequestEmailVerification(email, generated) =>
      SavedChanges(s.verifications, s, email, generated, now, VERIFY_TTL, calls);
    case ConfirmPasswordReset(text, _, _) =>
      if SetsPassword(s, op, now, calls) && calls(2) {
        assert s'.resets == s.resets[text := s.resets[text].(usedAt := Some(now))];
      }
    case VerifyEmail(text) =>
      if SetsVerified(s, op, now, calls) && calls(2) {
        assert s'.verifications == s.verifications[text := s.verifications[text].(usedAt := Some(now))];
      }
    case _ =>
  }

  lemma SavedChanges(table: map<string, OneTime>, s: State, email: string, generated: Option<string>, now: int,
                     ttl: nat, calls: Calls)
    requires UniqueEmails(s) && ttl > 0
    ensures OneTimeChange(table, SavedFor(table, s, email, generated, now + ttl, calls), now)
  {
    hide ByEmail, UniqueEmails;
    var after := SavedFor(table, s, email, generated, now + ttl, calls);
    if after != table {
      assert after == table[generated.value := OneTime(ByEmail(s, email).value, now + ttl, None)];
    }
  }

  lemma IssueAndRevokeLeaveOneTime()
    ensures forall s: State, u, now, calls, k ::
      Issue(s, u, now, calls, k).resets == s.resets && Issue(s, u, now, calls, k).verifications == s.verifications
    ensures forall s, t, now ::
      Revoke(s, t, now).resets == s.resets && Revoke(s, t, now).verifications == s.verifications
    ensures forall s, u, now ::
      RevokeAll(s, u, now).resets == s.resets && RevokeAll(s, u, now).verifications == s.verifications
  {
  }

  lemma OneTimeOwners(s: State, op: Op, now: int, calls: Calls)
    requires Shaped(s)
    ensures var s' := Exec(s, op, now, calls);
      && (forall x | x in s'.resets :: s'.resets[x].userId in s.users)
      && (forall x | x in s'.verifications :: s'.verifications[x].userId in s.users)
  {
    OneTimeTablesAfter(s, op, now, calls);
    hide Exec, SetsPassword, SetsVerified;
  }

  lemma ExecKeepsShape(s: State, op: Op, now: int, calls: Calls)
    requires Shaped(s)
    ensures Shaped(Exec(s, op, now, calls))
  {
    RefreshTableAfter(s, op, now, calls);
    UsersAfter(s, op, now, calls);
    OneTimeOwners(s, op, now, calls);
    hide Exec, Issued, Exchangeable, SetsBlocked;
  }

  /** Nothing is ever deleted: rows keep their owner and expiry, revoked and used rows keep their moment. */
  lemma RefreshRowsStay(s: State, op: Op, now: int, calls: Calls, t: Token)
    requires UniqueEmails(s) && t in s.refresh
    ensures var s' := Exec(s, op, now, calls);
      && t in s'.refresh && s'.refresh[t].userId == s.refresh[t].userId
      && s'.refresh[t].expiresAt == s.refresh[t].expiresAt
      && (s.refresh[t].revokedAt.Some? ==> s'.refresh[t] == s.refresh[t])
  {
    RefreshTableAfter(s, op, now, calls);
    hide Exec, Issued, Exchangeable, SetsBlocked;
  }

  predicate SameOneTime(a: OneTime, b: OneTime) {
    a.userId == b.userId && a.expiresAt == b.expiresAt && (a.usedAt.Some? ==> b == a)
  }

  lemma OneTimeRowsStay(s: State, op: Op, now: int, calls: Calls, x: string)
    requires UniqueEmails(s)
    ensures var s' := Exec(s, op, now, calls);
      && (x in s.resets ==> x in s'.resets && SameOneTime(s.resets[x], s'.resets[x]))
      && (x in s.verifications ==> x in s'.verifications && SameOneTime(s.verifications[x], s'.verifications[x]))
  {
    OneTimeTablesAfter(s, op, now, calls);
    hide Exec, SetsPassword, SetsVerified, UniqueEmails;
  }

  // ----- the owner of a refresh token -----

  /** Each stored row belongs to the subject inside its token. */
  ghost predicate OwnersMatch(s: State) {
    forall t | t in s.refresh :: s.refresh[t].userId == t.subject
  }

  lemma ExecKeepsOwners(s: State, op: Op, now: int, calls: Calls)
    requires Shaped(s) && OwnersMatch(s)
    ensures OwnersMatch(Exec(s, op, now, calls))
  {
    RefreshTableAfter(s, op, now, calls);
    hide Exec, Issued, Exchangeable, SetsBlocked;
  }

  // ----- exchanging a refresh token -----

  /** A successful Refresh gives the new token to the owner of the old row, and the old row is revoked from then on. */
  lemma RefreshServesOwner(s: State, presented: Presented, now: int, calls: Calls)
    requires Shaped(s) && OwnersMatch(s) && Issued(s, Refresh(presented), now, calls).Some?
    ensures presented.RefreshToken? && presented.token in s.refresh && s.refresh[presented.token].revokedAt.None?
    ensures var (issued, s') := (Issued(s, Refresh(presented), now, calls).value,
                                 Exec(s, Refresh(presented), now, calls));
      && issued.subject == s.refresh[presented.token].userId && issued !in s.refresh
      && issued in s'.refresh && s'.refresh[issued] == RefreshRow(issued.subject, now + REFRESH_TTL, None)
      && presented.token in s'.refresh && s'.refresh[presented.token].revokedAt == Some(now)
  {
    hide ClaimedExpiry;
  }

  // ----- counting live tokens -----

  function Surrendered(s: State, op: Op, now: int, calls: Calls, u: int): set<Token>
    requires Shaped(s)
  {
    if RevokesAllOf(s, op, calls, u) then LiveTokens(s, u)
    else if GivesUp(s, op, now, calls) && s.refresh[op.presented.token].userId == u then {op.presented.token}
    else {}
  }

  function Gained(s: State, op: Op, now: int, calls: Calls, u: int): set<Token>
    requires Shaped(s)
  {
    var issued := Issued(s, op, now, calls);
    if issued.Some? && issued.value.subject == u then {issued.value} else {}
  }

  lemma LiveAfterRevoking(s: State, op: Op, now: int, calls: Calls, u: int)
    requires Shaped(s)
    ensures LiveIn(AfterRevoking(s, op, now, calls), u) == LiveTokens(s, u) - Surrendered(s, op, now, calls, u)
  {
    hide ClaimedExpiry, UniqueEmails, LiveIn, Revoke, RevokeAll;
    if op.SetUserBlocked? && RevokesAllOf(s, op, calls, op.userId) {
      LiveAfterRevokeAll(s, op.userId, now, u);
    } else if GivesUp(s, op, now, calls) {
      LiveAfterRevoke(s, op.presented.token, now, u);
    }
    assert LiveTokens(s, u) - {} == LiveTokens(s, u);
  }

  lemma SurrenderedAreLive(s: State, op: Op, now: int, calls: Calls, u: int)
    requires Shaped(s)
    ensures Surrendered(s, op, now, calls, u) <= LiveTokens(s, u)
  {
    hide ClaimedExpiry, UniqueEmails;
  }

  lemma LiveAfterRevoke(s: State, t: Token, now: int, u: int)
    requires t in s.refresh
    ensures LiveIn(Revoke(s, t, now).refresh, u) == LiveTokens(s, u) - if s.refresh[t].userId == u then {t} else {}
  {
  }

  lemma LiveAfterRevokeAll(s: State, v: int, now: int, u: int)
    ensures LiveIn(RevokeAll(s, v, now).refresh, u) == LiveTokens(s, u) - if u == v then LiveTokens(s, u) else {}
  {
  }

  /** A user's live tokens change only by those surrendered and the one issued. */
  lemma LiveTokensChange(s: State, op: Op, now: int, calls: Calls, u: int)
    requires Shaped(s)
    ensures LiveTokens(Exec(s, op, now, calls), u) == LiveTokens(s, u) - Surrendered(s, op, now, calls, u)
      + Gained(s, op, now, calls, u)
    ensures Surrendered(s, op, now, calls, u) <= LiveTokens(s, u)
    ensures Gained(s, op, now, calls, u) !! LiveTokens(s, u)
  {
    RefreshTableAfter(s, op, now, calls);
    LiveAfterRevoking(s, op, now, calls, u);
    SurrenderedAreLive(s, op, now, calls, u);
    var (base, issued) := (AfterRevoking(s, op, now, calls), Issued(s, op, now, calls));
    hide Exec, Surrendered, Issued;
    if issued.Some? {
      var row := RefreshRow(issued.value.subject, now + REFRESH_TTL, None);
      NotInBase(s, op, now, calls, issued.value);
      hide AfterRevoking;
      assert LiveIn(base[issued.value := row], u) == LiveIn(base, u) + Gained(s, op, now, calls, u);
    }
  }

  lemma NotInBase(s: State, op: Op, now: int, calls: Calls, t: Token)
    requires t !in s.refresh
    ensures t !in AfterRevoking(s, op, now, calls)
  {
    hide SetsBlocked, ClaimedExpiry;
  }

  function LiveTokens(s: State, u: int): set<Token> {
    LiveIn(s.refresh, u)
  }

  function LiveIn(table: map<Token, RefreshRow>, u: int): set<Token> {
    set t | t in table && table[t].userId == u && table[t].revokedAt.None?
  }

  /** Refresh keeps the number of live tokens or lowers it by one, registering and logging in add at most one,
      nothing else adds any. */
  lemma LiveTokensCounted(s: State, op: Op, now: int, calls: Calls, u: int)
    requires Shaped(s) && OwnersMatch(s)
    ensures var (before, after) := (|LiveTokens(s, u)|, |LiveTokens(Exec(s, op, now, calls), u)|);
      && after <= before + (if !op.Refresh? && Gained(s, op, now, calls, u) != {} then 1 else 0)
      && (op.Refresh? ==> before - 1 <= after)
      && (!op.Refresh? && !RevokesAllOf(s, op, calls, u) ==> after == before + |Gained(s, op, now, calls, u)|)
  {
    hide ClaimedExpiry, Issued, Exec, LiveTokens, Exchangeable, Issues;
    var (live, lost, won) := (LiveTokens(s, u), Surrendered(s, op, now, calls, u), Gained(s, op, now, calls, u));
    LiveTokensChange(s, op, now, calls, u);
    if op.Refresh? {
      IssuedMeansGivesUp(s, op, now, calls);
    }
    assert live == live - lost + lost;
    assert |live| == |live - lost| + |lost|;
    assert |live - lost + won| == |live - lost| + |won|;
  }

  lemma IssuedMeansGivesUp(s: State, op: Op, now: int, calls: Calls)
    requires Shaped(s) && OwnersMatch(s) && op.Refresh?
    ensures Issued(s, op, now, calls).Some? ==>
      GivesUp(s, op, now, calls) && s.refresh[op.presented.token].userId == Issued(s, op, now, calls).value.subject
  {
    hide ClaimedExpiry;
  }

  // ----- blocked users -----

  /** A blocked user has no unrevoked refresh token. */
  ghost predicate BlockedAreRevoked(s: State) {
    forall u | u in s.users && Blocked(s, u) :: LiveTokens(s, u) == {}
  }

  /** SetUserBlocked blocks a user and then fails to revoke. */
  predicate BlocksOnly(s: State, op: Op, calls: Calls) {
    SetsBlocked(s, op, calls) && op.blocked && !calls(1)
  }

  /** No operation hands a token to a blocked user. */
  lemma BlockedGetNothing(s: State, op: Op, now: int, calls: Calls)
    requires UniqueEmails(s) && Issued(s, op, now, calls).Some?
    ensures !Blocked(s, Issued(s, op, now, calls).value.subject) || op.Register?
  {
    hide ClaimedExpiry;
  }

  /** Only SetUserBlocked blocks anyone. */
  lemma NewlyBlocked(s: State, op: Op, now: int, calls: Calls, u: int)
    requires Shaped(s) && Blocked(Exec(s, op, now, calls), u) && !Blocked(s, u)
    ensures SetsBlocked(s, op, calls) && op.blocked && op.userId == u
  {
    UserTableAfter(s, op, now, calls);
    hide Exec, UniqueEmails, Usable;
  }

  lemma StaysBlockedUnlessUnblocked(s: State, op: Op, now: int, calls: Calls)
    requires Shaped(s) && SetsBlocked(s, op, calls) && op.blocked
    ensures Blocked(Exec(s, op, now, calls), op.userId)
  {
    UserTableAfter(s, op, now, calls);
    hide Exec, UniqueEmails;
  }

  /** What one operation does to one user's live tokens when that user ends up blocked. */
  lemma LiveWhenBlocked(s: State, op: Op, now: int, calls: Calls, u: int)
    requires Shaped(s) && BlockedAreRevoked(s) && Blocked(Exec(s, op, now, calls), u)
    ensures LiveTokens(Exec(s, op, now, calls), u)
         == if BlocksOnly(s, op, calls) && op.userId == u then LiveTokens(s, u) else {}
  {
    LiveTokensChange(s, op, now, calls, u);
    if !Blocked(s, u) {
      NewlyBlocked(s, op, now, calls, u);
    } else if Issued(s, op, now, calls).Some? {
      BlockedGetNothing(s, op, now, calls);
      if op.Register? {
        RegisteredIsNew(s, op, now, calls);
      }
    }
    hide Exec, LiveIn, UniqueEmails, ClaimedExpiry;
  }

  lemma RegisteredIsNew(s: State, op: Op, now: int, calls: Calls)
    requires Shaped(s) && op.Register? && Issued(s, op, now, calls).Some?
    ensures Issued(s, op, now, calls).value.subject !in s.users
  {
  }

  /** The one way to break the rule: blocking a user who holds an unrevoked token while the revocation call fails. */
  lemma BlockedStayRevokedIff(s: State, op: Op, now: int, calls: Calls)
    requires Shaped(s) && BlockedAreRevoked(s)
    ensures BlockedAreRevoked(Exec(s, op, now, calls))
      <==> !(BlocksOnly(s, op, calls) && LiveTokens(s, op.userId) != {})
  {
    var s' := Exec(s, op, now, calls);
    forall u | u in s'.users && Blocked(s', u)
      ensures LiveTokens(s', u) == if BlocksOnly(s, op, calls) && op.userId == u then LiveTokens(s, u) else {}
    {
      LiveWhenBlocked(s, op, now, calls, u);
    }
    if BlocksOnly(s, op, calls) {
      StaysBlockedUnlessUnblocked(s, op, now, calls);
    }
    hide Exec, LiveTokens, UniqueEmails;
  }
}
