/** What decides each operation of the auth service and what it leaves, on the columns of the tables themselves. */
module AccountTerms {
  import opened Options
  import opened Accounts
  import opened AccountFacts

  const HOUR := 3600 * 1_000_000_000

  /** The user row with this address. */
  ghost predicate Owns(s: State, u: int, email: string) {
    u in s.users && s.users[u].email == email
  }

  lemma OwnerFound(s: State, u: int, email: string)
    requires UniqueEmails(s) && Owns(s, u, email)
    ensures ByEmail(s, email) == Some(u)
  {
  }

  /** A login yields a token exactly for the address and the password of an unblocked user, when the three calls succeed
      and the token is new; the token is that user's, in the user's role, and its row lasts seven days. */
  lemma LoginIff(s: State, email: string, password: string, now: int, calls: Calls)
    requires UniqueEmails(s)
    ensures var (op, issued) := (Login(email, password), Issued(s, Login(email, password), now, calls));
      && (issued.Some?
          <==> && email != "" && password != "" && calls(0) && calls(1) && calls(2)
               && exists u :: && Owns(s, u, email) && s.users[u].hash == Hashed(password) && s.users[u].blockedAt.None?
                              && Token(u, s.users[u].role, now) !in s.refresh)
      && (issued.Some? ==>
            && Owns(s, issued.value.subject, email) && s.users[issued.value.subject].hash == Hashed(password)
            && issued.value == Token(issued.value.subject, s.users[issued.value.subject].role, now))
      && Exec(s, op, now, calls)
         == if issued.None? then s
            else s.(refresh := s.refresh[issued.value := RefreshRow(issued.value.subject, now + 7 * 24 * HOUR, None)])
  {
    hide ByEmail, UniqueEmails;
    forall u | Owns(s, u, email)
      ensures ByEmail(s, email) == Some(u)
    {
      OwnerFound(s, u, email);
    }
  }

  /** A registration yields a token exactly for a nonempty address that nobody has and a nonempty password, when hashing
      and the three calls succeed and the token is new; the user is added, token or not, once the insert is done. */
  lemma RegisterIff(s: State, email: string, password: string, hashOk: bool, admin: bool, now: int, calls: Calls)
    requires UniqueEmails(s)
    ensures var op := Register(email, password, hashOk, admin);
      var (issued, s', role) := (Issued(s, op, now, calls), Exec(s, op, now, calls), if admin then "admin" else "user");
      var added := email != "" && password != "" && hashOk && calls(0) && forall u | u in s.users ::
        s.users[u].email != email;
      && (issued.Some? <==> added && calls(1) && calls(2) && Token(s.nextId, role, now) !in s.refresh)
      && (issued.Some? ==> issued.value == Token(s.nextId, role, now))
      && s'.users == (if added then s.users[s.nextId := User(email, Hashed(password), false, role, None)] else s.users)
      && s'.nextId == s.nextId + (if email != "" && password != "" && hashOk && calls(0) then 1 else 0)
      && s'.refresh == (if issued.None? then s.refresh
                        else s.refresh[issued.value := RefreshRow(s.nextId, now + 7 * 24 * HOUR, None)])
      && s'.resets == s.resets && s'.verifications == s.verifications
  {
    hide ByEmail, UniqueEmails;
    if ByEmail(s, email).Some? {
      assert Owns(s, ByEmail(s, email).value, email);
    }
  }

  /** The signed expiry, in whole seconds, and the stored one are both ahead, and the row is not revoked. */
  ghost predicate InForce(s: State, presented: Presented, now: int) {
    && presented.RefreshToken? && presented.token in s.refresh && s.refresh[presented.token].revokedAt.None?
    && now <= s.refresh[presented.token].expiresAt
    && now < (presented.token.issuedAt + 7 * 24 * HOUR) / 1_000_000_000 * 1_000_000_000
  }

  /** Refreshing yields a token exactly for a signed refresh token in force whose user is not blocked, when the five
      calls succeed and the new token is new; the old row is revoked as soon as the first two calls succeed. */
  lemma RefreshIff(s: State, presented: Presented, now: int, calls: Calls)
    requires Shaped(s) && OwnersMatch(s)
    ensures var (op, issued) := (Refresh(presented), Issued(s, Refresh(presented), now, calls));
      && (issued.Some?
          <==> && InForce(s, presented, now) && (forall k: nat | k < 5 :: calls(k))
               && s.users[presented.token.subject].blockedAt.None?
               && Token(presented.token.subject, s.users[presented.token.subject].role, now) !in s.refresh)
      && (issued.Some? ==> issued.value == Token(presented.token.subject, s.users[presented.token.subject].role, now))
      && Exec(s, op, now, calls).users == s.users
      && (!(InForce(s, presented, now) && calls(0) && calls(1)) ==> Exec(s, op, now, calls) == s)
      && (InForce(s, presented, now) && calls(0) && calls(1) ==>
            var revoked := s.refresh[presented.token := s.refresh[presented.token].(revokedAt := Some(now))];
            Exec(s, op, now, calls)
            == s.(refresh := if issued.None? then revoked
                             else revoked[issued.value := RefreshRow(issued.value.subject, now + 7 * 24 * HOUR, None)]))
  {
    hide ByEmail, UniqueEmails;
    assert presented.RefreshToken? && presented.token in s.refresh ==> presented.token.subject in s.users;
    assert (forall k: nat | k < 5 :: calls(k)) <==> calls(0) && calls(1) && calls(2) && calls(3) && calls(4);
  }

  /** A one-time token that can still be used. */
  ghost predicate Open(table: map<string, OneTime>, text: string, now: int) {
    text != "" && text in table && table[text].usedAt.None? && now <= table[text].expiresAt
  }

  /** A confirmed reset sets the hash of the token's user exactly for an open token and a nonempty password, when
      hashing and the first two calls succeed; the token is used up when the third does. */
  lemma ConfirmIff(s: State, text: string, newPassword: string, hashOk: bool, now: int, calls: Calls)
    requires Shaped(s)
    ensures var s' := Exec(s, ConfirmPasswordReset(text, newPassword, hashOk), now, calls);
      if Open(s.resets, text, now) && newPassword != "" && hashOk && calls(0) && calls(1) then
        var u := s.resets[text].userId;
        && s'.users == s.users[u := s.users[u].(hash := Hashed(newPassword))]
        && s' == s.(users := s'.users, resets := if calls(2) then s.resets[text := s.resets[text].(usedAt := Some(now))]
                                                 else s.resets)
      else s' == s
  {
    hide ByEmail, UniqueEmails;
  }

  /** The same for the verification of an address. */
  lemma VerifyEmailIff(s: State, text: string, now: int, calls: Calls)
    requires Shaped(s)
    ensures var s' := Exec(s, VerifyEmail(text), now, calls);
      if Open(s.verifications, text, now) && calls(0) && calls(1) then
        var u := s.verifications[text].userId;
        && s'.users == s.users[u := s.users[u].(verified := true)]
        && s' == s.(users := s'.users,
                    verifications :=
                      if calls(2) then s.verifications[text := s.verifications[text].(usedAt := Some(now))]
                      else s.verifications)
      else s' == s
  {
    hide ByEmail, UniqueEmails;
  }

  /** A reset token is stored exactly for an address that a user has, under a new text, for an hour, for that user. */
  lemma RequestResetIff(s: State, email: string, generated: Option<string>, now: int, calls: Calls, u: int)
    requires UniqueEmails(s)
    ensures var s' := Exec(s, RequestPasswordReset(email, generated), now, calls);
      if email != "" && Owns(s, u, email) then
        s' == if calls(0) && calls(1) && generated.Some? && generated.value !in s.resets then
                s.(resets := s.resets[generated.value := OneTime(u, now + HOUR, None)])
              else s
      else (email == "" || forall v :: !Owns(s, v, email)) ==> s' == s
  {
    hide UniqueEmails, ByEmail;
    if Owns(s, u, email) {
      OwnerFound(s, u, email);
    }
    assert ByEmail(s, email).Some? ==> Owns(s, ByEmail(s, email).value, email);
  }

  /** A verification token likewise, for a day, unless the user is verified. */
  lemma RequestVerificationIff(s: State, email: string, generated: Option<string>, now: int, calls: Calls, u: int)
    requires UniqueEmails(s)
    ensures var s' := Exec(s, RequestEmailVerification(email, generated), now, calls);
      if email != "" && Owns(s, u, email) then
        s' == if !s.users[u].verified && calls(0) && calls(1) && generated.Some?
                 && generated.value !in s.verifications then
                s.(verifications := s.verifications[generated.value := OneTime(u, now + 24 * HOUR, None)])
              else s
      else (email == "" || forall v :: !Owns(s, v, email)) ==> s' == s
  {
    hide UniqueEmails, ByEmail;
    if Owns(s, u, email) {
      OwnerFound(s, u, email);
    }
    assert ByEmail(s, email).Some? ==> Owns(s, ByEmail(s, email).value, email);
  }

  /** A role is written exactly when it is one of the two, for an existing user with a positive id. */
  lemma RoleIff(s: State, u: int, role: string, now: int, calls: Calls)
    requires UniqueEmails(s)
    ensures Exec(s, UpdateUserRole(u, role), now, calls)
         == if u > 0 && u in s.users && (role == "user" || role == "admin") && calls(0) then
              s.(users := s.users[u := s.users[u].(role := role)])
            else s
  {
    hide UniqueEmails;
  }

  /** Blocking stamps the user's row and, when the second call succeeds, revokes the user's unrevoked tokens and no
      others; unblocking clears the stamp and leaves the tokens. */
  lemma BlockIff(s: State, u: int, blocked: bool, now: int, calls: Calls)
    requires UniqueEmails(s)
    ensures var s' := Exec(s, SetUserBlocked(u, blocked), now, calls);
      if !(u > 0 && u in s.users && calls(0)) then s' == s
      else
        && s' == s.(users := s.users[u := s.users[u].(blockedAt := if blocked then Some(now) else None)],
                    refresh := s'.refresh)
        && s'.refresh.Keys == s.refresh.Keys
        && forall t | t in s.refresh ::
             s'.refresh[t] == if blocked && calls(1) && s.refresh[t].userId == u && s.refresh[t].revokedAt.None? then
                                s.refresh[t].(revokedAt := Some(now))
                              else s.refresh[t]
  {
    hide UniqueEmails;
  }
}
