/** The auth service statement by statement over its repository; each method performs exactly its operation's
    transition. */
module AuthService {
  import opened Options
  import opened Accounts
  import opened AccountFacts
  import opened AccountTerms

  class AuthRepository {
    var users: map<int, User>
    var nextId: int
    var refresh: map<Token, RefreshRow>
    var resets: map<string, OneTime>
    var verifications: map<string, OneTime>

    constructor ()
      ensures Shaped(View()) && OwnersMatch(View()) && users == map[] && refresh == map[] && resets == map[]
        && verifications == map[]
    {
      users, nextId, refresh, resets, verifications := map[], 1, map[], map[], map[];
    }

    ghost function View(): State
      reads this
    {
      State(users, nextId, refresh, resets, verifications)
    }

    /** Draws an id, and inserts unless the address is taken. */
    method CreateUser(email: string, hash: Hash, role: string, ok: bool) returns (id: Option<int>)
      requires UniqueEmails(View())
      modifies this`users, this`nextId
      ensures id == if ok && ByEmail(old(View()), email).None? then Some(old(nextId)) else None
      ensures nextId == old(nextId) + if ok then 1 else 0
      ensures users == if id.Some? then old(users)[id.value := User(email, hash, false, role, None)] else old(users)
    {
      if !ok {
        return None;
      }
      var taken := exists u | u in users :: users[u].email == email;
      id := if taken then None else Some(nextId);
      if !taken {
        users := users[nextId := User(email, hash, false, role, None)];
      }
      nextId := nextId + 1;
    }

    method GetUserByEmail(email: string) returns (id: Option<int>)
      requires UniqueEmails(View())
      ensures id == ByEmail(View(), email)
    {
      if u :| u in users && users[u].email == email {
        return Some(u);
      }
      return None;
    }

    method SaveRefreshToken(userId: int, token: Token, expiresAt: int, ok: bool) returns (saved: bool)
      modifies this`refresh
      ensures saved <==> ok && token !in old(refresh)
      ensures refresh == if saved then old(refresh)[token := RefreshRow(userId, expiresAt, None)] else old(refresh)
    {
      saved := ok && token !in refresh;
      if saved {
        refresh := refresh[token := RefreshRow(userId, expiresAt, None)];
      }
    }

    method RevokeRefreshToken(token: Token, now: int, ok: bool)
      modifies this`refresh
      ensures View() == if ok then Revoke(old(View()), token, now) else old(View())
    {
      if ok && token in refresh && refresh[token].revokedAt.None? {
        refresh := refresh[token := refresh[token].(revokedAt := Some(now))];
      } else {
        assert token in refresh ==> refresh[token := refresh[token]] == refresh;
      }
    }

    /** UPDATE … WHERE user_id = $1 AND revoked_at IS NULL, row by row. */
    method RevokeAllUserRefreshTokens(userId: int, now: int, ok: bool)
      modifies this`refresh
      ensures View() == if ok then RevokeAll(old(View()), userId, now) else old(View())
    {
      if !ok {
        return;
      }
      var rest := refresh.Keys;
      while rest != {}
        invariant refresh.Keys == old(refresh).Keys && rest <= refresh.Keys
        invariant forall t | t in refresh ::
          refresh[t] == if t !in rest && old(refresh)[t].userId == userId then Revoked(old(refresh)[t], now)
            else old(refresh)[t]
        decreases |rest|
      {
        var t :| t in rest;
        if refresh[t].userId == userId && refresh[t].revokedAt.None? {
          refresh := refresh[t := refresh[t].(revokedAt := Some(now))];
        }
        rest := rest - {t};
      }
    }
  }

  class AuthService {
    const repo: AuthRepository

    constructor (repo: AuthRepository)
      ensures this.repo == repo
    {
      this.repo := repo;
    }

    /** issueTokenPair; the k-th and next repository calls are its own. */
    method IssueTokenPair(userId: int, now: int, calls: Calls, k: nat) returns (issued: Option<Token>)
      modifies repo`refresh
      ensures repo.View() == Issue(old(repo.View()), userId, now, calls, k)
      ensures issued == if Issues(old(repo.View()), userId, now, calls, k)
                        then Some(Token(userId, old(repo.users)[userId].role, now)) else None
    {
      if !calls(k) || userId !in repo.users || repo.users[userId].blockedAt.Some? {
        return None;
      }
      var token := Token(userId, repo.users[userId].role, now);
      var saved := repo.SaveRefreshToken(userId, token, now + REFRESH_TTL, calls(k + 1));
      return if saved then Some(token) else None;
    }

    method Register(email: string, password: string, hashOk: bool, admin: bool, now: int, calls: Calls)
      returns (issued: Option<Token>)
      requires Shaped(repo.View())
      modifies repo
      ensures repo.View() == Exec(old(repo.View()), Op.Register(email, password, hashOk, admin), now, calls)
      ensures issued == Issued(old(repo.View()), Op.Register(email, password, hashOk, admin), now, calls)
    {
      if email == "" || password == "" {
        return None;
      }
      if !hashOk {
        return None;
      }
      var id := repo.CreateUser(email, Hashed(password), if admin then "admin" else "user", calls(0));
      if id.None? {
        return None;
      }
      issued := IssueTokenPair(id.value, now, calls, 1);
    }

    method Login(email: string, password: string, now: int, calls: Calls) returns (issued: Option<Token>)
      requires Shaped(repo.View())
      modifies repo
      ensures repo.View() == Exec(old(repo.View()), Op.Login(email, password), now, calls)
      ensures issued == Issued(old(repo.View()), Op.Login(email, password), now, calls)
      ensures repo.users == old(repo.users)
      ensures issued.Some?
        <==> && email != "" && password != "" && calls(0) && calls(1) && calls(2)
             && exists u ::
                  && u in repo.users && repo.users[u].email == email && repo.users[u].hash == Hashed(password)
                  && repo.users[u].blockedAt.None? && Token(u, repo.users[u].role, now) !in old(repo.refresh)
      ensures issued.Some? ==>
        && issued.value.subject in repo.users && repo.users[issued.value.subject].email == email
        && repo.users[issued.value.subject].hash == Hashed(password)
    {
      LoginIff(repo.View(), email, password, now, calls);
      if email == "" || password == "" || !calls(0) {
        return None;
      }
      var id := repo.GetUserByEmail(email);
      if id.None? || repo.users[id.value].hash != Hashed(password) {
        return None;
      }
      if repo.users[id.value].blockedAt.Some? {
        return None;
      }
      issued := IssueTokenPair(id.value, now, calls, 1);
    }

    method Refresh(presented: Presented, now: int, calls: Calls) returns (issued: Option<Token>)
      requires Shaped(repo.View()) && OwnersMatch(repo.View())
      modifies repo
      ensures repo.View() == Exec(old(repo.View()), Op.Refresh(presented), now, calls)
      ensures issued == Issued(old(repo.View()), Op.Refresh(presented), now, calls)
      ensures issued.Some? ==>
        && InForce(old(repo.View()), presented, now) && issued.value.subject == presented.token.subject
        && repo.users[issued.value.subject].blockedAt.None?
    {
      RefreshIff(repo.View(), presented, now, calls);
      hide ClaimedExpiry;
      if !presented.RefreshToken? || now >= ClaimedExpiry(presented.token) {
        return None;
      }
      var token := presented.token;
      if !calls(0) {
        return None;
      }
      if token !in repo.refresh || repo.refresh[token].revokedAt.Some? || now > repo.refresh[token].expiresAt {
        return None;
      }
      repo.RevokeRefreshToken(token, now, calls(1));
      if !calls(1) {
        return None;
      }
      if !calls(2) {
        return None;
      }
      if token.subject !in repo.users {
        return None;
      }
      issued := IssueTokenPair(token.subject, now, calls, 3);
    }

    /** The text returned is empty for an unknown address; None is an error. */
    method RequestPasswordReset(email: string, generated: Option<string>, now: int, calls: Calls, mailOk: bool)
      returns (text: Option<string>)
      requires Shaped(repo.View())
      modifies repo`resets
      ensures repo.View() == Exec(old(repo.View()), Op.RequestPasswordReset(email, generated), now, calls)
      ensures text.Some? && text.value != "" ==> text == generated && Usable(repo.resets, text.value, now)
      ensures text == if email == "" || !calls(0) then None
                      else if forall u | u in repo.users :: repo.users[u].email != email then Some("")
                      else if generated.Some? && calls(1) && generated.value !in old(repo.resets) && mailOk then
                        generated
                      else None
    {
      if email == "" || !calls(0) {
        return None;
      }
      var id := repo.GetUserByEmail(email);
      if id.None? {
        return Some("");
      }
      if generated.None? {
        return None;
      }
      if !calls(1) || generated.value in repo.resets {
        return None;
      }
      repo.resets := repo.resets[generated.value := OneTime(id.value, now + RESET_TTL, None)];
      return if mailOk then generated else None;
    }

    method ConfirmPasswordReset(text: string, newPassword: string, hashOk: bool, now: int, calls: Calls)
      returns (ok: bool)
      requires Shaped(repo.View())
      modifies repo`users, repo`resets
      ensures repo.View() == Exec(old(repo.View()), Op.ConfirmPasswordReset(text, newPassword, hashOk), now, calls)
      ensures ok
        <==> SetsPassword(old(repo.View()), Op.ConfirmPasswordReset(text, newPassword, hashOk), now, calls) && calls(2)
      ensures ok <==> && Open(old(repo.resets), text, now) && newPassword != "" && hashOk
                      && calls(0) && calls(1) && calls(2)
    {
      if text == "" || newPassword == "" || !calls(0) {
        return false;
      }
      if text !in repo.resets || repo.resets[text].usedAt.Some? || now > repo.resets[text].expiresAt {
        return false;
      }
      if !hashOk {
        return false;
      }
      if !calls(1) {
        return false;
      }
      var u := repo.resets[text].userId;
      if u in repo.users {
        repo.users := repo.users[u := repo.users[u].(hash := Hashed(newPassword))];
      }
      if !calls(2) {
        return false;
      }
      if repo.resets[text].usedAt.None? {
        repo.resets := repo.resets[text := repo.resets[text].(usedAt := Some(now))];
      }
      return true;
    }

    method RequestEmailVerification(email: string, generated: Option<string>, now: int, calls: Calls, mailOk: bool)
      returns (text: Option<string>)
      requires Shaped(repo.View())
      modifies repo`verifications
      ensures repo.View() == Exec(old(repo.View()), Op.RequestEmailVerification(email, generated), now, calls)
      ensures text.Some? && text.value != "" ==> text == generated && Usable(repo.verifications, text.value, now)
      ensures text == if email == "" || !calls(0) || (forall u | u in repo.users :: repo.users[u].email != email) then
                        None
                      else if exists u | u in repo.users :: repo.users[u].email == email && repo.users[u].verified then
                        Some("")
                      else if generated.Some? && calls(1) && generated.value !in old(repo.verifications) && mailOk then
                        generated
                      else None
    {
      if email == "" || !calls(0) {
        return None;
      }
      var id := repo.GetUserByEmail(email);
      if id.None? {
        return None;
      }
      if repo.users[id.value].verified {
        return Some("");
      }
      if generated.None? {
        return None;
      }
      if !calls(1) || generated.value in repo.verifications {
        return None;
      }
      repo.verifications := repo.verifications[generated.value := OneTime(id.value, now + VERIFY_TTL, None)];
      return if mailOk then generated else None;
    }

    method VerifyEmail(text: string, now: int, calls: Calls) returns (ok: bool)
      requires Shaped(repo.View())
      modifies repo`users, repo`verifications
      ensures repo.View() == Exec(old(repo.View()), Op.VerifyEmail(text), now, calls)
      ensures ok <==> SetsVerified(old(repo.View()), Op.VerifyEmail(text), now, calls) && calls(2)
      ensures ok <==> Open(old(repo.verifications), text, now) && calls(0) && calls(1) && calls(2)
    {
      if text == "" || !calls(0) {
        return false;
      }
      if text !in repo.verifications || repo.verifications[text].usedAt.Some?
        || now > repo.verifications[text].expiresAt {
        return false;
      }
      if !calls(1) {
        return false;
      }
      var u := repo.verifications[text].userId;
      if u in repo.users {
        repo.users := repo.users[u := repo.users[u].(verified := true)];
      }
      if !calls(2) {
        return false;
      }
      if repo.verifications[text].usedAt.None? {
        repo.verifications := repo.verifications[text := repo.verifications[text].(usedAt := Some(now))];
      }
      return true;
    }

    method UpdateUserRole(userId: int, role: string, now: int, calls: Calls) returns (ok: bool)
      requires Shaped(repo.View())
      modifies repo`users
      ensures repo.View() == Exec(old(repo.View()), Op.UpdateUserRole(userId, role), now, calls)
      ensures ok <==> userId > 0 && userId in repo.users && (role == "user" || role == "admin") && calls(0)
    {
      if userId <= 0 || (role != "user" && role != "admin") || !calls(0) || userId !in repo.users {
        return false;
      }
      repo.users := repo.users[userId := repo.users[userId].(role := role)];
      return true;
    }

    method SetUserBlocked(userId: int, blocked: bool, now: int, calls: Calls) returns (ok: bool)
      requires Shaped(repo.View())
      modifies repo`users, repo`refresh
      ensures repo.View() == Exec(old(repo.View()), Op.SetUserBlocked(userId, blocked), now, calls)
      ensures ok <==> userId > 0 && userId in repo.users && calls(0) && (blocked ==> calls(1))
    {
      if userId <= 0 || !calls(0) || userId !in repo.users {
        return false;
      }
      repo.users := repo.users[userId := repo.users[userId].(blockedAt := if blocked then Some(now) else None)];
      if blocked {
        repo.RevokeAllUserRefreshTokens(userId, now, calls(1));
        return calls(1);
      }
      return true;
    }
  }
}
