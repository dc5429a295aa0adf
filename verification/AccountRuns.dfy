/** Whole serialised runs of the auth service's operations, with any calls failing. */
module AccountRuns {
  import opened Options
  import opened Accounts
  import opened AccountFacts

  datatype Call = Call(op: Op, now: int, calls: Calls)

  ghost function After(s: State, run: seq<Call>): (t: State)
    requires Shaped(s)
    ensures Shaped(t)
    decreases |run|
  {
    if run == [] then s
    else
      ExecKeepsShape(s, run[0].op, run[0].now, run[0].calls);
      After(Exec(s, run[0].op, run[0].now, run[0].calls), run[1..])
  }

  lemma {:induction false} AfterSplit(s: State, run: seq<Call>, i: nat)
    requires Shaped(s) && i <= |run|
    ensures After(s, run) == After(After(s, run[..i]), run[i..])
    decreases |run|
  {
    ShapedIsUnique(s);
    hide Exec, Shaped;
    if i == 0 {
      assert run[..0] == [] && run[0..] == run;
    } else {
      ExecKeepsShape(s, run[0].op, run[0].now, run[0].calls);
      AfterSplit(Exec(s, run[0].op, run[0].now, run[0].calls), run[1..], i - 1);
      assert run[..i][1..] == run[1..][..i - 1] && run[1..][i - 1..] == run[i..];
    }
  }

  /** The state in which the k-th operation starts. */
  ghost function At(s: State, run: seq<Call>, k: nat): State
    requires Shaped(s) && k <= |run|
  {
    After(s, run[..k])
  }

  lemma AtNext(s: State, run: seq<Call>, k: nat)
    requires Shaped(s) && k < |run|
    ensures At(s, run, k + 1) == Exec(At(s, run, k), run[k].op, run[k].now, run[k].calls)
  {
    hide Exec, Shaped;
    var c := run[k];
    assert run[..k + 1][..k] == run[..k] && run[..k + 1][k..] == [c];
    AfterSplit(s, run[..k + 1], k);
    var t := At(s, run, k);
    ShapedIsUnique(t);
    assert [c][1..] == [];
    ExecKeepsShape(t, c.op, c.now, c.calls);
    assert After(t, [c]) == After(Exec(t, c.op, c.now, c.calls), []);
  }

  // ----- refresh tokens -----

  /** Revocation is never undone, and its moment never changes. */
  lemma {:induction false} RevokedForever(s: State, run: seq<Call>, t: Token)
    requires Shaped(s) && t in s.refresh && s.refresh[t].revokedAt.Some?
    ensures t in After(s, run).refresh && After(s, run).refresh[t] == s.refresh[t]
    decreases |run|
  {
    hide Exec, Shaped;
    if run != [] {
      ExecKeepsShape(s, run[0].op, run[0].now, run[0].calls);
      ShapedIsUnique(s);
      RefreshRowsStay(s, run[0].op, run[0].now, run[0].calls, t);
      RevokedForever(Exec(s, run[0].op, run[0].now, run[0].calls), run[1..], t);
    }
  }

  lemma ShapedIsUnique(s: State)
    requires Shaped(s)
    ensures UniqueEmails(s)
  {
  }

  ghost predicate Exchanges(s: State, run: seq<Call>, k: nat, t: Token)
    requires Shaped(s) && k < |run|
  {
    run[k].op == Refresh(RefreshToken(t)) && Issued(At(s, run, k), run[k].op, run[k].now, run[k].calls).Some?
  }

  lemma {:induction false} RunKeepsOwners(s: State, run: seq<Call>)
    requires Shaped(s) && OwnersMatch(s)
    ensures OwnersMatch(After(s, run))
    decreases |run|
  {
    ShapedIsUnique(s);
    hide Exec, Shaped, OwnersMatch;
    if run != [] {
      ExecKeepsShape(s, run[0].op, run[0].now, run[0].calls);
      ExecKeepsOwners(s, run[0].op, run[0].now, run[0].calls);
      RunKeepsOwners(Exec(s, run[0].op, run[0].now, run[0].calls), run[1..]);
    }
  }

  /** Over any run each refresh token is exchanged for a new pair at most once. */
  lemma ExchangedAtMostOnce(s: State, run: seq<Call>, i: nat, j: nat, t: Token)
    requires Shaped(s) && OwnersMatch(s) && i < j < |run|
    requires Exchanges(s, run, i, t)
    ensures !Exchanges(s, run, j, t)
  {
    hide Exec, Shaped, OwnersMatch;
    var (a, b) := (At(s, run, i), At(s, run, i + 1));
    RunKeepsOwners(s, run[..i]);
    RefreshServesOwner(a, RefreshToken(t), run[i].now, run[i].calls);
    AtNext(s, run, i);
    assert b.refresh[t].revokedAt.Some? && t in b.refresh;
    var middle := run[i + 1..j];
    assert run[..j][..i + 1] == run[..i + 1] && run[..j][i + 1..] == middle;
    AfterSplit(s, run[..j], i + 1);
    RevokedForever(b, middle, t);
    RevokedIsNotExchanged(At(s, run, j), t, run[j].now, run[j].calls);
  }

  lemma RevokedIsNotExchanged(s: State, t: Token, now: int, calls: Calls)
    requires Shaped(s) && t in s.refresh && s.refresh[t].revokedAt.Some?
    ensures Issued(s, Refresh(RefreshToken(t)), now, calls).None?
  {
    hide ClaimedExpiry;
  }

  /** How often a run registered or logged this user in. */
  ghost function SignIns(s: State, run: seq<Call>, u: int): nat
    requires Shaped(s)
    decreases |run|
  {
    if run == [] then 0
    else
      var c := run[0];
      ExecKeepsShape(s, c.op, c.now, c.calls);
      (if !c.op.Refresh? && Gained(s, c.op, c.now, c.calls, u) != {} then 1 else 0)
      + SignIns(Exec(s, c.op, c.now, c.calls), run[1..], u)
  }

  /** A user's unrevoked tokens never exceed those at the start plus the registrations and logins since. */
  lemma {:induction false} LiveTokensBounded(s: State, run: seq<Call>, u: int)
    requires Shaped(s) && OwnersMatch(s)
    ensures |LiveTokens(After(s, run), u)| <= |LiveTokens(s, u)| + SignIns(s, run, u)
    decreases |run|
  {
    ShapedIsUnique(s);
    hide Exec, Shaped, OwnersMatch, LiveTokens, Gained;
    if run != [] {
      var c := run[0];
      ExecKeepsShape(s, c.op, c.now, c.calls);
      ExecKeepsOwners(s, c.op, c.now, c.calls);
      LiveTokensCounted(s, c.op, c.now, c.calls, u);
      LiveTokensBounded(Exec(s, c.op, c.now, c.calls), run[1..], u);
    }
  }

  /** Every blocking of the run also revoked. */
  ghost predicate BlocksRevoke(s: State, run: seq<Call>)
    requires Shaped(s)
  {
    forall k | 0 <= k < |run| :: !BlocksOnly(At(s, run, k), run[k].op, run[k].calls)
  }

  /** Unless the revocation after a blocking fails, a blocked user never has an unrevoked token. */
  lemma {:induction false} BlockedNeverLive(s: State, run: seq<Call>, k: nat)
    requires Shaped(s) && BlockedAreRevoked(s) && BlocksRevoke(s, run) && k <= |run|
    ensures BlockedAreRevoked(At(s, run, k))
    decreases k
  {
    hide Exec, Shaped, BlockedAreRevoked, BlocksOnly;
    if k == 0 {
      assert run[..0] == [];
    } else {
      BlockedNeverLive(s, run, k - 1);
      AtNext(s, run, k - 1);
      var c := run[k - 1];
      BlockedStayRevokedIff(At(s, run, k - 1), c.op, c.now, c.calls);
    }
  }

  // ----- passwords -----

  /** Only ConfirmPasswordReset changes a user's password hash, and only through a usable token issued to that user. */
  lemma HashChangesBy(s: State, op: Op, now: int, calls: Calls, u: int)
    requires Shaped(s) && u in s.users
    ensures var s' := Exec(s, op, now, calls);
      && u in s'.users
      && s'.users[u].hash == (if SetsPassword(s, op, now, calls) && s.resets[op.text].userId == u
                              then Hashed(op.newPassword) else s.users[u].hash)
  {
    UserTableAfter(s, op, now, calls);
    hide Exec, Usable, UniqueEmails;
  }

  /** The k-th operation sets user u's password by way of this token. */
  ghost predicate ResetsPassword(s: State, run: seq<Call>, k: nat, u: int, text: string)
    requires Shaped(s) && k < |run|
  {
    && SetsPassword(At(s, run, k), run[k].op, run[k].now, run[k].calls) && run[k].op.text == text
    && At(s, run, k).resets[text].userId == u
  }

  /** A password hash at the end is the one at the start or was set through a token of that user. */
  lemma {:induction false} HashHasProvenance(s: State, run: seq<Call>, u: int)
    requires Shaped(s) && u in s.users
    ensures u in After(s, run).users
    ensures After(s, run).users[u].hash == s.users[u].hash
      || exists k, text ::
        0 <= k < |run| && ResetsPassword(s, run, k, u, text)
          && After(s, run).users[u].hash == Hashed(run[k].op.newPassword)
    decreases |run|
  {
    hide Exec, Shaped;
    if run != [] {
      var (n, c) := (|run| - 1, run[|run| - 1]);
      HashHasProvenance(s, run[..n], u);
      AtNext(s, run, n);
      assert run[..|run|] == run;
      HashChangesBy(At(s, run, n), c.op, c.now, c.calls, u);
      if SetsPassword(At(s, run, n), c.op, c.now, c.calls) && At(s, run, n).resets[c.op.text].userId == u {
        assert ResetsPassword(s, run, n, u, c.op.text);
      } else if After(s, run[..n]).users[u].hash != s.users[u].hash {
        var k, text :| 0 <= k < n && ResetsPassword(s, run[..n], k, u, text)
          && After(s, run[..n]).users[u].hash == Hashed(run[..n][k].op.newPassword);
        assert run[..n][..k] == run[..k];
        assert ResetsPassword(s, run, k, u, text);
      }
    }
  }

  lemma {:induction false} UsedForever(s: State, run: seq<Call>, x: string)
    requires Shaped(s)
    ensures x in s.resets && s.resets[x].usedAt.Some?
      ==> x in After(s, run).resets && After(s, run).resets[x] == s.resets[x]
    ensures x in s.verifications && s.verifications[x].usedAt.Some? ==>
      x in After(s, run).verifications && After(s, run).verifications[x] == s.verifications[x]
    decreases |run|
  {
    hide Exec, Shaped;
    if run != [] {
      ExecKeepsShape(s, run[0].op, run[0].now, run[0].calls);
      ShapedIsUnique(s);
      OneTimeRowsStay(s, run[0].op, run[0].now, run[0].calls, x);
      UsedForever(Exec(s, run[0].op, run[0].now, run[0].calls), run[1..], x);
    }
  }

  /** After a reset the token can be used again, within its lifetime, exactly when recording its use failed. */
  lemma ResetTokenReusableIff(s: State, op: Op, now: int, calls: Calls, later: int)
    requires Shaped(s) && SetsPassword(s, op, now, calls) && later <= s.resets[op.text].expiresAt
    ensures Usable(Exec(s, op, now, calls).resets, op.text, later) <==> !calls(2)
  {
    OneTimeTablesAfter(s, op, now, calls);
    hide Exec, UniqueEmails;
  }

  /** When that write succeeds, a reset token changes a password at most once in any run. */
  lemma ResetAtMostOnce(s: State, run: seq<Call>, i: nat, j: nat, u: int, v: int, text: string)
    requires Shaped(s) && i < j < |run|
    requires ResetsPassword(s, run, i, u, text) && run[i].calls(2)
    ensures !ResetsPassword(s, run, j, v, text)
  {
    hide Exec, Shaped;
    var (a, b) := (At(s, run, i), At(s, run, i + 1));
    ResetUses(a, run[i].op, run[i].now, run[i].calls);
    AtNext(s, run, i);
    var middle := run[i + 1..j];
    assert run[..j][..i + 1] == run[..i + 1] && run[..j][i + 1..] == middle;
    AfterSplit(s, run[..j], i + 1);
    UsedForever(b, middle, text);
  }

  lemma ResetUses(s: State, op: Op, now: int, calls: Calls)
    requires Shaped(s) && SetsPassword(s, op, now, calls) && calls(2)
    ensures var s' := Exec(s, op, now, calls); op.text in s'.resets && s'.resets[op.text].usedAt.Some?
  {
    OneTimeTablesAfter(s, op, now, calls);
    hide Exec, UniqueEmails;
  }

  /** A reset or verification token enters its table only for the owner of the address it was requested for. */
  lemma TokensAreRequested(s: State, op: Op, now: int, calls: Calls, x: string)
    requires Shaped(s)
    ensures var s' := Exec(s, op, now, calls);
      && (x in s'.resets && x !in s.resets ==>
            op.RequestPasswordReset? && HasEmail(s, op.email, s'.resets[x].userId)
              && s'.resets[x] == OneTime(s'.resets[x].userId, now + RESET_TTL, None))
      && (x in s'.verifications && x !in s.verifications ==>
            op.RequestEmailVerification? && HasEmail(s, op.email, s'.verifications[x].userId)
              && !s.users[s'.verifications[x].userId].verified)
  {
    OneTimeTablesAfter(s, op, now, calls);
    hide Exec, UniqueEmails;
  }

  // ----- verified addresses -----

  /** Each verified user has consumed a verification token. */
  ghost predicate VerifiedByToken(s: State) {
    forall u | u in s.users && s.users[u].verified :: exists x ::
      x in s.verifications && s.verifications[x].userId == u && s.verifications[x].usedAt.Some?
  }

  lemma VerifiedStaysAndHasCause(s: State, op: Op, now: int, calls: Calls)
    requires Shaped(s)
    ensures forall u | u in s.users && s.users[u].verified ::
      u in Exec(s, op, now, calls).users && Exec(s, op, now, calls).users[u].verified
    ensures VerifiedByToken(s) && (SetsVerified(s, op, now, calls) ==> calls(2))
      ==> VerifiedByToken(Exec(s, op, now, calls))
  {
    var s' := Exec(s, op, now, calls);
    UserTableAfter(s, op, now, calls);
    OneTimeTablesAfter(s, op, now, calls);
    hide Exec, UniqueEmails;
    if VerifiedByToken(s) && (SetsVerified(s, op, now, calls) ==> calls(2)) {
      forall u | u in s'.users && s'.users[u].verified
        ensures exists x :: x in s'.verifications && s'.verifications[x].userId == u && s'.verifications[x].usedAt.Some?
      {
        if u in s.users && s.users[u].verified {
          var x :| x in s.verifications && s.verifications[x].userId == u && s.verifications[x].usedAt.Some?;
          assert x in s'.verifications && s'.verifications[x] == s.verifications[x];
        } else {
          assert SetsVerified(s, op, now, calls) && op.text in s'.verifications;
        }
      }
    }
  }

  ghost predicate VerificationsRecorded(s: State, run: seq<Call>)
    requires Shaped(s)
  {
    forall k | 0 <= k < |run| :: SetsVerified(At(s, run, k), run[k].op, run[k].now, run[k].calls) ==> run[k].calls(2)
  }

  /** Over any run a verified address stays verified; and when recording the uses never fails, every verified user has
      consumed a verification token issued to them. */
  lemma {:induction false} VerifiedOverRun(s: State, run: seq<Call>, k: nat)
    requires Shaped(s) && k <= |run|
    ensures forall u | u in s.users && s.users[u].verified ::
      u in At(s, run, k).users && At(s, run, k).users[u].verified
    ensures VerifiedByToken(s) && VerificationsRecorded(s, run) ==> VerifiedByToken(At(s, run, k))
    decreases k
  {
    hide Exec, Shaped, VerifiedByToken, SetsVerified;
    if k == 0 {
      assert run[..0] == [];
    } else {
      VerifiedOverRun(s, run, k - 1);
      AtNext(s, run, k - 1);
      VerifiedStaysAndHasCause(At(s, run, k - 1), run[k - 1].op, run[k - 1].now, run[k - 1].calls);
    }
  }

  /** The k-th operation verifies user u by way of this token, which is unused and unexpired. */
  ghost predicate Verifies(s: State, run: seq<Call>, k: nat, u: int, text: string)
    requires Shaped(s) && k < |run|
  {
    && SetsVerified(At(s, run, k), run[k].op, run[k].now, run[k].calls) && run[k].op.text == text
    && At(s, run, k).verifications[text].userId == u
  }

  lemma VerifiedBy(s: State, op: Op, now: int, calls: Calls, u: int)
    requires Shaped(s)
    ensures var s' := Exec(s, op, now, calls);
      u in s'.users && s'.users[u].verified
      <==> (u in s.users && s.users[u].verified) || (SetsVerified(s, op, now, calls)
                                                     && s.verifications[op.text].userId == u)
  {
    UserTableAfter(s, op, now, calls);
    hide Exec, Usable, UniqueEmails;
  }

  /** Whatever fails, a user is verified after a run exactly when already verified before it or set so, in the run, by a
      verification token of that user, unused and unexpired at the time. */
  lemma {:induction false} VerifiedIff(s: State, run: seq<Call>, u: int)
    requires Shaped(s)
    ensures u in After(s, run).users && After(s, run).users[u].verified
      <==> (u in s.users && s.users[u].verified) || exists k, text :: 0 <= k < |run| && Verifies(s, run, k, u, text)
    decreases |run|
  {
    hide Exec, Shaped;
    if run != [] {
      var (n, c) := (|run| - 1, run[|run| - 1]);
      VerifiedIff(s, run[..n], u);
      AtNext(s, run, n);
      assert run[..|run|] == run;
      VerifiedBy(At(s, run, n), c.op, c.now, c.calls, u);
      VerifiesInFront(s, run, u);
      assert run[..n][..n] == run[..n] && |run[..n]| == n;
      if SetsVerified(At(s, run, n), c.op, c.now, c.calls) && At(s, run, n).verifications[c.op.text].userId == u {
        assert Verifies(s, run, n, u, c.op.text);
      }
      if k, text :| 0 <= k < n && Verifies(s, run[..n], k, u, text) {
        assert Verifies(s, run, k, u, text);
      }
      if k, text :| 0 <= k < |run| && Verifies(s, run, k, u, text) {
        assert k < n ==> Verifies(s, run[..n], k, u, text);
      }
    }
  }

  lemma VerifiesInFront(s: State, run: seq<Call>, u: int)
    requires Shaped(s) && run != []
    ensures forall k: nat, text | k < |run| - 1 :: Verifies(s, run[..|run| - 1], k, u, text) <==>
      Verifies(s, run, k, u, text)
  {
    hide Exec, Shaped, SetsVerified;
    var front := run[..|run| - 1];
    forall k: nat, text | k < |front|
      ensures Verifies(s, front, k, u, text) <==> Verifies(s, run, k, u, text)
    {
      assert front[..k] == run[..k] && front[k] == run[k];
    }
  }
}
