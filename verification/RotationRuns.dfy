/** The interleaved token requests do what the serial ones do: undisturbed, each of them runs to its end and
    commits exactly the serial result. */
module RotationRuns {
  import opened Wrappers
  import opened Domain
  import opened RefreshTokens
  import opened RotationUnderLocks

  /** No transaction is open. */
  predicate Quiet(s: State) {
    s.txs == map[] && s.locks == map[]
  }

  /** The steps lead from one quiet state to another, in which the committed rows are these. */
  ghost predicate Commits(s: State, steps: seq<Step>, rows: TokenTable) {
    Run(s, steps).Some? && Quiet(Run(s, steps).value) && Run(s, steps).value.rows == rows
  }

  lemma Then(s: State, steps: seq<Step>, s1: State, step: Step)
    requires Run(s, steps) == Some(s1) && Enabled(s1, step)
    ensures Run(s, steps + [step]) == Some(Apply(s1, step))
  {
    assert (steps + [step])[..|steps + [step]| - 1] == steps;
  }

  lemma {:induction false} Onward(s: State, steps: seq<Step>, s1: State, more: seq<Step>)
    requires Run(s, steps) == Some(s1) && Run(s1, more).Some?
    ensures Run(s, steps + more) == Run(s1, more)
  {
    hide Enabled, Apply;
    if more == [] {
      assert steps + more == steps;
    } else {
      Onward(s, steps, s1, more[..|more| - 1]);
      assert (steps + more)[..|steps + more| - 1] == steps + more[..|more| - 1];
    }
  }

  lemma CommitAlone(s: State, tx: TxId, t: Tx)
    requires s.txs == map[tx := t] && t.phase.Finished? && forall h :: h in s.locks ==> s.locks[h] == tx
    ensures Enabled(s, Commit(tx))
    ensures Quiet(Apply(s, Commit(tx))) && Apply(s, Commit(tx)).rows == Published(s.rows, t)
  {
  }

  lemma PublishedRotation(rows: TokenTable, h: TokenHash, now: Time, minted: TokenHash, ttl: nat)
    requires !Unusable(rows, h, now) && !rows[h].revoked
    ensures
      var row := RefreshToken(rows[h].userId, rows[h].familyId, false, now + ttl);
      Published(rows, Tx(Finished, {h}, Some(Insert(minted, row, Some(Source(h, now)))))) ==
      RefreshTokens.Refresh(rows, h, now, minted, ttl).table
  {
  }

  /** Transaction `tx` is alone, and its UPDATE has rows left to revoke, or none. */
  ghost predicate Sweeping(s: State, tx: TxId, targets: set<TokenHash>) {
    && tx in s.txs && s.txs == map[tx := s.txs[tx]]
    && s.txs[tx].phase == BulkRevoking(targets) && s.txs[tx].insert.None? && s.txs[tx].revokes <= targets
    && forall h :: h in s.locks ==> s.locks[h] == tx
  }

  lemma SweepOne(s: State, tx: TxId, targets: set<TokenHash>, h: TokenHash)
    requires Sweeping(s, tx, targets) && h in targets && h !in s.txs[tx].revokes
    ensures Enabled(s, RevokeOne(tx, h))
    ensures
      var s1 := Apply(s, RevokeOne(tx, h));
      Sweeping(s1, tx, targets) && s1.rows == s.rows && s1.txs[tx].revokes == s.txs[tx].revokes + {h}
  {
  }

  lemma SweepEnds(s: State, tx: TxId, targets: set<TokenHash>) returns (steps: seq<Step>)
    requires Sweeping(s, tx, targets) && s.txs[tx].revokes == targets
    ensures Commits(s, steps, Published(s.rows, Tx(Finished, targets, None)))
  {
    var s1 := Apply(s, EndBulk(tx));
    Then(s, [], s, EndBulk(tx));
    Then(s, [] + [EndBulk(tx)], s1, Commit(tx));
    steps := [] + [EndBulk(tx)] + [Commit(tx)];
    assert s1.txs[tx] == Tx(Finished, targets, None);
  }

  /** An undisturbed UPDATE works through its rows and is committed. */
  lemma {:induction false} SweepCommits(s: State, tx: TxId, targets: set<TokenHash>) returns (steps: seq<Step>)
    requires Sweeping(s, tx, targets)
    ensures Commits(s, steps, Published(s.rows, Tx(Finished, targets, None)))
    decreases targets - s.txs[tx].revokes
  {
    hide Enabled, Apply, Published, Quiet;
    if targets - s.txs[tx].revokes == {} {
      assert forall h :: h in targets ==> h !in targets - s.txs[tx].revokes;
      assert s.txs[tx].revokes == targets;
      steps := SweepEnds(s, tx, targets);
    } else {
      var h :| h in targets - s.txs[tx].revokes;
      SweepOne(s, tx, targets, h);
      var s1 := Apply(s, RevokeOne(tx, h));
      var more := SweepCommits(s1, tx, targets);
      Then(s, [], s, RevokeOne(tx, h));
      Onward(s, [] + [RevokeOne(tx, h)], s1, more);
      steps := [] + [RevokeOne(tx, h)] + more;
    }
  }

  /** A refresh that finds its token unusable commits nothing. */
  lemma RefusedRefreshCommits(s: State, tx: TxId, h: TokenHash, now: Time) returns (steps: seq<Step>)
    requires Quiet(s) && Unusable(s.rows, h, now)
    ensures Commits(s, steps, s.rows)
  {
    var s1 := Apply(s, BeginRefresh(tx, h));
    var s2 := Apply(s1, LockAndRead(tx, now));
    Then(s, [], s, BeginRefresh(tx, h));
    Then(s, [] + [BeginRefresh(tx, h)], s1, LockAndRead(tx, now));
    Then(s, [] + [BeginRefresh(tx, h)] + [LockAndRead(tx, now)], s2, Commit(tx));
    steps := [] + [BeginRefresh(tx, h)] + [LockAndRead(tx, now)] + [Commit(tx)];
    assert Published(s.rows, s2.txs[tx]) == s.rows;
  }

  /** A refresh that finds its token revoked commits the revocation of the family. */
  lemma ReuseCommits(s: State, tx: TxId, h: TokenHash, now: Time) returns (steps: seq<Step>)
    requires Quiet(s) && IsReuse(s.rows, h, now)
    ensures Commits(s, steps, FamilyRevoked(s.rows, s.rows[h].familyId))
  {
    var f := s.rows[h].familyId;
    var s1 := Apply(s, BeginRefresh(tx, h));
    var s2 := Apply(s1, LockAndRead(tx, now));
    var s3 := Apply(s2, BeginFamilyRevoke(tx));
    Then(s, [], s, BeginRefresh(tx, h));
    Then(s, [] + [BeginRefresh(tx, h)], s1, LockAndRead(tx, now));
    Then(s, [] + [BeginRefresh(tx, h)] + [LockAndRead(tx, now)], s2, BeginFamilyRevoke(tx));
    var start := [] + [BeginRefresh(tx, h)] + [LockAndRead(tx, now)] + [BeginFamilyRevoke(tx)];
    var more := SweepCommits(s3, tx, InFamily(s.rows, f));
    Onward(s, start, s3, more);
    steps := start + more;
    assert Published(s.rows, Tx(Finished, InFamily(s.rows, f), None)) == FamilyRevoked(s.rows, f);
  }

  /** A refresh that finds its token live commits the rotation. */
  lemma RotationCommits(s: State, tx: TxId, h: TokenHash, now: Time, minted: TokenHash, ttl: nat)
    returns (steps: seq<Step>)
    requires Quiet(s) && !Unusable(s.rows, h, now) && !s.rows[h].revoked && minted !in s.rows
    ensures Commits(s, steps, RefreshTokens.Refresh(s.rows, h, now, minted, ttl).table)
  {
    var s1 := Apply(s, BeginRefresh(tx, h));
    var s2 := Apply(s1, LockAndRead(tx, now));
    Then(s, [], s, BeginRefresh(tx, h));
    Then(s, [] + [BeginRefresh(tx, h)], s1, LockAndRead(tx, now));
    var start := [] + [BeginRefresh(tx, h)] + [LockAndRead(tx, now)];
    var more := AcceptedCommits(s2, tx, h, now, minted, ttl);
    Onward(s, start, s2, more);
    steps := start + more;
  }

  lemma AcceptedCommits(s: State, tx: TxId, h: TokenHash, now: Time, minted: TokenHash, ttl: nat)
    returns (steps: seq<Step>)
    requires s.txs == map[tx := Tx(RefreshAccepted(h, now), {}, None)] && s.locks == map[h := tx]
    requires !Unusable(s.rows, h, now) && !s.rows[h].revoked && minted !in s.rows
    ensures Commits(s, steps, RefreshTokens.Refresh(s.rows, h, now, minted, ttl).table)
  {
    var none: set<TokenHash> := {};
    assert none + {h} == {h};
    var row := RefreshToken(s.rows[h].userId, s.rows[h].familyId, false, now + ttl);
    var t := Tx(Finished, {h}, Some(Insert(minted, row, Some(Source(h, now)))));
    var s1 := s.(txs := map[tx := Tx(RefreshRevoked(h, now), {h}, None)]);
    var s2 := s.(txs := map[tx := t]);
    assert Enabled(s, FlushRevoke(tx)) && Apply(s, FlushRevoke(tx)) == s1;
    assert Enabled(s1, FlushInsert(tx, minted, ttl)) && Apply(s1, FlushInsert(tx, minted, ttl)) == s2;
    hide Run, Apply, Enabled, Published;
    RunNothing(s);
    Then(s, [], s, FlushRevoke(tx));
    Then(s, [] + [FlushRevoke(tx)], s1, FlushInsert(tx, minted, ttl));
    CommitAlone(s2, tx, t);
    Then(s, [] + [FlushRevoke(tx)] + [FlushInsert(tx, minted, ttl)], s2, Commit(tx));
    steps := [] + [FlushRevoke(tx)] + [FlushInsert(tx, minted, ttl)] + [Commit(tx)];
    PublishedRotation(s.rows, h, now, minted, ttl);
  }

  lemma RunNothing(s: State)
    ensures Run(s, []) == Some(s)
  {
  }

  /** Undisturbed, a refresh request commits exactly what the serial refresh computes, in each of its three
      branches. */
  lemma RefreshCommitsSerially(s: State, tx: TxId, h: TokenHash, now: Time, minted: TokenHash, ttl: nat)
    requires Quiet(s) && minted !in s.rows
    ensures exists steps :: Commits(s, steps, RefreshTokens.Refresh(s.rows, h, now, minted, ttl).table)
  {
    if Unusable(s.rows, h, now) {
      var steps := RefusedRefreshCommits(s, tx, h, now);
      assert Commits(s, steps, RefreshTokens.Refresh(s.rows, h, now, minted, ttl).table) by { hide Commits; }
    } else if s.rows[h].revoked {
      var steps := ReuseCommits(s, tx, h, now);
      assert Commits(s, steps, RefreshTokens.Refresh(s.rows, h, now, minted, ttl).table) by { hide Commits; }
    } else {
      var steps := RotationCommits(s, tx, h, now, minted, ttl);
    }
  }

  /** And so do a login, a logout and the revocation of all of a user's tokens. */
  lemma OthersCommitSerially(
    s: State, tx: TxId, u: UserId, f: FamilyId, minted: TokenHash, expiresAt: Time, h: TokenHash)
    requires Quiet(s) && minted !in s.rows && UnusedFamily(s.rows, f)
    ensures exists steps :: Commits(s, steps, Created(s.rows, minted, RefreshToken(u, f, false, expiresAt)))
    ensures
      var rows := if Live(s.rows, h) then Revoked(s.rows, h) else s.rows;
      exists steps :: Commits(s, steps, rows)
    ensures exists steps :: Commits(s, steps, UserRevoked(s.rows, u))
  {
    var login := LoginCommits(s, tx, u, f, minted, expiresAt);
    var logout := LogoutCommits(s, tx, h);
    var sweep := UserRevokeCommits(s, tx, u);
    hide Commits;
  }

  lemma LoginCommits(s: State, tx: TxId, u: UserId, f: FamilyId, minted: TokenHash, expiresAt: Time)
    returns (steps: seq<Step>)
    requires Quiet(s) && minted !in s.rows && UnusedFamily(s.rows, f)
    ensures Commits(s, steps, Created(s.rows, minted, RefreshToken(u, f, false, expiresAt)))
  {
    var begin := BeginLogin(tx, u, f, minted, expiresAt);
    var s1 := Apply(s, begin);
    Then(s, [], s, begin);
    Then(s, [] + [begin], s1, Commit(tx));
    steps := [] + [begin] + [Commit(tx)];
    assert Published(s.rows, s1.txs[tx]) == Created(s.rows, minted, RefreshToken(u, f, false, expiresAt));
  }

  lemma LogoutCommits(s: State, tx: TxId, h: TokenHash) returns (steps: seq<Step>)
    requires Quiet(s)
    ensures Commits(s, steps, if Live(s.rows, h) then Revoked(s.rows, h) else s.rows)
  {
    var s1 := Apply(s, BeginLogout(tx, h));
    Then(s, [], s, BeginLogout(tx, h));
    if Live(s.rows, h) {
      var s2 := Apply(s1, FlushLogout(tx));
      Then(s, [] + [BeginLogout(tx, h)], s1, FlushLogout(tx));
      Then(s, [] + [BeginLogout(tx, h)] + [FlushLogout(tx)], s2, Commit(tx));
      steps := [] + [BeginLogout(tx, h)] + [FlushLogout(tx)] + [Commit(tx)];
      assert Published(s.rows, s2.txs[tx]) == Revoked(s.rows, h);
    } else {
      Then(s, [] + [BeginLogout(tx, h)], s1, Commit(tx));
      steps := [] + [BeginLogout(tx, h)] + [Commit(tx)];
      assert Published(s.rows, s1.txs[tx]) == s.rows;
    }
  }

  lemma UserRevokeCommits(s: State, tx: TxId, u: UserId) returns (steps: seq<Step>)
    requires Quiet(s)
    ensures Commits(s, steps, UserRevoked(s.rows, u))
  {
    var s1 := Apply(s, BeginUserRevoke(tx, u));
    Then(s, [], s, BeginUserRevoke(tx, u));
    var more := SweepCommits(s1, tx, LiveOfUser(s.rows, u));
    Onward(s, [] + [BeginUserRevoke(tx, u)], s1, more);
    steps := [] + [BeginUserRevoke(tx, u)] + more;
    assert Published(s.rows, Tx(Finished, LiveOfUser(s.rows, u), None)) == UserRevoked(s.rows, u);
  }
}
