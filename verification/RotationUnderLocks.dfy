/** Refresh-token requests interleaved statement by statement, with row locks.

    Each transaction sees only committed rows, writes privately, and publishes everything at once
    when it commits. A write to an existing row needs that row's lock and holds it to the end of
    the transaction; so does `SELECT ... FOR UPDATE`, which reads the row it has just locked. A step
    that would wait for a lock is simply not enabled. Any transaction can be rolled back at any time. */
module RotationUnderLocks {
  import opened Wrappers
  import opened Domain
  import opened RefreshTokens

  type TxId = nat

  /** Where a transaction is. */
  datatype Phase =
    | RefreshBegun(presented: TokenHash)
    | RefreshAccepted(presented: TokenHash, now: Time)  // row locked, read, and found usable
    | RefreshRevoked(presented: TokenHash, now: Time)   // the revocation is flushed
    | ReuseDetected(family: FamilyId)                   // row locked, read, and found revoked
    | LogoutAccepted(presented: TokenHash)              // row read without a lock, found unrevoked
    | BulkRevoking(targets: set<TokenHash>)             // an UPDATE working through its rows
    | Finished                                          // nothing left to do but commit

  /** Which token an insertion replaces, and when it was read. */
  datatype Source = Source(token: TokenHash, readAt: Time)

  datatype Insert = Insert(hash: TokenHash, row: RefreshToken, source: Option<Source>)

  /** `revokes` and `insert` are the private writes. */
  datatype Tx = Tx(phase: Phase, revokes: set<TokenHash>, insert: Option<Insert>)

  /** `order` and `parent` record history for the properties: committed tokens by the order of their
      commits, and which token each rotation replaced. */
  datatype State = State(
    rows: TokenTable,
    locks: map<TokenHash, TxId>,
    txs: map<TxId, Tx>,
    order: seq<TokenHash>,
    parent: map<TokenHash, TokenHash>)

  datatype Step =
    | BeginRefresh(tx: TxId, presented: TokenHash)
    | LockAndRead(tx: TxId, now: Time)
    | BeginFamilyRevoke(tx: TxId)
    | FlushRevoke(tx: TxId)
    | FlushInsert(tx: TxId, minted: TokenHash, ttl: nat)
    | BeginLogin(tx: TxId, user: UserId, family: FamilyId, minted: TokenHash, expiresAt: Time)
    | BeginLogout(tx: TxId, presented: TokenHash)
    | FlushLogout(tx: TxId)
    | BeginUserRevoke(tx: TxId, user: UserId)
    | RevokeOne(tx: TxId, row: TokenHash)
    | EndBulk(tx: TxId)
    | Commit(tx: TxId)
    | Rollback(tx: TxId)

  predicate Free(s: State, h: TokenHash, tx: TxId) {
    h in s.locks ==> s.locks[h] == tx
  }

  predicate At(s: State, tx: TxId) {
    tx in s.txs
  }

  /** A generated token is new, and so is a generated family, also to transactions still open. */
  predicate NewToken(s: State, h: TokenHash) {
    h !in s.rows && forall t :: t in s.txs && s.txs[t].insert.Some? ==> s.txs[t].insert.value.hash != h
  }

  predicate NewFamily(s: State, f: FamilyId) {
    && (forall h :: h in s.rows ==> s.rows[h].familyId != f)
    && (forall t :: t in s.txs && s.txs[t].insert.Some? ==> s.txs[t].insert.value.row.familyId != f)
  }

  predicate Enabled(s: State, step: Step) {
    match step
    case BeginRefresh(tx, _) => tx !in s.txs
    case LockAndRead(tx, _) => At(s, tx) && s.txs[tx].phase.RefreshBegun? && Free(s, s.txs[tx].phase.presented, tx)
    case BeginFamilyRevoke(tx) => At(s, tx) && s.txs[tx].phase.ReuseDetected?
    case FlushRevoke(tx) => At(s, tx) && s.txs[tx].phase.RefreshAccepted?
    case FlushInsert(tx, minted, _) => At(s, tx) && s.txs[tx].phase.RefreshRevoked? && NewToken(s, minted)
    case BeginLogin(tx, _, family, minted, _) => tx !in s.txs && NewToken(s, minted) && NewFamily(s, family)
    case BeginLogout(tx, _) => tx !in s.txs
    case FlushLogout(tx) => At(s, tx) && s.txs[tx].phase.LogoutAccepted? && Free(s, s.txs[tx].phase.presented, tx)
    case BeginUserRevoke(tx, _) => tx !in s.txs
    case RevokeOne(tx, h) =>
      && At(s, tx) && s.txs[tx].phase.BulkRevoking?
      && h in s.txs[tx].phase.targets && h !in s.txs[tx].revokes && Free(s, h, tx)
    case EndBulk(tx) => At(s, tx) && s.txs[tx].phase.BulkRevoking? && s.txs[tx].phase.targets <= s.txs[tx].revokes
    case Commit(tx) => At(s, tx) && s.txs[tx].phase.Finished?
    case Rollback(tx) => At(s, tx)
  }

  function With(s: State, tx: TxId, t: Tx): State {
    s.(txs := s.txs[tx := t])
  }

  function InFamily(rows: TokenTable, f: FamilyId): set<TokenHash> {
    set h | h in rows && rows[h].familyId == f
  }

  function LiveOfUser(rows: TokenTable, u: UserId): set<TokenHash> {
    set h | h in rows && rows[h].userId == u && !rows[h].revoked
  }

  /** What the request does with the row it has locked: the three branches of `refresh`. */
  function AfterRead(s: State, h: TokenHash, now: Time): Phase {
    if Unusable(s.rows, h, now) then Finished
    else if s.rows[h].revoked then ReuseDetected(s.rows[h].familyId)
    else RefreshAccepted(h, now)
  }

  function Unlocked(locks: map<TokenHash, TxId>, tx: TxId): map<TokenHash, TxId> {
    map h | h in locks && locks[h] != tx :: locks[h]
  }

  /** Publish a transaction's writes. */
  function Published(rows: TokenTable, t: Tx): TokenTable {
    var revoked := map h | h in rows :: if h in t.revokes then rows[h].(revoked := true) else rows[h];
    if t.insert.Some? then revoked[t.insert.value.hash := t.insert.value.row] else revoked
  }

  function Apply(s: State, step: Step): State
    requires Enabled(s, step)
  {
    match step
    case BeginRefresh(tx, h) => With(s, tx, Tx(RefreshBegun(h), {}, None))
    case LockAndRead(tx, now) =>
      var h := s.txs[tx].phase.presented;
      var locked := if h in s.rows then s.(locks := s.locks[h := tx]) else s;
      With(locked, tx, s.txs[tx].(phase := AfterRead(s, h, now)))
    case BeginFamilyRevoke(tx) =>
      With(s, tx, s.txs[tx].(phase := BulkRevoking(InFamily(s.rows, s.txs[tx].phase.family))))
    case FlushRevoke(tx) =>
      var p := s.txs[tx].phase;
      With(s, tx, s.txs[tx].(phase := RefreshRevoked(p.presented, p.now), revokes := s.txs[tx].revokes + {p.presented}))
    case FlushInsert(tx, minted, ttl) =>
      var p := s.txs[tx].phase;
      if p.presented !in s.rows then s
      else
        var stored := s.rows[p.presented];
        var row := RefreshToken(stored.userId, stored.familyId, false, p.now + ttl);
        var insert := Insert(minted, row, Some(Source(p.presented, p.now)));
        With(s, tx, s.txs[tx].(phase := Finished, insert := Some(insert)))
    case BeginLogin(tx, u, f, minted, expiresAt) =>
      With(s, tx, Tx(Finished, {}, Some(Insert(minted, RefreshToken(u, f, false, expiresAt), None))))
    case BeginLogout(tx, h) =>
      With(s, tx, Tx(if Live(s.rows, h) then LogoutAccepted(h) else Finished, {}, None))
    case FlushLogout(tx) =>
      var h := s.txs[tx].phase.presented;
      With(s.(locks := s.locks[h := tx]), tx, s.txs[tx].(phase := Finished, revokes := s.txs[tx].revokes + {h}))
    case BeginUserRevoke(tx, u) => With(s, tx, Tx(BulkRevoking(LiveOfUser(s.rows, u)), {}, None))
    case RevokeOne(tx, h) =>
      With(s.(locks := s.locks[h := tx]), tx, s.txs[tx].(revokes := s.txs[tx].revokes + {h}))
    case EndBulk(tx) => With(s, tx, s.txs[tx].(phase := Finished))
    case Commit(tx) =>
      var t := s.txs[tx];
      State(
        Published(s.rows, t),
        Unlocked(s.locks, tx),
        s.txs - {tx},
        if t.insert.Some? then s.order + [t.insert.value.hash] else s.order,
        if t.insert.Some? && t.insert.value.source.Some? then
          s.parent[t.insert.value.hash := t.insert.value.source.value.token]
        else s.parent)
    case Rollback(tx) => s.(locks := Unlocked(s.locks, tx), txs := s.txs - {tx})
  }

  // ---- runs ----

  function Run(s: State, steps: seq<Step>): Option<State> {
    if steps == [] then Some(s)
    else
      var before := Run(s, steps[..|steps| - 1]);
      if before.None? || !Enabled(before.value, steps[|steps| - 1]) then None
      else Some(Apply(before.value, steps[|steps| - 1]))
  }

  const EMPTY := State(map[], map[], map[], [], map[])

  ghost predicate Reachable(s: State) {
    exists steps :: Run(EMPTY, steps) == Some(s)
  }

  // ---- what the committed state looks like ----

  ghost predicate History(rows: TokenTable, order: seq<TokenHash>) {
    && (forall h :: h in order <==> h in rows)
    && (forall i, j :: 0 <= i < j < |order| ==> order[i] != order[j])
  }

  predicate SameFamily(rows: TokenTable, g: TokenHash, h: TokenHash) {
    g in rows && h in rows && rows[g].familyId == rows[h].familyId
  }

  /** Only the newest token of a family can be unrevoked. */
  ghost predicate NewestOnly(rows: TokenTable, order: seq<TokenHash>) {
    forall i, j :: 0 <= i < j < |order| && SameFamily(rows, order[i], order[j]) ==> !Live(rows, order[i])
  }

  /** A successor is in the family of the token it replaced, of the same user, and that token is revoked. */
  ghost predicate Succeeds(rows: TokenTable, h: TokenHash, from: TokenHash) {
    SameFamily(rows, h, from) && rows[from].revoked && rows[from].userId == rows[h].userId
  }

  /** A token is rotated at most once. */
  ghost predicate Chains(rows: TokenTable, parent: map<TokenHash, TokenHash>) {
    && (forall h :: h in parent ==> Succeeds(rows, h, parent[h]))
    && (forall g, h :: g in parent && h in parent && parent[g] == parent[h] ==> g == h)
  }

  // ---- what open transactions rely on ----

  /** Transaction `id` holds the lock of a row, and the row is unrevoked in the committed state. */
  ghost predicate Holds(rows: TokenTable, locks: map<TokenHash, TxId>, id: TxId, h: TokenHash) {
    h in locks && locks[h] == id && Live(rows, h)
  }

  ghost predicate PhaseOk(rows: TokenTable, locks: map<TokenHash, TxId>, id: TxId, t: Tx) {
    match t.phase
    case RefreshBegun(_) => t.revokes == {} && t.insert.None?
    case RefreshAccepted(h, now) =>
      Holds(rows, locks, id, h) && t.revokes == {} && t.insert.None? && now <= rows[h].expiresAt
    case RefreshRevoked(h, now) =>
      Holds(rows, locks, id, h) && t.revokes == {h} && t.insert.None? && now <= rows[h].expiresAt
    case ReuseDetected(_) => t.revokes == {} && t.insert.None?
    case LogoutAccepted(h) => h in rows && t.revokes == {} && t.insert.None?
    case BulkRevoking(targets) => t.insert.None? && targets <= rows.Keys
    case Finished => true
  }

  /** A rotation about to be committed: the row it replaces is locked and as it was read. */
  ghost predicate RotationOk(
    rows: TokenTable, locks: map<TokenHash, TxId>, id: TxId, t: Tx, row: RefreshToken, src: Source)
  {
    && Holds(rows, locks, id, src.token) && t.revokes == {src.token}
    && rows[src.token].familyId == row.familyId && rows[src.token].userId == row.userId
    && src.readAt <= rows[src.token].expiresAt && src.readAt <= row.expiresAt
  }

  ghost predicate InsertOk(rows: TokenTable, locks: map<TokenHash, TxId>, id: TxId, t: Tx, i: Insert) {
    && i.hash !in rows && !i.row.revoked
    && if i.source.Some? then RotationOk(rows, locks, id, t, i.row, i.source.value)
       else t.revokes == {} && UnusedFamily(rows, i.row.familyId)
  }

  ghost predicate TxOk(rows: TokenTable, locks: map<TokenHash, TxId>, id: TxId, t: Tx) {
    && (forall h :: h in t.revokes ==> h in locks && locks[h] == id)
    && PhaseOk(rows, locks, id, t)
    && (t.insert.Some? ==> InsertOk(rows, locks, id, t, t.insert.value))
  }

  /** Two open insertions do not collide: not on tokens, and not on the family of a login. */
  ghost predicate Distinct(i: Insert, j: Insert) {
    && i.hash != j.hash
    && (i.source.None? || j.source.None? ==> i.row.familyId != j.row.familyId)
  }

  ghost predicate Apart(txs: map<TxId, Tx>) {
    forall a, b :: a in txs && b in txs && a != b && txs[a].insert.Some? && txs[b].insert.Some? ==>
      Distinct(txs[a].insert.value, txs[b].insert.value)
  }

  ghost predicate Committed(s: State) {
    Disciplined(s.rows) && History(s.rows, s.order) && NewestOnly(s.rows, s.order) && Chains(s.rows, s.parent)
  }

  ghost predicate Inv(s: State) {
    && Committed(s)
    && (forall id :: id in s.txs ==> TxOk(s.rows, s.locks, id, s.txs[id]))
    && Apart(s.txs)
  }

  // ---- steps that publish nothing ----

  ghost predicate LocksOnly(locks: map<TokenHash, TxId>, locks2: map<TokenHash, TxId>) {
    forall h :: h in locks ==> h in locks2 && locks2[h] == locks[h]
  }

  /** A step that only changes one transaction, and takes locks nobody else holds. */
  lemma PrivateStep(s: State, s2: State, id: TxId)
    requires Inv(s) && s2.rows == s.rows && s2.order == s.order && s2.parent == s.parent
    requires LocksOnly(s.locks, s2.locks)
    requires id in s2.txs && s2.txs == s.txs[id := s2.txs[id]]
    requires TxOk(s2.rows, s2.locks, id, s2.txs[id])
    requires s2.txs[id].insert.Some? ==> forall a :: a in s.txs && a != id && s.txs[a].insert.Some? ==>
      Distinct(s.txs[a].insert.value, s2.txs[id].insert.value)
    ensures Inv(s2)
  {
    forall t | t in s2.txs ensures TxOk(s2.rows, s2.locks, t, s2.txs[t]) {
      if t != id { assert TxOk(s.rows, s.locks, t, s.txs[t]); }
    }
    forall a, b | a in s2.txs && b in s2.txs && a != b && s2.txs[a].insert.Some? && s2.txs[b].insert.Some?
      ensures Distinct(s2.txs[a].insert.value, s2.txs[b].insert.value)
    {
      if a != id && b != id { assert Distinct(s.txs[a].insert.value, s.txs[b].insert.value); }
    }
  }

  lemma BeginKeepsInv(s: State, step: Step)
    requires Inv(s) && Enabled(s, step)
    requires step.BeginRefresh? || step.BeginLogout? || step.BeginUserRevoke?
    ensures Inv(Apply(s, step))
  {
    PrivateStep(s, Apply(s, step), step.tx);
  }

  lemma BeginLoginKeepsInv(s: State, step: Step)
    requires Inv(s) && Enabled(s, step) && step.BeginLogin?
    ensures Inv(Apply(s, step))
  {
  }

  lemma LockAndReadKeepsInv(s: State, step: Step)
    requires Inv(s) && Enabled(s, step) && step.LockAndRead?
    ensures Inv(Apply(s, step))
  {
    assert TxOk(s.rows, s.locks, step.tx, s.txs[step.tx]);
    PrivateStep(s, Apply(s, step), step.tx);
  }

  lemma FlushKeepsInv(s: State, step: Step)
    requires Inv(s) && Enabled(s, step)
    requires step.BeginFamilyRevoke? || step.FlushRevoke? || step.FlushLogout? || step.RevokeOne? || step.EndBulk?
    ensures Inv(Apply(s, step))
  {
    hide Committed, Distinct;
    assert TxOk(s.rows, s.locks, step.tx, s.txs[step.tx]);
    PrivateStep(s, Apply(s, step), step.tx);
  }

  lemma FlushInsertKeepsInv(s: State, step: Step)
    requires Inv(s) && Enabled(s, step) && step.FlushInsert?
    ensures Inv(Apply(s, step))
  {
  }

  // ---- the end of a transaction ----

  lemma RollbackKeepsInv(s: State, id: TxId)
    requires Inv(s) && id in s.txs
    ensures Inv(Apply(s, Rollback(id)))
  {
    var s2 := Apply(s, Rollback(id));
    forall t | t in s2.txs ensures TxOk(s2.rows, s2.locks, t, s2.txs[t]) {
      assert TxOk(s.rows, s.locks, t, s.txs[t]);
    }
  }

  /** What a transaction ready to commit will publish. */
  ghost predicate Publishable(rows: TokenTable, t: Tx) {
    t.insert.Some? ==>
      var i := t.insert.value;
      && i.hash !in rows && !i.row.revoked
      && forall h :: h in rows && rows[h].familyId == i.row.familyId ==>
           rows[h].userId == i.row.userId && (Live(rows, h) ==> h in t.revokes)
  }

  lemma ReadyIsPublishable(s: State, id: TxId)
    requires Inv(s) && id in s.txs
    ensures Publishable(s.rows, s.txs[id])
  {
  }

  lemma PublishedRows(rows: TokenTable, t: Tx)
    requires Disciplined(rows) && Publishable(rows, t)
    ensures Disciplined(Published(rows, t))
    ensures OnlyRevokes(rows, Published(rows, t))
    ensures t.insert.Some? ==> forall h :: Live(Published(rows, t), h) && h != t.insert.value.hash ==>
      Live(rows, h) && rows[h].familyId != t.insert.value.row.familyId
  {
    var rows2 := Published(rows, t);
    forall g, h | Live(rows2, g) && Live(rows2, h) && rows2[g].familyId == rows2[h].familyId ensures g == h {
      if g in rows && h in rows && t.insert.None? { assert Live(rows, g) && Live(rows, h); }
    }
  }

  lemma MoreHistory(rows: TokenTable, rows2: TokenTable, order: seq<TokenHash>, h: TokenHash)
    requires History(rows, order) && h !in rows && rows2.Keys == rows.Keys + {h}
    ensures History(rows2, order + [h])
  {
  }

  lemma OrderAfterCommit(rows: TokenTable, order: seq<TokenHash>, t: Tx)
    requires Disciplined(rows) && History(rows, order) && NewestOnly(rows, order) && Publishable(rows, t)
    ensures
      var rows2 := Published(rows, t);
      var order2 := if t.insert.Some? then order + [t.insert.value.hash] else order;
      History(rows2, order2) && NewestOnly(rows2, order2)
  {
    var rows2 := Published(rows, t);
    var order2 := if t.insert.Some? then order + [t.insert.value.hash] else order;
    PublishedRows(rows, t);
    if t.insert.Some? { MoreHistory(rows, rows2, order, t.insert.value.hash); }
    forall i, j | 0 <= i < j < |order2| && SameFamily(rows2, order2[i], order2[j])
      ensures !Live(rows2, order2[i])
    {
      assert order[i] in order;
      if j < |order| {
        assert order[j] in order;
        assert SameFamily(rows, order[i], order[j]);
      }
    }
  }

  lemma ChainsAfterCommit(rows: TokenTable, parent: map<TokenHash, TokenHash>, t: Tx, hash: TokenHash, from: TokenHash)
    requires Disciplined(rows) && Chains(rows, parent) && Publishable(rows, t)
    requires t.insert.Some? && t.insert.value.hash == hash && Live(rows, from) && from in t.revokes
    requires rows[from].familyId == t.insert.value.row.familyId
    ensures Chains(Published(rows, t), parent[hash := from])
  {
  }

  lemma ChainsKept(rows: TokenTable, rows2: TokenTable, parent: map<TokenHash, TokenHash>)
    requires Chains(rows, parent) && OnlyRevokes(rows, rows2)
    ensures Chains(rows2, parent)
  {
  }

  lemma CommitKeepsCommitted(s: State, id: TxId)
    requires Inv(s) && Enabled(s, Commit(id))
    ensures Committed(Apply(s, Commit(id)))
  {
    var t := s.txs[id];
    assert TxOk(s.rows, s.locks, id, t);
    ReadyIsPublishable(s, id);
    PublishedRows(s.rows, t);
    OrderAfterCommit(s.rows, s.order, t);
    if t.insert.Some? && t.insert.value.source.Some? {
      ChainsAfterCommit(s.rows, s.parent, t, t.insert.value.hash, t.insert.value.source.value.token);
    } else {
      ChainsKept(s.rows, Published(s.rows, t), s.parent);
    }
  }

  /** A committing transaction can only revoke rows nobody else has locked. */
  lemma CommitSparesOthers(s: State, id: TxId, other: TxId)
    requires Inv(s) && Enabled(s, Commit(id)) && other in s.txs && other != id
    ensures TxOk(Apply(s, Commit(id)).rows, Apply(s, Commit(id)).locks, other, s.txs[other])
  {
    hide Committed;
  }

  lemma CommitKeepsInv(s: State, id: TxId)
    requires Inv(s) && Enabled(s, Commit(id))
    ensures Inv(Apply(s, Commit(id)))
  {
    var s2 := Apply(s, Commit(id));
    CommitKeepsCommitted(s, id);
    forall t | t in s2.txs ensures TxOk(s2.rows, s2.locks, t, s2.txs[t]) {
      CommitSparesOthers(s, id, t);
    }
  }

  // ---- whole runs ----

  lemma StepKeepsInv(s: State, step: Step)
    requires Inv(s) && Enabled(s, step)
    ensures Inv(Apply(s, step))
  {
    match step
    case BeginRefresh(_, _) => BeginKeepsInv(s, step);
    case LockAndRead(_, _) => LockAndReadKeepsInv(s, step);
    case BeginFamilyRevoke(_) => FlushKeepsInv(s, step);
    case FlushRevoke(_) => FlushKeepsInv(s, step);
    case FlushInsert(_, _, _) => FlushInsertKeepsInv(s, step);
    case BeginLogin(_, _, _, _, _) => BeginLoginKeepsInv(s, step);
    case BeginLogout(_, _) => BeginKeepsInv(s, step);
    case FlushLogout(_) => FlushKeepsInv(s, step);
    case BeginUserRevoke(_, _) => BeginKeepsInv(s, step);
    case RevokeOne(_, _) => FlushKeepsInv(s, step);
    case EndBulk(_) => FlushKeepsInv(s, step);
    case Commit(id) => CommitKeepsInv(s, id);
    case Rollback(id) => RollbackKeepsInv(s, id);
  }

  lemma {:induction false} RunKeepsInv(s: State, steps: seq<Step>)
    requires Inv(s) && Run(s, steps).Some?
    ensures Inv(Run(s, steps).value)
  {
    if steps != [] {
      var init := steps[..|steps| - 1];
      RunKeepsInv(s, init);
      StepKeepsInv(Run(s, init).value, steps[|steps| - 1]);
    }
  }

  lemma ReachableInv(s: State)
    requires Reachable(s)
    ensures Inv(s)
  {
    var steps :| Run(EMPTY, steps) == Some(s);
    RunKeepsInv(EMPTY, steps);
  }

  /** However refreshes, logins, logouts, family and user revocations interleave, and whichever of
      them are rolled back: in every committed state a family has at most one unrevoked token, only
      its newest token can be unrevoked, and no token has been rotated twice. */
  lemma InterleavingsAreDisciplined(s: State)
    requires Reachable(s)
    ensures OneLivePerFamily(s.rows) && OneUserPerFamily(s.rows)
    ensures NewestOnly(s.rows, s.order) && Chains(s.rows, s.parent)
  {
    ReachableInv(s);
  }

  /** Each committed rotation is a serial `refresh` of exactly the committed state it is applied to,
      at the time it read its row. */
  lemma RotationIsSerial(s: State, id: TxId, i: Insert, src: Source)
    requires Reachable(s) && Enabled(s, Commit(id)) && s.txs[id].insert == Some(i) && i.source == Some(src)
    ensures src.readAt <= i.row.expiresAt
    ensures
      var serial := RefreshTokens.Refresh(s.rows, src.token, src.readAt, i.hash, i.row.expiresAt - src.readAt);
      serial.owner == Some(i.row.userId) && Apply(s, Commit(id)).rows == serial.table
  {
    hide Reachable, Run, History, NewestOnly, Chains, Apart;
    ReachableInv(s);
    assert TxOk(s.rows, s.locks, id, s.txs[id]);
    var t2 := Published(s.rows, s.txs[id]);
    var serial := RefreshTokens.Refresh(s.rows, src.token, src.readAt, i.hash, i.row.expiresAt - src.readAt).table;
    assert s.rows[src.token].revoked == false;
    assert t2.Keys == serial.Keys;
    assert forall h :: h in t2 ==> t2[h] == serial[h];
  }

  /** The transaction has passed its checks on the token and has not published yet. */
  predicate Rotating(t: Tx, h: TokenHash) {
    || (t.phase.RefreshAccepted? && t.phase.presented == h)
    || (t.phase.RefreshRevoked? && t.phase.presented == h)
    || (t.insert.Some? && t.insert.value.source.Some? && t.insert.value.source.value.token == h)
  }

  /** However many transactions present one token, at most one of them is past its checks. */
  lemma OneWinner(s: State, a: TxId, b: TxId, h: TokenHash)
    requires Reachable(s) && a in s.txs && b in s.txs && Rotating(s.txs[a], h) && Rotating(s.txs[b], h)
    ensures a == b
  {
    ReachableInv(s);
    assert TxOk(s.rows, s.locks, a, s.txs[a]) && TxOk(s.rows, s.locks, b, s.txs[b]);
  }
}
