/** Image uploads, to any listings, interleaved statement by statement with each other and with the
    requests that edit, sell, delete or create listings.

    The database is transactional (see `RotationUnderLocks` for the reading of locks, private writes
    and rollback); the object store is not: a put or a delete is visible at once and for good. */
module UploadsUnderLocks {
  import opened Wrappers
  import opened Domain
  import opened ImageValidation
  import opened ObjectStorage
  import Rules

  type TxId = nat

  datatype Job = Job(requester: UserId, listing: ListingId, files: seq<Bytes>)

  /** What an edit writes; a column it does not name keeps the value committed by then. */
  datatype Edit = SetContent(fields: Rules.Fields, at: Time) | SetSold(at: Time) | SetDeleted(at: Time)

  datatype Phase =
    | UploadBegun(job: Job)
    | UploadLocked(job: Job)                                          // row locked, owner and status checked
    | Writing(job: Job, start: nat, batch: seq<Upload>, written: nat) // that many puts have succeeded
    | Cleaning(batch: seq<Upload>, written: nat, deleted: nat, tidy: bool)
    | RowsAdded(job: Job, start: nat, batch: seq<Upload>)
    | EditBegun(listing: ListingId, edit: Edit)                       // row read without a lock
    | Edited(listing: ListingId, edit: Edit)
    | Created(listing: ListingId, row: Listing)
    | Finished

  datatype State = State(
    listings: map<ListingId, Listing>,
    images: seq<Image>,
    objects: Objects,
    locks: map<ListingId, TxId>,
    txs: map<TxId, Phase>)

  datatype Step =
    | BeginUpload(tx: TxId, job: Job)
    | LockListing(tx: TxId)
    | CountAndCheck(tx: TxId, uuids: seq<nat>)
    | Put(tx: TxId, outcome: PutOutcome)
    | Delete(tx: TxId, removed: bool)
    | EndCleanup(tx: TxId)
    | AddRows(tx: TxId)
    | BeginEdit(tx: TxId, listing: ListingId, edit: Edit)
    | FlushEdit(tx: TxId)
    | Create(tx: TxId, listing: ListingId, row: Listing)
    | Commit(tx: TxId)
    | Rollback(tx: TxId)

  predicate Free(s: State, l: ListingId, tx: TxId) {
    l in s.locks ==> s.locks[l] == tx
  }

  function BatchOf(p: Phase): seq<Upload> {
    match p
    case Writing(_, _, batch, _) => batch
    case Cleaning(batch, _, _, _) => batch
    case RowsAdded(_, _, batch) => batch
    case _ => []
  }

  predicate InBatch(batch: seq<Upload>, k: ObjectKey) {
    exists i :: 0 <= i < |batch| && batch[i].key == k
  }

  /** Generated keys: different from each other, from every stored object and from every open batch. */
  ghost predicate FreshBatch(s: State, batch: seq<Upload>) {
    && (forall i, j :: 0 <= i < j < |batch| ==> batch[i].key != batch[j].key)
    && (forall i :: 0 <= i < |batch| ==> batch[i].key !in s.objects)
    && (forall t, k :: t in s.txs && InBatch(batch, k) ==> !InBatch(BatchOf(s.txs[t]), k))
  }

  /** The check an edit makes on the row it read. */
  predicate EditAllowed(row: Listing, edit: Edit) {
    if edit.SetDeleted? then row.status != Deleted else row.status == Available
  }

  /** The batch the upload writes, if its files pass the checks. */
  function Planned(s: State, job: Job, uuids: seq<nat>): Option<seq<Upload>> {
    var checked := Rules.CheckFiles(|ImagesOf(s.images, job.listing)|, job.files);
    if checked.Ok? then Some(Rules.BatchFor(job.listing, checked.value, uuids)) else None
  }

  ghost predicate Enabled(s: State, step: Step) {
    match step
    case BeginUpload(tx, _) => tx !in s.txs
    case LockListing(tx) => tx in s.txs && s.txs[tx].UploadBegun? && Free(s, s.txs[tx].job.listing, tx)
    case CountAndCheck(tx, uuids) =>
      tx in s.txs && s.txs[tx].UploadLocked? &&
      var plan := Planned(s, s.txs[tx].job, uuids);
      plan.Some? ==> FreshBatch(s, plan.value)
    case Put(tx, _) => tx in s.txs && s.txs[tx].Writing? && s.txs[tx].written < |s.txs[tx].batch|
    case Delete(tx, _) =>
      tx in s.txs && s.txs[tx].Cleaning? && s.txs[tx].deleted < s.txs[tx].written <= |s.txs[tx].batch|
    case EndCleanup(tx) => tx in s.txs && s.txs[tx].Cleaning? && s.txs[tx].deleted == s.txs[tx].written
    case AddRows(tx) => tx in s.txs && s.txs[tx].Writing? && s.txs[tx].written == |s.txs[tx].batch|
    case BeginEdit(tx, l, edit) => tx !in s.txs && l in s.listings && EditAllowed(s.listings[l], edit)
    case FlushEdit(tx) => tx in s.txs && s.txs[tx].EditBegun? && Free(s, s.txs[tx].listing, tx)
    case Create(tx, l, row) =>
      && tx !in s.txs && l !in s.listings && row.status == Available
      && forall t :: t in s.txs && s.txs[t].Created? ==> s.txs[t].listing != l
    case Commit(tx) =>
      tx in s.txs && (s.txs[tx].RowsAdded? || s.txs[tx].Edited? || s.txs[tx].Created? || s.txs[tx].Finished?)
    case Rollback(tx) => tx in s.txs
  }

  function Unlocked(locks: map<ListingId, TxId>, tx: TxId): map<ListingId, TxId> {
    map l | l in locks && locks[l] != tx :: locks[l]
  }

  function At(s: State, tx: TxId, p: Phase): State {
    s.(txs := s.txs[tx := p])
  }

  function EditedRow(row: Listing, edit: Edit): Listing {
    match edit
    case SetContent(fields, at) => row.(content := Rules.Applied(row.content, fields), updatedAt := at)
    case SetSold(at) => row.(status := Sold, soldAt := Some(at), updatedAt := at)
    case SetDeleted(at) => row.(status := Deleted, updatedAt := at)
  }

  function Publish(s: State, p: Phase): State {
    match p
    case RowsAdded(job, start, batch) => s.(images := s.images + Rules.RowsFor(job.listing, start, batch))
    case Edited(l, edit) =>
      if l in s.listings then s.(listings := s.listings[l := EditedRow(s.listings[l], edit)]) else s
    case Created(l, row) => s.(listings := s.listings[l := row])
    case _ => s
  }

  ghost function Apply(s: State, step: Step): State
    requires Enabled(s, step)
  {
    match step
    case BeginUpload(tx, job) => At(s, tx, UploadBegun(job))
    case LockListing(tx) =>
      var job := s.txs[tx].job;
      var locked := if job.listing in s.listings then s.(locks := s.locks[job.listing := tx]) else s;
      var checked := Rules.RequireEditable(Rules.FindIn(s.listings, job.listing), job.requester);
      At(locked, tx, if checked.Ok? then UploadLocked(job) else Finished)
    case CountAndCheck(tx, uuids) =>
      var job := s.txs[tx].job;
      var plan := Planned(s, job, uuids);
      At(s, tx, if plan.Some? then Writing(job, |ImagesOf(s.images, job.listing)|, plan.value, 0) else Finished)
    case Put(tx, outcome) =>
      var p := s.txs[tx];
      var u := p.batch[p.written];
      var objects := if outcome == Failed(false) then s.objects else s.objects[u.key := u.data];
      At(s.(objects := objects), tx,
        if outcome.Stored? then Writing(p.job, p.start, p.batch, p.written + 1)
        else Cleaning(p.batch, p.written, 0, !outcome.wrote))
    case Delete(tx, removed) =>
      var p := s.txs[tx];
      var objects := if removed then s.objects - {p.batch[p.deleted].key} else s.objects;
      At(s.(objects := objects), tx, Cleaning(p.batch, p.written, p.deleted + 1, p.tidy && removed))
    case EndCleanup(tx) => At(s, tx, Finished)
    case AddRows(tx) => At(s, tx, RowsAdded(s.txs[tx].job, s.txs[tx].start, s.txs[tx].batch))
    case BeginEdit(tx, l, edit) => At(s, tx, EditBegun(l, edit))
    case FlushEdit(tx) =>
      var l := s.txs[tx].listing;
      At(s.(locks := s.locks[l := tx]), tx, Edited(l, s.txs[tx].edit))
    case Create(tx, l, row) => At(s, tx, Created(l, row))
    case Commit(tx) => Publish(s, s.txs[tx]).(locks := Unlocked(s.locks, tx), txs := s.txs - {tx})
    case Rollback(tx) => s.(locks := Unlocked(s.locks, tx), txs := s.txs - {tx})
  }

  // ---- runs ----

  ghost function Run(s: State, steps: seq<Step>): Option<State> {
    if steps == [] then Some(s)
    else
      var before := Run(s, steps[..|steps| - 1]);
      if before.None? || !Enabled(before.value, steps[|steps| - 1]) then None
      else Some(Apply(before.value, steps[|steps| - 1]))
  }

  const EMPTY := State(map[], [], map[], map[], map[])

  ghost predicate Reachable(s: State) {
    exists steps :: Run(EMPTY, steps) == Some(s)
  }

  // ---- what the committed state looks like ----

  /** The images of a listing are numbered 0, 1, ... in order, and there are at most six. */
  ghost predicate Numbered(images: seq<Image>, l: ListingId) {
    var mine := ImagesOf(images, l);
    |mine| <= Rules.MAX_IMAGES_PER_LISTING && forall i :: 0 <= i < |mine| ==> mine[i].position == i
  }

  /** The row's key maps to stored bytes of the type its extension names, within the size cap. */
  ghost predicate Backed(objects: Objects, image: Image) {
    image.key in objects && Storable(objects[image.key], image.key.extension)
  }

  ghost predicate Consistent(s: State) {
    && (forall l :: Numbered(s.images, l))
    && (forall i :: 0 <= i < |s.images| ==> Backed(s.objects, s.images[i]) && s.images[i].listing in s.listings)
  }

  // ---- what open transactions rely on ----

  /** The upload holds the row lock, and the listing is still available and its requester's. */
  ghost predicate Holds(s: State, tx: TxId, job: Job) {
    && job.listing in s.locks && s.locks[job.listing] == tx
    && Rules.RequireEditable(Rules.FindIn(s.listings, job.listing), job.requester).Ok?
  }

  ghost predicate Written(objects: Objects, batch: seq<Upload>, n: nat)
    requires n <= |batch|
  {
    forall i :: 0 <= i < n ==> batch[i].key in objects && objects[batch[i].key] == batch[i].data
  }

  ghost predicate Absent(objects: Objects, batch: seq<Upload>, lo: nat, hi: nat)
    requires lo <= hi <= |batch|
  {
    forall i :: lo <= i < hi ==> batch[i].key !in objects
  }

  /** An object that the clean-up has passed over, or will never come to, is still there. */
  ghost predicate Leftover(objects: Objects, batch: seq<Upload>, written: nat, deleted: nat) {
    exists i :: 0 <= i < |batch| && !(deleted <= i < written) && batch[i].key in objects
  }

  /** The batch is the one the serial rule would write for the images committed now. */
  ghost predicate PlanOk(s: State, job: Job, start: nat, batch: seq<Upload>) {
    && start == |ImagesOf(s.images, job.listing)|
    && exists uuids :: Planned(s, job, uuids) == Some(batch)
  }

  ghost predicate PhaseOk(s: State, tx: TxId, p: Phase) {
    match p
    case UploadLocked(job) => Holds(s, tx, job)
    case Writing(job, start, batch, written) =>
      && Holds(s, tx, job) && PlanOk(s, job, start, batch)
      && written <= |batch| && Written(s.objects, batch, written) && Absent(s.objects, batch, written, |batch|)
    case RowsAdded(job, start, batch) =>
      Holds(s, tx, job) && PlanOk(s, job, start, batch) && Written(s.objects, batch, |batch|)
    case Cleaning(batch, written, deleted, tidy) =>
      && deleted <= written <= |batch|
      && (forall i :: deleted <= i < written ==> batch[i].key in s.objects)
      && (!tidy ==> Leftover(s.objects, batch, written, deleted))
      && (tidy ==> Absent(s.objects, batch, 0, deleted) && Absent(s.objects, batch, written, |batch|))
    case EditBegun(l, _) => l in s.listings
    case Edited(l, _) => l in s.listings && l in s.locks && s.locks[l] == tx
    case Created(l, row) => l !in s.listings && row.status == Available
    case _ => true
  }

  ghost predicate NoRowUses(images: seq<Image>, k: ObjectKey) {
    forall i :: 0 <= i < |images| ==> images[i].key != k
  }

  /** The keys of open batches are used by no committed row, and by one batch only. */
  ghost predicate KeysApart(s: State) {
    && (forall t, k :: t in s.txs && InBatch(BatchOf(s.txs[t]), k) ==> NoRowUses(s.images, k))
    && (forall t, u, k :: t in s.txs && u in s.txs && t != u && InBatch(BatchOf(s.txs[t]), k) ==>
          !InBatch(BatchOf(s.txs[u]), k))
    && (forall t, i, j :: t in s.txs && 0 <= i < j < |BatchOf(s.txs[t])| ==>
          BatchOf(s.txs[t])[i].key != BatchOf(s.txs[t])[j].key)
  }

  ghost predicate CreatesApart(s: State) {
    forall t, u :: t in s.txs && u in s.txs && t != u && s.txs[t].Created? && s.txs[u].Created? ==>
      s.txs[t].listing != s.txs[u].listing
  }

  ghost predicate Inv(s: State) {
    && Consistent(s)
    && (forall t :: t in s.txs ==> PhaseOk(s, t, s.txs[t]))
    && KeysApart(s) && CreatesApart(s)
    && s.locks.Keys <= s.listings.Keys
  }

  // ---- steps on the database that publish nothing ----

  ghost predicate LocksOnly(locks: map<ListingId, TxId>, locks2: map<ListingId, TxId>) {
    forall l :: l in locks ==> l in locks2 && locks2[l] == locks[l]
  }

  lemma SamePlan(s: State, s2: State, job: Job, start: nat, batch: seq<Upload>)
    requires PlanOk(s, job, start, batch) && ImagesOf(s2.images, job.listing) == ImagesOf(s.images, job.listing)
    ensures PlanOk(s2, job, start, batch)
  {
    var uuids :| Planned(s, job, uuids) == Some(batch);
    assert Planned(s2, job, uuids) == Some(batch);
  }

  /** A transaction keeps what it relies on as long as the rows it has locked, the images of its
      listing and the objects of its batch are left alone. */
  lemma Unaffected(s: State, s2: State, t: TxId, p: Phase)
    requires PhaseOk(s, t, p)
    requires forall l :: l in s.locks && s.locks[l] == t ==>
      l in s2.locks && s2.locks[l] == t && Rules.FindIn(s2.listings, l) == Rules.FindIn(s.listings, l)
      && ImagesOf(s2.images, l) == ImagesOf(s.images, l)
    requires SameObjects(s.objects, s2.objects, BatchOf(p))
    requires s.listings.Keys <= s2.listings.Keys
    requires p.Created? ==> p.listing in s.listings || p.listing !in s2.listings
    ensures PhaseOk(s2, t, p)
  {
    if p.Writing? || p.RowsAdded? { SamePlan(s, s2, p.job, p.start, p.batch); }
    var batch := BatchOf(p);
    forall i | 0 <= i < |batch| ensures InBatch(batch, batch[i].key) {}
  }

  ghost predicate SameObjects(objects: Objects, objects2: Objects, batch: seq<Upload>) {
    forall k :: InBatch(batch, k) ==>
      (k in objects <==> k in objects2) && (k in objects ==> objects2[k] == objects[k])
  }

  /** A step that changes one transaction and takes locks nobody else holds. */
  lemma PrivateStep(s: State, s2: State, tx: TxId)
    requires Inv(s) && s2.listings == s.listings && s2.images == s.images && s2.objects == s.objects
    requires LocksOnly(s.locks, s2.locks) && s2.locks.Keys <= s.listings.Keys
    requires tx in s2.txs && s2.txs == s.txs[tx := s2.txs[tx]]
    requires PhaseOk(s2, tx, s2.txs[tx])
    requires BatchOf(s2.txs[tx]) == [] || (tx in s.txs && BatchOf(s2.txs[tx]) == BatchOf(s.txs[tx]))
    requires !s2.txs[tx].Created?
    ensures Inv(s2)
  {
    hide PhaseOk, Numbered, Backed;
    forall t | t in s2.txs ensures PhaseOk(s2, t, s2.txs[t]) {
      if t != tx { Unaffected(s, s2, t, s.txs[t]); }
    }
  }

  lemma BeginKeepsInv(s: State, step: Step)
    requires Inv(s) && Enabled(s, step) && (step.BeginUpload? || step.BeginEdit?)
    ensures Inv(Apply(s, step))
  {
    PrivateStep(s, Apply(s, step), step.tx);
  }

  lemma LockKeepsInv(s: State, step: Step)
    requires Inv(s) && Enabled(s, step) && (step.LockListing? || step.FlushEdit?)
    ensures Inv(Apply(s, step))
  {
    assert PhaseOk(s, step.tx, s.txs[step.tx]);
    PrivateStep(s, Apply(s, step), step.tx);
  }

  lemma FinishKeepsInv(s: State, step: Step)
    requires Inv(s) && Enabled(s, step) && (step.EndCleanup? || step.AddRows?)
    ensures Inv(Apply(s, step))
  {
    var p, s2 := s.txs[step.tx], Apply(s, step);
    assert PhaseOk(s, step.tx, p);
    if step.AddRows? { SamePlan(s, s2, p.job, p.start, p.batch); }
    PrivateStep(s, s2, step.tx);
  }

  lemma CreateKeepsInv(s: State, step: Step)
    requires Inv(s) && Enabled(s, step) && step.Create?
    ensures Inv(Apply(s, step))
  {
    hide Validate, Storable, Planned, ImagesOf;
    var s2 := Apply(s, step);
    forall t | t in s2.txs ensures PhaseOk(s2, t, s2.txs[t]) {
      if t != step.tx { Unaffected(s, s2, t, s.txs[t]); }
    }
  }

  lemma CountKeepsInv(s: State, step: Step)
    requires Inv(s) && Enabled(s, step) && step.CountAndCheck?
    ensures Inv(Apply(s, step))
  {
    hide Backed, Validate, Numbered;
    var tx, job := step.tx, s.txs[step.tx].job;
    var plan, s2 := Planned(s, job, step.uuids), Apply(s, step);
    assert PhaseOk(s, tx, s.txs[tx]);
    if plan.None? {
      PrivateStep(s, s2, tx);
    } else {
      var batch := plan.value;
      assert Planned(s2, job, step.uuids) == Some(batch);
      assert PlanOk(s2, job, |ImagesOf(s.images, job.listing)|, batch);
      forall t | t in s2.txs ensures PhaseOk(s2, t, s2.txs[t]) {
        if t != tx { Unaffected(s, s2, t, s.txs[t]); }
      }
      NewBatchApart(s, s2, tx, batch);
    }
  }

  lemma NewBatchApart(s: State, s2: State, tx: TxId, batch: seq<Upload>)
    requires Inv(s) && FreshBatch(s, batch) && tx in s.txs && tx in s2.txs
    requires s2.images == s.images && s2.txs == s.txs[tx := s2.txs[tx]] && BatchOf(s2.txs[tx]) == batch
    ensures KeysApart(s2)
  {
  }

  // ---- steps on the object store ----

  /** Writing or removing one object of one's own open batch affects nobody else. */
  lemma ObjectStep(s: State, s2: State, tx: TxId, k: ObjectKey)
    requires Inv(s) && tx in s.txs && InBatch(BatchOf(s.txs[tx]), k)
    requires s2.listings == s.listings && s2.images == s.images && s2.locks == s.locks
    requires forall j :: j != k ==>
      (j in s.objects <==> j in s2.objects) && (j in s.objects ==> s2.objects[j] == s.objects[j])
    requires tx in s2.txs && s2.txs == s.txs[tx := s2.txs[tx]] && BatchOf(s2.txs[tx]) == BatchOf(s.txs[tx])
    requires !s2.txs[tx].Created? && PhaseOk(s2, tx, s2.txs[tx])
    ensures Inv(s2)
  {
    hide Storable, Numbered, Planned, ImagesOf, PhaseOk;
    forall t | t in s2.txs ensures PhaseOk(s2, t, s2.txs[t]) {
      if t != tx {
        assert !InBatch(BatchOf(s.txs[t]), k);
        Unaffected(s, s2, t, s.txs[t]);
      }
    }
    assert NoRowUses(s.images, k);
    forall i | 0 <= i < |s2.images| ensures Backed(s2.objects, s2.images[i]) && s2.images[i].listing in s2.listings {
      assert Backed(s.objects, s.images[i]);
    }
  }

  /** The object a put is about to write belongs to this batch, at this index only. */
  lemma NextKey(s: State, tx: TxId)
    requires Inv(s) && tx in s.txs && s.txs[tx].Writing? && s.txs[tx].written < |s.txs[tx].batch|
    ensures
      var p := s.txs[tx];
      && InBatch(BatchOf(p), p.batch[p.written].key)
      && forall i :: 0 <= i < |p.batch| && i != p.written ==> p.batch[i].key != p.batch[p.written].key
  {
  }

  lemma StoredKeepsInv(s: State, step: Step)
    requires Inv(s) && Enabled(s, step) && step.Put? && step.outcome.Stored?
    ensures Inv(Apply(s, step))
  {
    hide Validate, Storable, Planned, ImagesOf;
    var p, s2 := s.txs[step.tx], Apply(s, step);
    assert PhaseOk(s, step.tx, p);
    NextKey(s, step.tx);
    SamePlan(s, s2, p.job, p.start, p.batch);
    ObjectStep(s, s2, step.tx, p.batch[p.written].key);
  }

  lemma FailedKeepsInv(s: State, step: Step)
    requires Inv(s) && Enabled(s, step) && step.Put? && step.outcome.Failed?
    ensures Inv(Apply(s, step))
  {
    hide Validate, Storable, Planned, ImagesOf, Consistent;
    var p, s2 := s.txs[step.tx], Apply(s, step);
    assert PhaseOk(s, step.tx, p);
    NextKey(s, step.tx);
    ObjectStep(s, s2, step.tx, p.batch[p.written].key);
  }

  lemma DeleteKeepsInv(s: State, step: Step)
    requires Inv(s) && Enabled(s, step) && step.Delete?
    ensures Inv(Apply(s, step))
  {
    hide Validate, Storable, Planned, ImagesOf;
    var p, s2 := s.txs[step.tx], Apply(s, step);
    assert PhaseOk(s, step.tx, p);
    var k := p.batch[p.deleted].key;
    assert InBatch(BatchOf(p), k);
    ObjectStep(s, s2, step.tx, k);
  }

  // ---- the end of a transaction ----

  lemma RollbackKeepsInv(s: State, tx: TxId)
    requires Inv(s) && tx in s.txs
    ensures Inv(Apply(s, Rollback(tx)))
  {
    var s2 := Apply(s, Rollback(tx));
    forall t | t in s2.txs ensures PhaseOk(s2, t, s2.txs[t]) {
      Unaffected(s, s2, t, s.txs[t]);
    }
  }

  lemma {:induction false} ImagesOfAppend(images: seq<Image>, rows: seq<Image>, l: ListingId, m: ListingId)
    requires forall i :: 0 <= i < |rows| ==> rows[i].listing == l
    ensures ImagesOf(images + rows, m) == if m == l then ImagesOf(images, m) + rows else ImagesOf(images, m)
  {
    if rows == [] {
      assert images + rows == images;
    } else {
      ImagesOfAppend(images, rows[..|rows| - 1], l, m);
      assert (images + rows)[..|images + rows| - 1] == images + rows[..|rows| - 1];
    }
  }

  /** What an upload about to commit knows. */
  lemma ReadyUpload(s: State, tx: TxId)
    requires Inv(s) && tx in s.txs && s.txs[tx].RowsAdded?
    ensures
      var p := s.txs[tx];
      && p.start == |ImagesOf(s.images, p.job.listing)| && p.start + |p.batch| <= Rules.MAX_IMAGES_PER_LISTING
      && p.job.listing in s.listings && s.listings[p.job.listing].status == Available
      && s.listings[p.job.listing].ownerId == p.job.requester
      && forall i :: 0 <= i < |p.batch| ==>
           && p.batch[i].key in s.objects && s.objects[p.batch[i].key] == p.batch[i].data
           && Storable(p.batch[i].data, p.batch[i].key.extension)
  {
  }

  lemma UploadCommitIsConsistent(s: State, tx: TxId)
    requires Inv(s) && tx in s.txs && s.txs[tx].RowsAdded?
    ensures Consistent(Apply(s, Commit(tx)))
  {
    hide Storable, PhaseOk, KeysApart, CreatesApart, Planned;
    var p, s2 := s.txs[tx], Apply(s, Commit(tx));
    var rows := Rules.RowsFor(p.job.listing, p.start, p.batch);
    ReadyUpload(s, tx);
    forall l ensures Numbered(s2.images, l) {
      ImagesOfAppend(s.images, rows, p.job.listing, l);
      assert Numbered(s.images, l);
    }
    forall i | 0 <= i < |s2.images| ensures Backed(s2.objects, s2.images[i]) && s2.images[i].listing in s2.listings {
      if i < |s.images| { assert Backed(s.objects, s.images[i]); }
    }
  }

  lemma UploadCommitKeepsInv(s: State, tx: TxId)
    requires Inv(s) && tx in s.txs && s.txs[tx].RowsAdded?
    ensures Inv(Apply(s, Commit(tx)))
  {
    hide Validate, Planned;
    var p, s2 := s.txs[tx], Apply(s, Commit(tx));
    var rows := Rules.RowsFor(p.job.listing, p.start, p.batch);
    assert PhaseOk(s, tx, p);
    UploadCommitIsConsistent(s, tx);
    forall t | t in s2.txs ensures PhaseOk(s2, t, s2.txs[t]) {
      forall l | l in s.locks && s.locks[l] == t ensures ImagesOf(s2.images, l) == ImagesOf(s.images, l) {
        ImagesOfAppend(s.images, rows, p.job.listing, l);
      }
      Unaffected(s, s2, t, s.txs[t]);
    }
    forall t, k | t in s2.txs && InBatch(BatchOf(s2.txs[t]), k) ensures NoRowUses(s2.images, k) {
      assert NoRowUses(s.images, k);
      forall i | |s.images| <= i < |s2.images| ensures s2.images[i].key != k {
        assert InBatch(BatchOf(p), s2.images[i].key);
      }
    }
  }

  lemma EditCommitKeepsInv(s: State, tx: TxId)
    requires Inv(s) && tx in s.txs && (s.txs[tx].Edited? || s.txs[tx].Created? || s.txs[tx].Finished?)
    ensures Inv(Apply(s, Commit(tx)))
  {
    var s2 := Apply(s, Commit(tx));
    assert PhaseOk(s, tx, s.txs[tx]);
    forall t | t in s2.txs ensures PhaseOk(s2, t, s2.txs[t]) {
      Unaffected(s, s2, t, s.txs[t]);
    }
  }

  // ---- whole runs ----

  lemma StepKeepsInv(s: State, step: Step)
    requires Inv(s) && Enabled(s, step)
    ensures Inv(Apply(s, step))
  {
    match step
    case BeginUpload(_, _) => BeginKeepsInv(s, step);
    case LockListing(_) => LockKeepsInv(s, step);
    case CountAndCheck(_, _) => CountKeepsInv(s, step);
    case Put(_, outcome) =>
      if outcome.Stored? { StoredKeepsInv(s, step); } else { FailedKeepsInv(s, step); }
    case Delete(_, _) => DeleteKeepsInv(s, step);
    case EndCleanup(_) => FinishKeepsInv(s, step);
    case AddRows(_) => FinishKeepsInv(s, step);
    case BeginEdit(_, _, _) => BeginKeepsInv(s, step);
    case FlushEdit(_) => LockKeepsInv(s, step);
    case Create(_, _, _) => CreateKeepsInv(s, step);
    case Commit(tx) =>
      if s.txs[tx].RowsAdded? { UploadCommitKeepsInv(s, tx); } else { EditCommitKeepsInv(s, tx); }
    case Rollback(tx) => RollbackKeepsInv(s, tx);
  }

  lemma {:induction false} RunKeepsInv(s: State, steps: seq<Step>)
    requires Inv(s) && Run(s, steps).Some?
    ensures Inv(Run(s, steps).value)
  {
    if steps != [] {
      var init := steps[..|steps| - 1];
      RunKeepsInv(s, init);
      StepKeepsInv(Run(s, init).value, steps[|steps| - 1]);
    }
  }

  lemma ReachableInv(s: State)
    requires Reachable(s)
    ensures Inv(s)
  {
    var steps :| Run(EMPTY, steps) == Some(s);
    RunKeepsInv(EMPTY, steps);
  }

  /** However uploads and edits interleave, whichever puts and deletes fail, and whichever transactions
      are rolled back: every committed listing's images are numbered 0 to n - 1 in order with n at most
      six, and every image row's key maps to stored bytes of the type its extension names, within the cap. */
  lemma CommittedImagesAreSound(s: State)
    requires Reachable(s)
    ensures forall l :: Numbered(s.images, l)
    ensures forall i :: 0 <= i < |s.images| ==> Backed(s.objects, s.images[i])
  {
    ReachableInv(s);
  }

  /** Rows are only ever committed by an upload, to one listing, which is available at that commit. */
  lemma RowsGoToAvailableListings(s: State, step: Step)
    requires Reachable(s) && Enabled(s, step) && Apply(s, step).images != s.images
    ensures step.Commit? && s.txs[step.tx].RowsAdded?
    ensures
      var s2, l := Apply(s, step), s.txs[step.tx].job.listing;
      && s.images <= s2.images
      && (forall i :: |s.images| <= i < |s2.images| ==> s2.images[i].listing == l)
      && l in s2.listings && s2.listings[l].status == Available && s.listings[l] == s2.listings[l]
  {
    ReachableInv(s);
    assert step.Commit?;
    ReadyUpload(s, step.tx);
  }

  /** Each committed upload is the serial upload rule applied to exactly the committed state it joins,
      with the keys it generated and a store in which every put succeeded. */
  lemma UploadIsSerial(s: State, tx: TxId, db: Db, objects: Objects)
    requires Reachable(s) && Enabled(s, Commit(tx)) && s.txs[tx].RowsAdded?
    requires db.listings == s.listings && db.images == s.images
    ensures
      var job := s.txs[tx].job;
      exists env: Rules.Env :: env.script == Script([], []) &&
        var serial := Rules.UploadOwn(db, objects, env, job.requester, job.listing, job.files);
        && serial.outcome.Ok?
        && serial.db.images == Apply(s, Commit(tx)).images
        && serial.db.listings == Apply(s, Commit(tx)).listings
  {
    hide Reachable, Run, KeysApart, CreatesApart, Consistent, Validate, Unlocked;
    ReachableInv(s);
    var p := s.txs[tx];
    assert PhaseOk(s, tx, p);
    var uuids :| Planned(s, p.job, uuids) == Some(p.batch);
    var env := Rules.Env(
      Rules.Settings(0, 0, key => key), 0, {}, Rules.Minted(0, 0, 0, 0, "", uuids), false, Script([], []));
    NothingFails(0, |p.batch|);
    var serial := Rules.UploadOwn(db, objects, env, p.job.requester, p.job.listing, p.job.files);
    assert serial.outcome.Ok? && serial.db.images == Apply(s, Commit(tx)).images;
  }

  lemma NothingFails(i: nat, n: nat)
    requires i <= n
    ensures FirstFailure(Script([], []), i, n) == n
    decreases n - i
  {
  }

  /** By the time a failed upload ends, whatever else was going on, it has left no object behind if and
      only if the failing put wrote nothing and the deletes all removed their objects. */
  lemma TidyCleanupLeavesNothing(s: State, tx: TxId)
    requires Reachable(s) && Enabled(s, EndCleanup(tx))
    ensures s.txs[tx].tidy <==> forall i :: 0 <= i < |s.txs[tx].batch| ==> s.txs[tx].batch[i].key !in s.objects
  {
    ReachableInv(s);
    assert PhaseOk(s, tx, s.txs[tx]);
  }
}
