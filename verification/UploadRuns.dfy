/** The interleaved upload does what the serial one does: undisturbed, an upload that passes its checks runs
    to its end and commits every file. */
module UploadRuns {
  import opened Wrappers
  import opened Domain
  import opened ObjectStorage
  import opened UploadsUnderLocks
  import Rules

  lemma Then(s: State, steps: seq<Step>, s1: State, step: Step)
    requires Run(s, steps) == Some(s1) && Enabled(s1, step)
    ensures Run(s, steps + [step]) == Some(Apply(s1, step))
  {
    assert (steps + [step])[..|steps + [step]| - 1] == steps;
  }

  /** The upload alone is open, and has written `n` files of its batch. */
  ghost function AfterPuts(s: State, tx: TxId, job: Job, batch: seq<Upload>, n: nat): State
    requires n <= |batch|
  {
    State(
      s.listings, s.images, WithPuts(s.objects, batch, n), map[job.listing := tx],
      map[tx := Writing(job, |ImagesOf(s.images, job.listing)|, batch, n)])
  }

  lemma {:induction false} PutsRun(s: State, tx: TxId, job: Job, batch: seq<Upload>, n: nat, before: seq<Step>)
    returns (steps: seq<Step>)
    requires n <= |batch| && Run(s, before) == Some(AfterPuts(s, tx, job, batch, 0))
    ensures Run(s, steps) == Some(AfterPuts(s, tx, job, batch, n))
  {
    hide Run;
    if n == 0 {
      steps := before;
    } else {
      var init := PutsRun(s, tx, job, batch, n - 1, before);
      var s1 := AfterPuts(s, tx, job, batch, n - 1);
      OnePut(s, tx, job, batch, n);
      Then(s, init, s1, Put(tx, Stored));
      steps := init + [Put(tx, Stored)];
    }
  }

  lemma OnePut(s: State, tx: TxId, job: Job, batch: seq<Upload>, n: nat)
    requires 0 < n <= |batch|
    ensures
      var s1 := AfterPuts(s, tx, job, batch, n - 1);
      Enabled(s1, Put(tx, Stored)) && Apply(s1, Put(tx, Stored)) == AfterPuts(s, tx, job, batch, n)
  {
    hide ImagesOf, Planned, Run;
  }

  lemma PlanIsReached(s: State, tx: TxId, job: Job, uuids: seq<nat>) returns (steps: seq<Step>)
    requires s.txs == map[] && s.locks == map[]
    requires Rules.RequireEditable(Rules.FindIn(s.listings, job.listing), job.requester).Ok?
    requires Planned(s, job, uuids).Some? && FreshBatch(s, Planned(s, job, uuids).value)
    ensures Run(s, steps) == Some(AfterPuts(s, tx, job, Planned(s, job, uuids).value, 0))
  {
    hide Planned, FreshBatch, ImagesOf;
    var s1 := Apply(s, BeginUpload(tx, job));
    Then(s, [], s, BeginUpload(tx, job));
    var s2 := Apply(s1, LockListing(tx));
    Then(s, [] + [BeginUpload(tx, job)], s1, LockListing(tx));
    var start := [] + [BeginUpload(tx, job)] + [LockListing(tx)];
    assert s2.txs == map[tx := UploadLocked(job)] && s2.locks == map[job.listing := tx];
    StillFresh(s, s2, tx, job, uuids);
    Then(s, start, s2, CountAndCheck(tx, uuids));
    steps := start + [CountAndCheck(tx, uuids)];
    assert Apply(s2, CountAndCheck(tx, uuids)) == AfterPuts(s, tx, job, Planned(s, job, uuids).value, 0);
  }

  lemma StillFresh(s: State, s2: State, tx: TxId, job: Job, uuids: seq<nat>)
    requires Planned(s, job, uuids).Some? && FreshBatch(s, Planned(s, job, uuids).value)
    requires s2.images == s.images && s2.objects == s.objects && s2.txs == map[tx := UploadLocked(job)]
    ensures Planned(s2, job, uuids) == Planned(s, job, uuids) && FreshBatch(s2, Planned(s, job, uuids).value)
  {
  }

  /** From a state with nothing open, an upload to an available listing of the requester's, whose files pass
      the checks, can be run to a commit that adds exactly its rows and its objects. */
  lemma UploadCommits(s: State, tx: TxId, job: Job, uuids: seq<nat>) returns (steps: seq<Step>)
    requires s.txs == map[] && s.locks == map[]
    requires Rules.RequireEditable(Rules.FindIn(s.listings, job.listing), job.requester).Ok?
    requires Planned(s, job, uuids).Some? && FreshBatch(s, Planned(s, job, uuids).value)
    ensures
      var batch := Planned(s, job, uuids).value;
      var rows := Rules.RowsFor(job.listing, |ImagesOf(s.images, job.listing)|, batch);
      Run(s, steps) == Some(State(
        s.listings, s.images + rows, WithPuts(s.objects, batch, |batch|), map[], map[]))
  {
    hide Planned, FreshBatch, ImagesOf, WithPuts, Run;
    var batch := Planned(s, job, uuids).value;
    var before := PlanIsReached(s, tx, job, uuids);
    var puts := PutsRun(s, tx, job, batch, |batch|, before);
    var s1 := AfterPuts(s, tx, job, batch, |batch|);
    var s2 := Apply(s1, AddRows(tx));
    Then(s, puts, s1, AddRows(tx));
    Then(s, puts + [AddRows(tx)], s2, Commit(tx));
    steps := puts + [AddRows(tx)] + [Commit(tx)];
  }

  /** From such a state an edit the listing allows can be run to a commit that changes its row as the edit
      says, and no other. */
  lemma EditCommits(s: State, tx: TxId, l: ListingId, edit: Edit) returns (steps: seq<Step>)
    requires s.txs == map[] && s.locks == map[]
    requires l in s.listings
    requires if edit.SetDeleted? then s.listings[l].status != Deleted else s.listings[l].status == Available
    ensures
      var row := s.listings[l];
      var after := match edit
        case SetContent(fields, at) => row.(content := Rules.Applied(row.content, fields), updatedAt := at)
        case SetSold(at) => row.(status := Sold, soldAt := Some(at), updatedAt := at)
        case SetDeleted(at) => row.(status := Deleted, updatedAt := at);
      Run(s, steps) == Some(s.(listings := s.listings[l := after]))
  {
    var begin := BeginEdit(tx, l, edit);
    var s1 := s.(txs := map[tx := EditBegun(l, edit)]);
    var s2 := s.(txs := map[tx := Edited(l, edit)], locks := map[l := tx]);
    assert Enabled(s, begin) && Apply(s, begin) == s1;
    assert Enabled(s1, FlushEdit(tx)) && Apply(s1, FlushEdit(tx)) == s2;
    Then(s, [], s, begin);
    Then(s, [] + [begin], s1, FlushEdit(tx));
    Then(s, [] + [begin] + [FlushEdit(tx)], s2, Commit(tx));
    steps := [] + [begin] + [FlushEdit(tx)] + [Commit(tx)];
  }

  lemma CreateCommits(s: State, tx: TxId, l: ListingId, row: Listing) returns (steps: seq<Step>)
    requires s.txs == map[] && s.locks == map[]
    requires l !in s.listings && row.status == Available
    ensures Run(s, steps) == Some(s.(listings := s.listings[l := row]))
  {
    var s1 := s.(txs := map[tx := Created(l, row)]);
    assert Apply(s, Create(tx, l, row)) == s1;
    Then(s, [], s, Create(tx, l, row));
    Then(s, [] + [Create(tx, l, row)], s1, Commit(tx));
    steps := [] + [Create(tx, l, row)] + [Commit(tx)];
  }
}
