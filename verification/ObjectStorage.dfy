/** Object storage with no multi-object transaction: puts and deletes fail one by one. */
module ObjectStorage {
  import opened Domain

  /** A put that fails may or may not have written its object first. */
  datatype PutOutcome = Stored | Failed(wrote: bool)

  /** What the store will do to the puts and the cleanup deletes of one request, in order.
      A put beyond the script succeeds; so does a delete. */
  datatype Script = Script(puts: seq<PutOutcome>, deletes: seq<bool>)

  function PutAt(s: Script, i: nat): PutOutcome {
    if i < |s.puts| then s.puts[i] else Stored
  }

  predicate RemovedAt(s: Script, i: nat) {
    i < |s.deletes| ==> s.deletes[i]
  }

  datatype Upload = Upload(key: ObjectKey, data: Bytes)

  /** The objects after the first `n` puts of a batch. */
  function WithPuts(objects: Objects, batch: seq<Upload>, n: nat): Objects
    requires n <= |batch|
  {
    if n == 0 then objects
    else WithPuts(objects, batch, n - 1)[batch[n - 1].key := batch[n - 1].data]
  }

  /** The objects after a cleanup that tried to delete the first `n` keys of a batch. */
  function WithDeletes(objects: Objects, batch: seq<Upload>, s: Script, n: nat): Objects
    requires n <= |batch|
  {
    if n == 0 then objects
    else
      var before := WithDeletes(objects, batch, s, n - 1);
      if RemovedAt(s, n - 1) then before - {batch[n - 1].key} else before
  }

  /** The first put at or after `i` that fails, or `n`. */
  function FirstFailure(s: Script, i: nat, n: nat): (k: nat)
    requires i <= n
    ensures i <= k <= n
    ensures forall j :: i <= j < k ==> PutAt(s, j).Stored?
    ensures k < n ==> PutAt(s, k).Failed?
    decreases n - i
  {
    if i == n || PutAt(s, i).Failed? then i else FirstFailure(s, i + 1, n)
  }

  datatype BatchResult = BatchResult(ok: bool, objects: Objects)

  /** Write the whole batch; at the first failure, delete what was written and report it. */
  function StoreBatch(objects: Objects, batch: seq<Upload>, s: Script): BatchResult {
    var k := FirstFailure(s, 0, |batch|);
    var written := WithPuts(objects, batch, k);
    if k == |batch| then BatchResult(true, written)
    else
      var failed := if PutAt(s, k).wrote then written[batch[k].key := batch[k].data] else written;
      BatchResult(false, WithDeletes(failed, batch, s, k))
  }

  /** Server-generated keys: not in the store, and no two alike. */
  ghost predicate NewKeys(objects: Objects, batch: seq<Upload>) {
    && (forall i :: 0 <= i < |batch| ==> batch[i].key !in objects)
    && (forall i, j :: 0 <= i < j < |batch| ==> batch[i].key != batch[j].key)
  }

  lemma {:induction false} WithPutsAt(objects: Objects, batch: seq<Upload>, n: nat)
    requires n <= |batch| && NewKeys(objects, batch)
    ensures forall k :: k in objects ==>
      k in WithPuts(objects, batch, n) && WithPuts(objects, batch, n)[k] == objects[k]
    ensures forall i :: 0 <= i < n ==>
      batch[i].key in WithPuts(objects, batch, n) && WithPuts(objects, batch, n)[batch[i].key] == batch[i].data
    ensures forall k :: k in WithPuts(objects, batch, n) ==> k in objects || exists i :: 0 <= i < n && batch[i].key == k
  {
    if n == 0 {
    } else {
      WithPutsAt(objects, batch, n - 1);
      forall k | k in WithPuts(objects, batch, n)
        ensures k in objects || exists i :: 0 <= i < n && batch[i].key == k
      {
        if k !in WithPuts(objects, batch, n - 1) { assert batch[n - 1].key == k; }
      }
    }
  }

  lemma {:induction false} WithDeletesAt(objects: Objects, batch: seq<Upload>, s: Script, n: nat)
    requires n <= |batch|
    requires forall i, j :: 0 <= i < j < |batch| ==> batch[i].key != batch[j].key
    ensures forall k :: k in WithDeletes(objects, batch, s, n) <==>
      k in objects && !exists i :: 0 <= i < n && batch[i].key == k && RemovedAt(s, i)
    ensures forall k :: k in WithDeletes(objects, batch, s, n) ==> WithDeletes(objects, batch, s, n)[k] == objects[k]
  {
    if n == 0 {
    } else {
      WithDeletesAt(objects, batch, s, n - 1);
      var before, after := WithDeletes(objects, batch, s, n - 1), WithDeletes(objects, batch, s, n);
      forall k
        ensures k in after <==> k in objects && !exists i :: 0 <= i < n && batch[i].key == k && RemovedAt(s, i)
      {
        if k == batch[n - 1].key && RemovedAt(s, n - 1) {
          assert k !in after;
        } else {
          assert k in after <==> k in before;
          if i :| 0 <= i < n && batch[i].key == k && RemovedAt(s, i) { assert i < n - 1; }
        }
      }
    }
  }

  /** Whatever fails, objects that were there before are untouched, and nothing appears
      but under a key of this batch. */
  lemma StoreBatchFrame(objects: Objects, batch: seq<Upload>, s: Script)
    requires NewKeys(objects, batch)
    ensures forall k :: k in objects ==>
      k in StoreBatch(objects, batch, s).objects && StoreBatch(objects, batch, s).objects[k] == objects[k]
    ensures StoreBatch(objects, batch, s).ok ==> forall i :: 0 <= i < |batch| ==>
      && batch[i].key in StoreBatch(objects, batch, s).objects
      && StoreBatch(objects, batch, s).objects[batch[i].key] == batch[i].data
    ensures forall key :: key in StoreBatch(objects, batch, s).objects ==>
      key in objects || exists i :: 0 <= i < |batch| && batch[i].key == key
  {
    var k := FirstFailure(s, 0, |batch|);
    WithPutsAt(objects, batch, k);
    if k < |batch| {
      var written := WithPuts(objects, batch, k);
      var failed := if PutAt(s, k).wrote then written[batch[k].key := batch[k].data] else written;
      WithDeletesAt(failed, batch, s, k);
    }
  }

  /** A failed batch leaves the store exactly as it was if and only if the put that failed had
      written nothing and every cleanup delete removed its object. */
  lemma FailedBatchRestores(objects: Objects, batch: seq<Upload>, s: Script)
    requires NewKeys(objects, batch) && !StoreBatch(objects, batch, s).ok
    ensures
      var k := FirstFailure(s, 0, |batch|);
      StoreBatch(objects, batch, s).objects == objects <==>
        !PutAt(s, k).wrote && forall i :: 0 <= i < k ==> RemovedAt(s, i)
  {
    var k := FirstFailure(s, 0, |batch|);
    var after := StoreBatch(objects, batch, s).objects;
    var written := WithPuts(objects, batch, k);
    var failed := if PutAt(s, k).wrote then written[batch[k].key := batch[k].data] else written;
    WithPutsAt(objects, batch, k);
    WithDeletesAt(failed, batch, s, k);
    if PutAt(s, k).wrote {
      assert batch[k].key in failed;
      assert batch[k].key in after;
    } else if i :| 0 <= i < k && !RemovedAt(s, i) {
      assert batch[i].key in failed;
      assert batch[i].key in after;
    } else {
      forall key ensures key in after <==> key in objects {
        if key in objects {
          assert forall i :: 0 <= i < k ==> batch[i].key != key;
        } else if key in failed {
          var i :| 0 <= i < k && batch[i].key == key;
          assert RemovedAt(s, i);
        }
      }
      assert after == objects;
    }
  }
}
