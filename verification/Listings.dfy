/** Listings: lifecycle changes and the two-store image upload. */
module Listings {
  import opened Wrappers
  import opened Domain
  import opened ImageValidation
  import opened ObjectStorage
  import opened Sessions
  import Rules

  class StorageBackend {
    var objects: Objects
    const script: Script
    var putCount: nat
    var deleteCount: nat

    constructor (objects: Objects, script: Script)
      ensures this.objects == objects && this.script == script && putCount == 0 && deleteCount == 0
    {
      this.objects, this.script, putCount, deleteCount := objects, script, 0, 0;
    }

    /** Write one object; false stands for the exception. */
    method Put(key: ObjectKey, data: Bytes) returns (ok: bool)
      modifies this
      ensures putCount == old(putCount) + 1 && deleteCount == old(deleteCount)
      ensures ok == PutAt(script, old(putCount)).Stored?
      ensures objects ==
        if PutAt(script, old(putCount)) == Failed(false) then old(objects) else old(objects)[key := data]
    {
      var outcome := PutAt(script, putCount);
      ok := outcome.Stored?;
      if ok || outcome.wrote { objects := objects[key := data]; }
      putCount := putCount + 1;
    }

    /** Remove one object; whatever goes wrong is suppressed by the only caller. */
    method Delete(key: ObjectKey)
      modifies this
      ensures deleteCount == old(deleteCount) + 1 && putCount == old(putCount)
      ensures objects == if RemovedAt(script, old(deleteCount)) then old(objects) - {key} else old(objects)
    {
      if RemovedAt(script, deleteCount) { objects := objects - {key}; }
      deleteCount := deleteCount + 1;
    }
  }

  class ListingRepository {
    const db: Session

    constructor (db: Session)
      ensures this.db == db
    {
      this.db := db;
    }

    method GetById(l: ListingId) returns (r: Option<Listing>)
      ensures r == Rules.Find(db.pending, l)
    {
      r := if l in db.pending.listings then Some(db.pending.listings[l]) else None;
    }

    method Save(l: ListingId, row: Listing) returns (r: Outcome<()>)
      modifies db
      ensures db.committed == old(db.committed) && !r.Raised?
      ensures db.CrashedIffRefused(old(db.statements), r.Crashed?)
      ensures r.Ok? ==> db.pending == Rules.WithListing(old(db.pending), l, row)
    {
      db.pending := db.pending.(listings := db.pending.listings[l := row]);
      r := db.Flush();
    }

    method UpdateFields(env: Rules.Env, l: ListingId, fields: Rules.Fields) returns (r: Outcome<()>)
      requires l in db.pending.listings
      modifies db
      ensures db.committed == old(db.committed) && !r.Raised?
      ensures db.CrashedIffRefused(old(db.statements), r.Crashed?)
      ensures r.Ok? ==>
        var row := old(db.pending).listings[l];
        var content := Rules.Applied(row.content, fields);
        db.pending ==
          if content == row.content then old(db.pending)
          else Rules.WithListing(old(db.pending), l, row.(content := content, updatedAt := env.now))
    {
      var row := db.pending.listings[l];
      var content := row.content;
      if fields.title.Some? { content := content.(title := fields.title.value); }
      if fields.author.Some? { content := content.(author := fields.author.value); }
      if fields.description.Some? { content := content.(description := fields.description.value); }
      if fields.category.Some? { content := content.(category := fields.category.value); }
      if fields.condition.Some? { content := content.(condition := fields.condition.value); }
      if fields.price.Some? { content := content.(price := fields.price.value); }
      if content == row.content { r := db.Flush(); }
      else { r := Save(l, row.(content := content, updatedAt := env.now)); }
    }

    method MarkSold(env: Rules.Env, l: ListingId) returns (r: Outcome<()>)
      requires l in db.pending.listings
      modifies db
      ensures db.committed == old(db.committed) && !r.Raised?
      ensures db.CrashedIffRefused(old(db.statements), r.Crashed?)
      ensures r.Ok? ==> db.pending == Rules.WithListing(old(db.pending), l,
        old(db.pending).listings[l].(status := Sold, soldAt := Some(env.now), updatedAt := env.now))
    {
      r := Save(l, db.pending.listings[l].(status := Sold, soldAt := Some(env.now), updatedAt := env.now));
    }

    method SoftDelete(env: Rules.Env, l: ListingId) returns (r: Outcome<()>)
      requires l in db.pending.listings
      modifies db
      ensures db.committed == old(db.committed) && !r.Raised?
      ensures db.CrashedIffRefused(old(db.statements), r.Crashed?)
      ensures r.Ok? ==> db.pending == Rules.SoftDeleted(old(db.pending), env, l)
    {
      r := Save(l, db.pending.listings[l].(status := Deleted, updatedAt := env.now));
    }

    method CountImages(l: ListingId) returns (n: nat)
      ensures n == |ImagesOf(db.pending.images, l)|
    {
      n := 0;
      var i := 0;
      while i < |db.pending.images|
        invariant i <= |db.pending.images|
        invariant n == |ImagesOf(db.pending.images[..i], l)|
      {
        assert db.pending.images[..i + 1][..i] == db.pending.images[..i];
        if db.pending.images[i].listing == l { n := n + 1; }
        i := i + 1;
      }
      assert db.pending.images[..i] == db.pending.images;
    }

    method AddImages(rows: seq<Image>) returns (r: Outcome<()>)
      modifies db
      ensures db.committed == old(db.committed) && !r.Raised?
      ensures db.CrashedIffRefused(old(db.statements), r.Crashed?)
      ensures r.Ok? ==> db.pending == old(db.pending).(images := old(db.pending).images + rows)
    {
      db.pending := db.pending.(images := db.pending.images + rows);
      r := db.Flush();
    }
  }

  class ListingService {
    const db: Session
    const listings: ListingRepository
    const storage: StorageBackend

    ghost predicate Wired()
      reads {}
    {
      listings.db == db
    }

    constructor (db: Session, storage: StorageBackend)
      ensures this.db == db && this.storage == storage && Wired()
    {
      this.db, this.storage := db, storage;
      var listings := new ListingRepository(db);
      this.listings := listings;
    }

    method Create(env: Rules.Env, owner: UserId, content: Content) returns (r: Outcome<Rules.Reply>)
      requires Wired()
      modifies db
      ensures db.committed == old(db.committed)
      ensures db.CrashedIffRefused(old(db.statements), r.Crashed?)
      ensures r.Crashed? || Rules.Effect(r, db.pending) == Rules.CreateOwnListing(old(db.pending), env, owner, content)
    {
      var _ :- listings.Save(env.minted.listing, Listing(owner, content, Available, None, env.now, env.now));
      r := Ok(Rules.ListingReply(env.minted.listing));
    }

    method Update(env: Rules.Env, requester: UserId, l: ListingId, fields: Rules.Fields)
      returns (r: Outcome<Rules.Reply>)
      requires Wired()
      modifies db
      ensures db.committed == old(db.committed)
      ensures db.CrashedIffRefused(old(db.statements), r.Crashed?)
      ensures r.Crashed? ||
        Rules.Effect(r, db.pending) == Rules.UpdateOwnListing(old(db.pending), env, requester, l, fields)
    {
      var found := listings.GetById(l);
      var _ :- Rules.RequireEditable(found, requester);
      var _ :- listings.UpdateFields(env, l, fields);
      r := Ok(Rules.ListingReply(l));
    }

    method MarkSold(env: Rules.Env, requester: UserId, l: ListingId) returns (r: Outcome<Rules.Reply>)
      requires Wired()
      modifies db
      ensures db.committed == old(db.committed)
      ensures db.CrashedIffRefused(old(db.statements), r.Crashed?)
      ensures r.Crashed? || Rules.Effect(r, db.pending) == Rules.MarkOwnSold(old(db.pending), env, requester, l)
    {
      var found := listings.GetById(l);
      var _ :- Rules.RequireEditable(found, requester);
      var _ :- listings.MarkSold(env, l);
      r := Ok(Rules.ListingReply(l));
    }

    method Delete(env: Rules.Env, requester: UserId, l: ListingId) returns (r: Outcome<Rules.Reply>)
      requires Wired()
      modifies db
      ensures db.committed == old(db.committed)
      ensures db.CrashedIffRefused(old(db.statements), r.Crashed?)
      ensures r.Crashed? || Rules.Effect(r, db.pending) == Rules.DeleteOwn(old(db.pending), env, requester, l)
    {
      var found := listings.GetById(l);
      if found.None? { return Raised(NotFound); }
      if found.value.ownerId != requester { return Raised(Forbidden); }
      if found.value.status == Deleted { return Ok(Rules.NoContent); }
      var _ :- listings.SoftDelete(env, l);
      r := Ok(Rules.NoContent);
    }

    /** Whether a real transition happened. */
    method AdminRemove(env: Rules.Env, l: ListingId) returns (r: Outcome<bool>)
      requires Wired()
      modifies db
      ensures db.committed == old(db.committed)
      ensures db.CrashedIffRefused(old(db.statements), r.Crashed?)
      ensures r.Raised? ==> r == Raised(NotFound) && l !in old(db.pending).listings && db.pending == old(db.pending)
      ensures r.Ok? ==>
        && l in old(db.pending).listings
        && r.value == (old(db.pending).listings[l].status != Deleted)
        && db.pending == if r.value then Rules.SoftDeleted(old(db.pending), env, l) else old(db.pending)
    {
      var found := listings.GetById(l);
      if found.None? { return Raised(NotFound); }
      if found.value.status == Deleted { return Ok(false); }
      var _ :- listings.SoftDelete(env, l);
      r := Ok(true);
    }

    /** Every check that needs no storage comes first; rows are added only after every put succeeded. */
    method UploadImages(env: Rules.Env, requester: UserId, l: ListingId, files: seq<Bytes>)
      returns (r: Outcome<Rules.Reply>)
      requires Wired()
      requires storage.script == env.script && storage.putCount == 0 && storage.deleteCount == 0
      modifies db, storage
      ensures db.committed == old(db.committed)
      ensures db.CrashedIffRefused(old(db.statements), r.Crashed?)
      ensures
        var spec := Rules.UploadOwn(old(db.pending), old(storage.objects), env, requester, l, files);
        && storage.objects == spec.objects
        && (r.Crashed? || (r == spec.outcome && db.pending == spec.db))
    {
      var found := listings.GetById(l);
      var _ :- Rules.RequireEditable(found, requester);
      if files == [] { return Raised(ValidationFailed); }
      var count := listings.CountImages(l);
      if count + |files| > Rules.MAX_IMAGES_PER_LISTING { return Raised(ValidationFailed); }
      var validated := [];
      var i := 0;
      while i < |files|
        invariant i <= |files|
        invariant Validate(files[..i]) == Some(validated)
      {
        assert files[..i + 1][..i] == files[..i];
        var data := files[i];
        var contentType := Sniff(data);
        if |data| > MAX_IMAGE_SIZE_BYTES || contentType.None? {
          ValidateIsAllOrNothing(files, i);
          return Raised(ValidationFailed);
        }
        validated := validated + [Validated(data, contentType.value)];
        i := i + 1;
      }
      assert files[..i] == files;
      var rows :- WriteToStorage(env, l, count, validated);
      var _ :- listings.AddImages(rows);
      r := Ok(Rules.Uploaded(rows));
    }

    /** Put the files one by one; at the first failure, delete what was written, suppressing errors. */
    method WriteToStorage(env: Rules.Env, l: ListingId, start: nat, validated: seq<Validated>)
      returns (r: Outcome<seq<Image>>)
      requires storage.script == env.script && storage.putCount == 0 && storage.deleteCount == 0
      modifies storage
      ensures
        var batch := Rules.BatchFor(l, validated, env.minted.uuids);
        var spec := StoreBatch(old(storage.objects), batch, env.script);
        && storage.objects == spec.objects
        && r == if spec.ok then Ok(Rules.RowsFor(l, start, batch)) else Raised(StorageUnavailable)
    {
      ghost var batch := Rules.BatchFor(l, validated, env.minted.uuids);
      var written: seq<ObjectKey> := [];
      var positioned: seq<Image> := [];
      var offset := 0;
      while offset < |validated|
        invariant offset <= |validated| && storage.putCount == offset && storage.deleteCount == 0
        invariant forall j :: 0 <= j < offset ==> PutAt(env.script, j).Stored?
        invariant storage.objects == WithPuts(old(storage.objects), batch, offset)
        invariant |written| == offset && forall j :: 0 <= j < offset ==> written[j] == batch[j].key
        invariant |positioned| == offset
        invariant forall j :: 0 <= j < offset ==> positioned[j] == Image(l, batch[j].key, start + j)
      {
        var file := validated[offset];
        var key := ObjectKey(l, Rules.UuidAt(env.minted.uuids, offset), file.contentType);
        var ok := storage.Put(key, file.data);
        if !ok {
          ghost var failed := storage.objects;
          FirstFailureIs(env.script, 0, offset, |validated|);
          var d := 0;
          while d < |written|
            invariant d <= |written| && storage.deleteCount == d
            invariant storage.objects == WithDeletes(failed, batch, env.script, d)
          {
            storage.Delete(written[d]);
            d := d + 1;
          }
          return Raised(StorageUnavailable);
        }
        written := written + [key];
        positioned := positioned + [Image(l, key, start + offset)];
        offset := offset + 1;
      }
      assert positioned == Rules.RowsFor(l, start, batch);
      r := Ok(positioned);
    }
  }

  /** One bad file is enough to reject the whole request. */
  lemma ValidateIsAllOrNothing(files: seq<Bytes>, i: nat)
    requires i < |files| && (|files[i]| > MAX_IMAGE_SIZE_BYTES || Sniff(files[i]).None?)
    ensures Validate(files).None?
  {
  }

  lemma FirstFailureIs(s: Script, i: nat, k: nat, n: nat)
    requires i <= k < n && PutAt(s, k).Failed? && forall j :: i <= j < k ==> PutAt(s, j).Stored?
    ensures FirstFailure(s, i, n) == k
    decreases k - i
  {
  }
}
