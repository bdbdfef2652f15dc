/** One request from session to response: identity gate, service call, commit or rollback. */
module Api {
  import opened Wrappers
  import opened Domain
  import opened AccessTokens
  import opened Sessions
  import opened Users
  import opened Listings
  import opened AuthServices
  import opened Administration
  import Rules
  import Runs

  /** The bodies of the moderation requests. */
  method ServeAdmin(db: Session, storage: StorageBackend, env: Rules.Env, req: Rules.Request)
    returns (r: Outcome<Rules.Reply>)
    requires req.SuspendUser? || req.ReinstateUser? || req.ResetPassword? || req.RemoveListing?
    modifies db
    ensures db.committed == old(db.committed)
    ensures db.CrashedIffRefused(old(db.statements), r.Crashed?)
    ensures r.Crashed? || Rules.Effect(r, db.pending) == Rules.Serve(old(db.pending), env, req)
  {
    var admin := new AdminService(db, storage);
    var u :- Rules.RequireAdmin(db.pending, env, req.access);
    match req
    case SuspendUser(_, target, reason) => r := admin.SuspendUser(u, target, reason);
    case ReinstateUser(_, target) => r := admin.ReinstateUser(u, target);
    case ResetPassword(_, target) => r := admin.ResetPassword(env, u, target);
    case RemoveListing(_, l, reason) => r := admin.RemoveListing(env, u, l, reason);
  }

  /** The body of every request but an upload. */
  method Serve(db: Session, storage: StorageBackend, env: Rules.Env, req: Rules.Request)
    returns (r: Outcome<Rules.Reply>)
    requires !req.UploadImages? && db.pending == db.committed
    modifies db
    ensures db.committed == old(db.committed)
    ensures db.CrashedIffRefused(old(db.statements), r.Crashed?)
    ensures r.Crashed? || Rules.Effect(r, db.pending) == Rules.Serve(old(db.pending), env, req)
  {
    var auth := new AuthService(db);
    var users := new UserService(db);
    var listings := new ListingService(db, storage);
    match req
    case Register(email, password, name) => r := auth.Register(env, email, password, name);
    case Login(email, password) => r := auth.Login(env, email, password);
    case Refresh(cookie) =>
      if cookie.None? { return Raised(InvalidRefreshToken); }
      r := auth.Refresh(env, cookie.value);
    case Logout(access, cookie) =>
      var _ :- Rules.CurrentUser(db.pending, env, access);
      if cookie.None? { return Ok(Rules.NoContent); }
      r := auth.Logout(cookie.value);
    case UpdateDisplayName(access, name) =>
      var u :- Rules.CurrentUser(db.pending, env, access);
      var _ :- users.repository.UpdateDisplayName(u, name);
      r := Ok(Rules.NoContent);
    case ChangePassword(access, current, replacement) =>
      var u :- Rules.ResolveCurrentUser(db.pending, env, access);
      r := users.ChangePassword(u, current, replacement);
    case CreateListing(access, content) =>
      var u :- Rules.CurrentUser(db.pending, env, access);
      r := listings.Create(env, u, content);
    case UpdateListing(access, l, fields) =>
      var u :- Rules.CurrentUser(db.pending, env, access);
      r := listings.Update(env, u, l, fields);
    case MarkSold(access, l) =>
      var u :- Rules.CurrentUser(db.pending, env, access);
      r := listings.MarkSold(env, u, l);
    case DeleteListing(access, l) =>
      var u :- Rules.CurrentUser(db.pending, env, access);
      r := listings.Delete(env, u, l);
    case SuspendUser(_, _, _) => r := ServeAdmin(db, storage, env, req);
    case ReinstateUser(_, _) => r := ServeAdmin(db, storage, env, req);
    case ResetPassword(_, _) => r := ServeAdmin(db, storage, env, req);
    case RemoveListing(_, _, _) => r := ServeAdmin(db, storage, env, req);
  }

  /** A whole request. Either the committed state and the answer are what the serial rule says, or
      the answer is an unforeseen error and the committed state has not changed. */
  method Handle(db: Session, storage: StorageBackend, env: Rules.Env, req: Rules.Request)
    returns (r: Outcome<Rules.Reply>)
    requires !req.UploadImages? && db.pending == db.committed
    modifies db
    ensures db.pending == db.committed
    ensures db.CrashedIffRefused(old(db.statements), r.Crashed?)
    ensures r.Crashed? ==> db.committed == old(db.committed)
    ensures !r.Crashed? ==> Rules.Effect(r, db.committed) == Rules.Serve(old(db.committed), env, req)
  {
    var body := Serve(db, storage, env, req);
    r := db.Finish(body);
  }

  /** The same for an upload, which also writes to storage. A crash after the puts leaves their
      objects behind: storage is not transactional. */
  method HandleUpload(
    db: Session, storage: StorageBackend, env: Rules.Env, access: Option<AccessToken>, l: ListingId, files: seq<Bytes>)
    returns (r: Outcome<Rules.Reply>)
    requires db.pending == db.committed
    requires storage.script == env.script && storage.putCount == 0 && storage.deleteCount == 0
    modifies db, storage
    ensures db.pending == db.committed
    ensures db.CrashedIffRefused(old(db.statements), r.Crashed?)
    ensures
      var spec := Rules.ServeUpload(old(db.committed), old(storage.objects), env, access, l, files);
      && storage.objects == spec.objects
      && (r.Crashed? ==> db.committed == old(db.committed))
      && (!r.Crashed? ==> r == spec.outcome && db.committed == spec.db)
  {
    var listings := new ListingService(db, storage);
    var who := Rules.CurrentUser(db.pending, env, access);
    var body: Outcome<Rules.Reply> := Crashed;
    if who.Ok? {
      body := listings.UploadImages(env, who.value, l, files);
    } else {
      body := who.PropagateFailure();
    }
    r := db.Finish(body);
  }

  /** The request code realises the steps that the run theorems quantify over: whatever the database
      and the object store do to it, one request is one `Runs.Step`. */
  method Process(s: Rules.Settings, db: Session, storage: StorageBackend, w: Runs.World, e: Runs.Event)
    returns (r: Outcome<Rules.Reply>)
    requires db.committed == db.pending == w.db && storage.objects == w.objects
    requires storage.script == e.script && storage.putCount == 0 && storage.deleteCount == 0
    modifies db, storage
    ensures db.CrashedIffRefused(old(db.statements), r.Crashed?)
    ensures
      var seen := e.(crash := r.Crashed?);
      && r == Runs.Answer(s, w, seen)
      && db.committed == Runs.Step(s, w, seen).db && storage.objects == Runs.Step(s, w, seen).objects
  {
    var env := Runs.EnvFor(s, w, e);
    if e.req.UploadImages? {
      r := HandleUpload(db, storage, env, e.req.access, e.req.listing, e.req.files);
    } else {
      r := Handle(db, storage, env, e.req);
    }
  }
}
