/** What each request does when it runs alone, as a function of the database before it. */
module Rules {
  import opened Wrappers
  import opened Domain
  import opened AccessTokens
  import opened ImageValidation
  import opened ObjectStorage
  import RefreshTokens

  /** Token lifetimes, in microseconds, and the case folding of the database's email column. */
  datatype Settings = Settings(accessTtl: nat, refreshTtl: nat, fold: Email -> EmailKey)

  /** The values the server generates while it handles one request. */
  datatype Minted = Minted(
    user: UserId,
    family: FamilyId,
    token: TokenHash,
    listing: ListingId,
    password: string,
    uuids: seq<nat>)

  /** Everything outside the database that the outcome of a request depends on. `raced` says that
      the unique index rejects an insert because of a registration committed in the meantime. */
  datatype Env = Env(
    settings: Settings,
    now: Time,
    issued: set<AccessToken>,
    minted: Minted,
    raced: bool,
    script: Script)

  datatype Fields = Fields(
    title: Option<string>,
    author: Option<string>,
    description: Option<string>,
    category: Option<Category>,
    condition: Option<Condition>,
    price: Option<nat>)

  datatype Request =
    | Register(email: Email, password: string, displayName: string)
    | Login(email: Email, password: string)
    | Refresh(cookie: Option<TokenHash>)
    | Logout(access: Option<AccessToken>, cookie: Option<TokenHash>)
    | UpdateDisplayName(access: Option<AccessToken>, displayName: string)
    | ChangePassword(access: Option<AccessToken>, current: string, replacement: string)
    | CreateListing(access: Option<AccessToken>, content: Content)
    | UpdateListing(access: Option<AccessToken>, listing: ListingId, fields: Fields)
    | MarkSold(access: Option<AccessToken>, listing: ListingId)
    | DeleteListing(access: Option<AccessToken>, listing: ListingId)
    | UploadImages(access: Option<AccessToken>, listing: ListingId, files: seq<Bytes>)
    | SuspendUser(access: Option<AccessToken>, target: UserId, reason: string)
    | ReinstateUser(access: Option<AccessToken>, target: UserId)
    | ResetPassword(access: Option<AccessToken>, target: UserId)
    | RemoveListing(access: Option<AccessToken>, listing: ListingId, reason: string)

  /** The access token a request carries, if it can carry one. */
  function AccessOf(req: Request): Option<AccessToken> {
    match req
    case Register(_, _, _) => None
    case Login(_, _) => None
    case Refresh(_) => None
    case _ => req.access
  }

  datatype Reply =
    | TokenPair(access: AccessToken, refresh: TokenHash)
    | UserCreated(user: UserId)
    | TemporaryPassword(password: string)
    | ListingReply(listing: ListingId)
    | Uploaded(images: seq<Image>)
    | NoContent

  datatype Effect = Effect(outcome: Outcome<Reply>, db: Db)

  // ---- identity ----

  function ByEmail(db: Db, key: EmailKey): Option<UserId> {
    if key in db.emails && db.emails[key] in db.users then Some(db.emails[key]) else None
  }

  function ResolveCurrentUser(db: Db, env: Env, access: Option<AccessToken>): (who: Outcome<UserId>)
    ensures who.Ok? ==> who.value in db.users
  {
    if access.None? then Raised(InvalidAccessToken)
    else
      var sub := Decode(access.value, env.issued, env.now);
      if sub.None? || sub.value !in db.users then Raised(InvalidAccessToken) else Ok(sub.value)
  }

  function CurrentUser(db: Db, env: Env, access: Option<AccessToken>): (who: Outcome<UserId>)
    ensures who.Ok? ==> who.value in db.users && !db.users[who.value].mustChangePassword
  {
    var u :- ResolveCurrentUser(db, env, access);
    if db.users[u].mustChangePassword then Raised(PasswordChangeRequired) else Ok(u)
  }

  function RequireAdmin(db: Db, env: Env, access: Option<AccessToken>): (who: Outcome<UserId>)
    ensures who.Ok? ==> who.value in db.users && db.users[who.value].role == Admin
  {
    var u :- CurrentUser(db, env, access);
    if db.users[u].role == Admin then Ok(u) else Raised(Forbidden)
  }

  /** The access token names `u`, who exists, was issued by the server, and is within its lifetime. */
  predicate Identifies(db: Db, env: Env, access: Option<AccessToken>, u: UserId) {
    && access.Some? && access.value in env.issued && access.value.sub == u && u in db.users
    && access.value.iat * SECOND <= env.now < access.value.exp * SECOND
  }

  /** Whom each of the three gates lets pass, and how it refuses everybody else. */
  lemma WhoPasses(db: Db, env: Env, access: Option<AccessToken>, u: UserId)
    ensures ResolveCurrentUser(db, env, access) == Ok(u) <==> Identifies(db, env, access, u)
    ensures CurrentUser(db, env, access) == Ok(u) <==>
      Identifies(db, env, access, u) && !db.users[u].mustChangePassword
    ensures RequireAdmin(db, env, access) == Ok(u) <==>
      Identifies(db, env, access, u) && !db.users[u].mustChangePassword && db.users[u].role == Admin
    ensures Identifies(db, env, access, u) && db.users[u].mustChangePassword ==>
      CurrentUser(db, env, access) == RequireAdmin(db, env, access) == Raised(PasswordChangeRequired)
    ensures Identifies(db, env, access, u) && !db.users[u].mustChangePassword && db.users[u].role != Admin ==>
      RequireAdmin(db, env, access) == Raised(Forbidden)
    ensures (forall v :: !Identifies(db, env, access, v)) ==>
      && ResolveCurrentUser(db, env, access) == Raised(InvalidAccessToken)
      && CurrentUser(db, env, access) == RequireAdmin(db, env, access) == Raised(InvalidAccessToken)
  {
    if access.Some? {
      assert Identifies(db, env, access, access.value.sub) || !ResolveCurrentUser(db, env, access).Ok?;
    }
  }

  // ---- auth ----

  function Issued(db: Db, env: Env, u: UserId, tokens: TokenTable): Effect {
    Effect(Ok(TokenPair(Create(u, env.now, env.settings.accessTtl), env.minted.token)), db.(tokens := tokens))
  }

  function RegisterUser(db: Db, env: Env, email: Email, password: string, displayName: string): Effect {
    var key := env.settings.fold(email);
    if ByEmail(db, key).Some? || key in db.emails || env.raced then
      Effect(Raised(ValidationFailed), db)
    else
      var user := User(Argon2(password), displayName, RegularUser, true, false);
      Effect(
        Ok(UserCreated(env.minted.user)),
        db.(users := db.users[env.minted.user := user], emails := db.emails[key := env.minted.user]))
  }

  function LoginUser(db: Db, env: Env, email: Email, password: string): Effect {
    var found := ByEmail(db, env.settings.fold(email));
    if found.None? || !VerifyPassword(password, db.users[found.value].password) || !db.users[found.value].isActive then
      Effect(Raised(InvalidCredentials), db)
    else
      var row := RefreshToken(found.value, env.minted.family, false, env.now + env.settings.refreshTtl);
      Issued(db, env, found.value, RefreshTokens.Created(db.tokens, env.minted.token, row))
  }

  function RefreshPair(db: Db, env: Env, cookie: Option<TokenHash>): Effect {
    if cookie.None? then
      Effect(Raised(InvalidRefreshToken), db)
    else
      var r := RefreshTokens.Refresh(db.tokens, cookie.value, env.now, env.minted.token, env.settings.refreshTtl);
      if r.owner.None? then Effect(Raised(InvalidRefreshToken), db.(tokens := r.table))
      else Issued(db, env, r.owner.value, r.table)
  }

  function LogoutToken(db: Db, cookie: Option<TokenHash>): Effect {
    if cookie.Some? && RefreshTokens.Live(db.tokens, cookie.value) then
      Effect(Ok(NoContent), db.(tokens := RefreshTokens.Revoked(db.tokens, cookie.value)))
    else
      Effect(Ok(NoContent), db)
  }

  // ---- users ----

  function WithUser(db: Db, u: UserId, user: User): Db {
    db.(users := db.users[u := user])
  }

  function ChangeOwnPassword(db: Db, u: UserId, current: string, replacement: string): Effect
    requires u in db.users
  {
    if !VerifyPassword(current, db.users[u].password) then Effect(Raised(ValidationFailed), db)
    else
      var changed := db.users[u].(password := Argon2(replacement), mustChangePassword := false);
      Effect(Ok(NoContent), WithUser(db, u, changed))
  }

  // ---- listings ----

  const MAX_IMAGES_PER_LISTING := 6

  function Applied(c: Content, f: Fields): Content {
    Content(
      if f.title.Some? then f.title.value else c.title,
      if f.author.Some? then f.author.value else c.author,
      if f.description.Some? then f.description.value else c.description,
      if f.category.Some? then f.category.value else c.category,
      if f.condition.Some? then f.condition.value else c.condition,
      if f.price.Some? then f.price.value else c.price)
  }

  /** Existence, then ownership, then status. */
  function RequireEditable(found: Option<Listing>, requester: UserId): Outcome<()> {
    if found.None? then Raised(NotFound)
    else if found.value.ownerId != requester then Raised(Forbidden)
    else if found.value.status != Available then Raised(Conflict)
    else Ok(())
  }

  function FindIn(listings: map<ListingId, Listing>, l: ListingId): Option<Listing> {
    if l in listings then Some(listings[l]) else None
  }

  function Find(db: Db, l: ListingId): Option<Listing> {
    FindIn(db.listings, l)
  }

  function WithListing(db: Db, l: ListingId, row: Listing): Db {
    db.(listings := db.listings[l := row])
  }

  function CreateOwnListing(db: Db, env: Env, owner: UserId, content: Content): Effect {
    Effect(
      Ok(ListingReply(env.minted.listing)),
      WithListing(db, env.minted.listing, Listing(owner, content, Available, None, env.now, env.now)))
  }

  /** Writing back equal values is not an update, so `updated_at` moves only on a real change. */
  function UpdateOwnListing(db: Db, env: Env, requester: UserId, l: ListingId, fields: Fields): Effect {
    match RequireEditable(Find(db, l), requester)
    case Raised(e) => Effect(Raised(e), db)
    case Crashed => Effect(Crashed, db)
    case Ok(_) =>
      var row := db.listings[l];
      var content := Applied(row.content, fields);
      Effect(
        Ok(ListingReply(l)),
        if content == row.content then db else WithListing(db, l, row.(content := content, updatedAt := env.now)))
  }

  function MarkOwnSold(db: Db, env: Env, requester: UserId, l: ListingId): Effect {
    match RequireEditable(Find(db, l), requester)
    case Raised(e) => Effect(Raised(e), db)
    case Crashed => Effect(Crashed, db)
    case Ok(_) =>
      Effect(
        Ok(ListingReply(l)),
        WithListing(db, l, db.listings[l].(status := Sold, soldAt := Some(env.now), updatedAt := env.now)))
  }

  function SoftDeleted(db: Db, env: Env, l: ListingId): Db
    requires l in db.listings
  {
    WithListing(db, l, db.listings[l].(status := Deleted, updatedAt := env.now))
  }

  function DeleteOwn(db: Db, env: Env, requester: UserId, l: ListingId): Effect {
    if l !in db.listings then Effect(Raised(NotFound), db)
    else if db.listings[l].ownerId != requester then Effect(Raised(Forbidden), db)
    else if db.listings[l].status == Deleted then Effect(Ok(NoContent), db)
    else Effect(Ok(NoContent), SoftDeleted(db, env, l))
  }

  // ---- image upload ----

  /** A file that some type's key could store. */
  ghost predicate Acceptable(file: Bytes) {
    exists t :: Storable(file, t)
  }

  /** The checks on the files, once the listing has been accepted and its images counted. */
  function CheckFiles(count: nat, files: seq<Bytes>): (r: Outcome<seq<Validated>>)
    ensures r.Ok? || r == Raised(ValidationFailed)
    ensures r.Ok? <==>
      0 < |files| && count + |files| <= MAX_IMAGES_PER_LISTING && forall i :: 0 <= i < |files| ==> Acceptable(files[i])
    ensures r.Ok? ==> |r.value| == |files| && forall i :: 0 <= i < |files| ==>
      r.value[i].data == files[i] && Storable(files[i], r.value[i].contentType)
  {
    RecognisedIfStorable(files);
    if files == [] || count + |files| > MAX_IMAGES_PER_LISTING || Validate(files).None? then Raised(ValidationFailed)
    else
      ValidatedAreStorable(files);
      Ok(Validate(files).value)
  }

  lemma RecognisedIfStorable(files: seq<Bytes>)
    ensures Validate(files).Some? <==> forall i :: 0 <= i < |files| ==> Acceptable(files[i])
  {
    if Validate(files).Some? { ValidatedAreStorable(files); }
    forall i | 0 <= i < |files| && Acceptable(files[i])
      ensures |files[i]| <= MAX_IMAGE_SIZE_BYTES && Sniff(files[i]).Some?
    {
      SniffIsExact(files[i]);
    }
  }

  function KeyFor(l: ListingId, v: Validated, uuid: nat): ObjectKey {
    ObjectKey(l, uuid, v.contentType)
  }

  function UuidAt(uuids: seq<nat>, i: nat): nat {
    if i < |uuids| then uuids[i] else 0
  }

  function BatchFor(l: ListingId, validated: seq<Validated>, uuids: seq<nat>): (b: seq<Upload>)
    ensures |b| == |validated|
    ensures forall i :: 0 <= i < |b| ==> b[i] == Upload(KeyFor(l, validated[i], UuidAt(uuids, i)), validated[i].data)
  {
    seq(|validated|, i requires 0 <= i < |validated| =>
      Upload(KeyFor(l, validated[i], UuidAt(uuids, i)), validated[i].data))
  }

  /** The rows of a batch: consecutive positions from `start`. */
  function RowsFor(l: ListingId, start: nat, batch: seq<Upload>): (rows: seq<Image>)
    ensures |rows| == |batch|
    ensures forall i :: 0 <= i < |rows| ==> rows[i] == Image(l, batch[i].key, start + i)
  {
    seq(|batch|, i requires 0 <= i < |batch| => Image(l, batch[i].key, start + i))
  }

  datatype UploadEffect = UploadEffect(outcome: Outcome<Reply>, db: Db, objects: Objects)

  function UploadOwn(
    db: Db, objects: Objects, env: Env, requester: UserId, l: ListingId, files: seq<Bytes>): UploadEffect
  {
    match RequireEditable(Find(db, l), requester)
    case Raised(e) => UploadEffect(Raised(e), db, objects)
    case Crashed => UploadEffect(Crashed, db, objects)
    case Ok(_) =>
      var start := |ImagesOf(db.images, l)|;
      match CheckFiles(start, files)
      case Raised(e) => UploadEffect(Raised(e), db, objects)
      case Crashed => UploadEffect(Crashed, db, objects)
      case Ok(validated) =>
        var batch := BatchFor(l, validated, env.minted.uuids);
        var result := StoreBatch(objects, batch, env.script);
        if !result.ok then UploadEffect(Raised(StorageUnavailable), db, result.objects)
        else
          var rows := RowsFor(l, start, batch);
          UploadEffect(Ok(Uploaded(rows)), db.(images := db.images + rows), result.objects)
  }

  // ---- administration ----

  function Audited(db: Db, admin: UserId, action: Action, target: nat, reason: Option<string>): Db {
    db.(audit := db.audit + [AuditRow(admin, action, target, reason)])
  }

  function Suspend(db: Db, admin: UserId, target: UserId, reason: string): Effect {
    if target !in db.users then Effect(Raised(NotFound), db)
    else if db.users[target].role == Admin then Effect(Raised(Forbidden), db)
    else if !db.users[target].isActive then Effect(Raised(Conflict), db)
    else
      var suspended := WithUser(db, target, db.users[target].(isActive := false));
      var revoked := suspended.(tokens := RefreshTokens.UserRevoked(db.tokens, target));
      Effect(Ok(NoContent), Audited(revoked, admin, Action.SuspendUser, target, Some(reason)))
  }

  function Reinstate(db: Db, admin: UserId, target: UserId): Effect {
    if target !in db.users then Effect(Raised(NotFound), db)
    else if db.users[target].role == Admin then Effect(Raised(Forbidden), db)
    else if db.users[target].isActive then Effect(Raised(Conflict), db)
    else
      var reinstated := WithUser(db, target, db.users[target].(isActive := true));
      Effect(Ok(NoContent), Audited(reinstated, admin, Action.ReinstateUser, target, None))
  }

  function Reset(db: Db, env: Env, admin: UserId, target: UserId): Effect {
    if target !in db.users then Effect(Raised(NotFound), db)
    else if db.users[target].role == Admin then Effect(Raised(Forbidden), db)
    else
      var changed := db.users[target].(password := Argon2(env.minted.password), mustChangePassword := true);
      var reset := WithUser(db, target, changed);
      Effect(
        Ok(TemporaryPassword(env.minted.password)),
        Audited(reset, admin, Action.ResetPassword, target, None))
  }

  function Remove(db: Db, env: Env, admin: UserId, l: ListingId, reason: string): Effect {
    if l !in db.listings then Effect(Raised(NotFound), db)
    else if db.listings[l].status == Deleted then Effect(Ok(NoContent), db)
    else Effect(Ok(NoContent), Audited(SoftDeleted(db, env, l), admin, Action.RemoveListing, l, Some(reason)))
  }

  // ---- dispatch ----

  function Refused(db: Db, who: Outcome<UserId>): Effect
    requires !who.Ok?
  {
    Effect(who.PropagateFailure(), db)
  }

  /** Every request but an upload. */
  function Serve(db: Db, env: Env, req: Request): Effect
    requires !req.UploadImages?
  {
    match req
    case Register(email, password, name) => RegisterUser(db, env, email, password, name)
    case Login(email, password) => LoginUser(db, env, email, password)
    case Refresh(cookie) => RefreshPair(db, env, cookie)
    case Logout(access, cookie) =>
      var who := CurrentUser(db, env, access);
      if !who.Ok? then Refused(db, who) else LogoutToken(db, cookie)
    case UpdateDisplayName(access, name) =>
      var who := CurrentUser(db, env, access);
      if !who.Ok? then Refused(db, who)
      else Effect(Ok(NoContent), WithUser(db, who.value, db.users[who.value].(displayName := name)))
    case ChangePassword(access, current, replacement) =>
      var who := ResolveCurrentUser(db, env, access);
      if !who.Ok? then Refused(db, who) else ChangeOwnPassword(db, who.value, current, replacement)
    case CreateListing(access, content) =>
      var who := CurrentUser(db, env, access);
      if !who.Ok? then Refused(db, who) else CreateOwnListing(db, env, who.value, content)
    case UpdateListing(access, l, fields) =>
      var who := CurrentUser(db, env, access);
      if !who.Ok? then Refused(db, who) else UpdateOwnListing(db, env, who.value, l, fields)
    case MarkSold(access, l) =>
      var who := CurrentUser(db, env, access);
      if !who.Ok? then Refused(db, who) else MarkOwnSold(db, env, who.value, l)
    case DeleteListing(access, l) =>
      var who := CurrentUser(db, env, access);
      if !who.Ok? then Refused(db, who) else DeleteOwn(db, env, who.value, l)
    case SuspendUser(access, target, reason) =>
      var who := RequireAdmin(db, env, access);
      if !who.Ok? then Refused(db, who) else Suspend(db, who.value, target, reason)
    case ReinstateUser(access, target) =>
      var who := RequireAdmin(db, env, access);
      if !who.Ok? then Refused(db, who) else Reinstate(db, who.value, target)
    case ResetPassword(access, target) =>
      var who := RequireAdmin(db, env, access);
      if !who.Ok? then Refused(db, who) else Reset(db, env, who.value, target)
    case RemoveListing(access, l, reason) =>
      var who := RequireAdmin(db, env, access);
      if !who.Ok? then Refused(db, who) else Remove(db, env, who.value, l, reason)
  }

  function ServeUpload(
    db: Db, objects: Objects, env: Env, access: Option<AccessToken>, l: ListingId, files: seq<Bytes>): UploadEffect
  {
    var who := CurrentUser(db, env, access);
    if !who.Ok? then UploadEffect(who.PropagateFailure(), db, objects)
    else UploadOwn(db, objects, env, who.value, l, files)
  }
}
