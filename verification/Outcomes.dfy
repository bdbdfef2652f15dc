/** What each request is answered and what exactly it changes, field by field. */
module Outcomes {
  import opened Wrappers
  import opened Domain
  import opened ImageValidation
  import opened ObjectStorage
  import opened Rules
  import opened Runs
  import opened Effects

  /** The request comes from `u`, who may do more than change a password. */
  predicate Caller(s: Settings, w: World, e: Event, u: UserId) {
    Identifies(w.db, EnvFor(s, w, e), AccessOf(e.req), u) && !w.db.users[u].mustChangePassword
  }

  // ---- answers ----

  /** Every request but registration, login and refresh is refused without a valid access token, and all but
      the password change while one is due. */
  lemma RefusedAtTheGate(s: Settings, w: World, e: Event, u: UserId)
    requires !e.crash && !e.req.Register? && !e.req.Login? && !e.req.Refresh?
    ensures (forall v :: !Identifies(w.db, EnvFor(s, w, e), AccessOf(e.req), v)) ==>
      Answer(s, w, e) == Raised(InvalidAccessToken)
    ensures
      Identifies(w.db, EnvFor(s, w, e), AccessOf(e.req), u) && w.db.users[u].mustChangePassword
      && !e.req.ChangePassword? ==>
        Answer(s, w, e) == Raised(PasswordChangeRequired)
  {
    WhoPasses(w.db, EnvFor(s, w, e), AccessOf(e.req), u);
    hide Identifies, ResolveCurrentUser, CurrentUser, RequireAdmin;
  }

  lemma SessionAnswers(s: Settings, w: World, e: Event)
    requires !e.crash
    ensures e.req.Register? ==>
      var taken := s.fold(e.req.email) in w.db.emails || e.raced;
      Answer(s, w, e) == if taken then Raised(ValidationFailed) else Ok(UserCreated(e.minted.user))
    ensures e.req.Login? && !Answer(s, w, e).Ok? ==> Answer(s, w, e) == Raised(InvalidCredentials)
    ensures e.req.Refresh? && !Answer(s, w, e).Ok? ==> Answer(s, w, e) == Raised(InvalidRefreshToken)
  {
  }

  /** A listing can be edited or sold by its owner while it is available: existence is checked first, then
      ownership, then status, and then nothing more. */
  lemma EditAnswer(s: Settings, w: World, e: Event, u: UserId)
    requires !e.crash && Caller(s, w, e, u) && (e.req.UpdateListing? || e.req.MarkSold?)
    ensures
      var ls, l, answer := w.db.listings, e.req.listing, Answer(s, w, e);
      && (l !in ls ==> answer == Raised(NotFound))
      && (l in ls && ls[l].ownerId != u ==> answer == Raised(Forbidden))
      && (l in ls && ls[l].ownerId == u && ls[l].status != Available ==> answer == Raised(Conflict))
      && (l in ls && ls[l].ownerId == u && ls[l].status == Available ==> answer == Ok(ListingReply(l)))
  {
    WhoPasses(w.db, EnvFor(s, w, e), AccessOf(e.req), u);
    hide Identifies, ResolveCurrentUser, CurrentUser, RequireAdmin;
  }

  /** A listing can be deleted by its owner whatever its status. */
  lemma DeleteAnswer(s: Settings, w: World, e: Event, u: UserId)
    requires !e.crash && Caller(s, w, e, u) && e.req.DeleteListing?
    ensures
      var ls, l, answer := w.db.listings, e.req.listing, Answer(s, w, e);
      && (l !in ls ==> answer == Raised(NotFound))
      && (l in ls && ls[l].ownerId != u ==> answer == Raised(Forbidden))
      && (l in ls && ls[l].ownerId == u ==> answer == Ok(NoContent))
  {
    WhoPasses(w.db, EnvFor(s, w, e), AccessOf(e.req), u);
    hide Identifies, ResolveCurrentUser, CurrentUser, RequireAdmin;
  }

  /** These are never refused to a caller. */
  lemma FreeAnswers(s: Settings, w: World, e: Event, u: UserId)
    requires !e.crash && Caller(s, w, e, u)
    ensures e.req.CreateListing? ==> Answer(s, w, e) == Ok(ListingReply(e.minted.listing))
    ensures e.req.UpdateDisplayName? || e.req.Logout? ==> Answer(s, w, e) == Ok(NoContent)
  {
    WhoPasses(w.db, EnvFor(s, w, e), AccessOf(e.req), u);
    hide Identifies, ResolveCurrentUser, CurrentUser, RequireAdmin;
  }

  lemma ChangePasswordAnswer(s: Settings, w: World, e: Event, u: UserId)
    requires !e.crash && e.req.ChangePassword? && Identifies(w.db, EnvFor(s, w, e), AccessOf(e.req), u)
    ensures Answer(s, w, e) ==
      if w.db.users[u].password == Argon2(e.req.current) then Ok(NoContent) else Raised(ValidationFailed)
  {
    WhoPasses(w.db, EnvFor(s, w, e), AccessOf(e.req), u);
    hide Identifies, ResolveCurrentUser, CurrentUser, RequireAdmin;
  }

  predicate Moderation(req: Request) {
    req.SuspendUser? || req.ReinstateUser? || req.ResetPassword? || req.RemoveListing?
  }

  /** Moderation is for admins. Accounts of admins are out of its reach, and suspending the suspended or
      reinstating the active is a conflict; removing what is removed is not. */
  lemma ModerationAnswer(s: Settings, w: World, e: Event, u: UserId)
    requires !e.crash && Caller(s, w, e, u) && Moderation(e.req)
    ensures w.db.users[u].role != Admin ==> Answer(s, w, e) == Raised(Forbidden)
    ensures w.db.users[u].role == Admin && e.req.RemoveListing? ==>
      Answer(s, w, e) == if e.req.listing in w.db.listings then Ok(NoContent) else Raised(NotFound)
    ensures w.db.users[u].role == Admin && !e.req.RemoveListing? ==>
      var us, target, answer := w.db.users, e.req.target, Answer(s, w, e);
      && (target !in us ==> answer == Raised(NotFound))
      && (target in us && us[target].role == Admin ==> answer == Raised(Forbidden))
      && (target in us && us[target].role != Admin && e.req.ResetPassword? ==>
            answer == Ok(TemporaryPassword(e.minted.password)))
      && (target in us && us[target].role != Admin && !e.req.ResetPassword? ==>
            answer == if us[target].isActive == e.req.SuspendUser? then Ok(NoContent) else Raised(Conflict))
  {
    WhoPasses(w.db, EnvFor(s, w, e), AccessOf(e.req), u);
    hide Identifies, ResolveCurrentUser, CurrentUser, RequireAdmin;
  }

  // ---- changes to listings ----

  ghost predicate OthersAsTheyWere(ls: map<ListingId, Listing>, ls2: map<ListingId, Listing>, l: ListingId) {
    l in ls2 && ls2.Keys == ls.Keys + {l} && forall m :: m in ls && m != l ==> ls2[m] == ls[m]
  }

  predicate Merged<T(==)>(given: Option<T>, before: T, after: T) {
    after == if given.Some? then given.value else before
  }

  /** An accepted edit changes the fields it gives, each to the value it gives, and no other; all else about
      the listing, and every other listing, stays. The update time moves exactly if some field changed. */
  lemma EditChangesWhatItGives(s: Settings, w: World, e: Event)
    requires e.req.UpdateListing? && Answer(s, w, e).Ok?
    ensures
      var l, given, w2 := e.req.listing, e.req.fields, Step(s, w, e);
      && l in w.db.listings && OthersAsTheyWere(w.db.listings, w2.db.listings, l)
      && var before, after := w.db.listings[l], w2.db.listings[l];
      && Merged(given.title, before.content.title, after.content.title)
      && Merged(given.author, before.content.author, after.content.author)
      && Merged(given.description, before.content.description, after.content.description)
      && Merged(given.category, before.content.category, after.content.category)
      && Merged(given.condition, before.content.condition, after.content.condition)
      && Merged(given.price, before.content.price, after.content.price)
      && after.ownerId == before.ownerId && after.status == before.status && after.soldAt == before.soldAt
      && after.createdAt == before.createdAt
      && after.updatedAt == if after.content == before.content then before.updatedAt else e.now
  {
    ListingsAreThose(s, w, e);
    EditsNeedAvailable(s, w, e);
    hide Step, Answer;
  }

  /** A new listing is the caller's, available, with the content given; a sale and a deletion change the
      status and the times and nothing else. */
  lemma LifecycleChanges(s: Settings, w: World, e: Event, u: UserId)
    requires Possible(w, e) && Caller(s, w, e, u) && Answer(s, w, e).Ok?
    ensures e.req.CreateListing? ==>
      && OthersAsTheyWere(w.db.listings, Step(s, w, e).db.listings, e.minted.listing)
      && Step(s, w, e).db.listings[e.minted.listing] == Listing(u, e.req.content, Available, None, e.now, e.now)
    ensures e.req.MarkSold? ==>
      var l, ls2 := e.req.listing, Step(s, w, e).db.listings;
      && l in w.db.listings && OthersAsTheyWere(w.db.listings, ls2, l)
      && var before := w.db.listings[l];
      ls2[l] == Listing(before.ownerId, before.content, Sold, Some(e.now), before.createdAt, e.now)
    ensures e.req.DeleteListing? || e.req.RemoveListing? ==>
      var l, ls2 := e.req.listing, Step(s, w, e).db.listings;
      && l in w.db.listings && OthersAsTheyWere(w.db.listings, ls2, l)
      && var before := w.db.listings[l];
      ls2[l] ==
        if before.status == Deleted then before
        else Listing(before.ownerId, before.content, Deleted, before.soldAt, before.createdAt, e.now)
  {
    ListingsAreThose(s, w, e);
    WhoPasses(w.db, EnvFor(s, w, e), AccessOf(e.req), u);
    if e.req.DeleteListing? || e.req.RemoveListing? { FoundToDelete(s, w, e); }
    if e.req.MarkSold? { EditsNeedAvailable(s, w, e); }
    hide Step, Answer, Identifies;
  }

  lemma FoundToDelete(s: Settings, w: World, e: Event)
    requires (e.req.DeleteListing? || e.req.RemoveListing?) && Answer(s, w, e).Ok?
    ensures e.req.listing in w.db.listings
  {
  }

  // ---- changes to accounts and to the log ----

  ghost predicate OtherUsersAsTheyWere(us: map<UserId, User>, us2: map<UserId, User>, u: UserId) {
    u in us2 && us2.Keys == us.Keys + {u} && forall v :: v in us && v != u ==> us2[v] == us[v]
  }

  lemma RegistrationChanges(s: Settings, w: World, e: Event)
    requires e.req.Register? && Answer(s, w, e).Ok?
    ensures OtherUsersAsTheyWere(w.db.users, Step(s, w, e).db.users, e.minted.user)
    ensures Step(s, w, e).db.users[e.minted.user] ==
      User(Argon2(e.req.password), e.req.displayName, RegularUser, true, false)
  {
    UsersAreThose(s, w, e);
    hide Step, Answer;
  }

  /** What somebody changes about their own account; a successful password change also lifts the gate. */
  lemma OwnChanges(s: Settings, w: World, e: Event, u: UserId)
    requires Identifies(w.db, EnvFor(s, w, e), AccessOf(e.req), u) && Answer(s, w, e).Ok?
    requires e.req.UpdateDisplayName? || e.req.ChangePassword?
    ensures OtherUsersAsTheyWere(w.db.users, Step(s, w, e).db.users, u)
    ensures
      var before, after := w.db.users[u], Step(s, w, e).db.users[u];
      after == if e.req.UpdateDisplayName? then
          User(before.password, e.req.displayName, before.role, before.isActive, before.mustChangePassword)
        else
          User(Argon2(e.req.replacement), before.displayName, before.role, before.isActive, false)
  {
    UsersAreThose(s, w, e);
    WhoPasses(w.db, EnvFor(s, w, e), AccessOf(e.req), u);
    hide Step, Identifies;
  }

  /** What moderation changes about an account: standing, or the password with the gate shut. Each time one
      row is added to the log, with the admin, the action, the target and the reason. */
  lemma ModerationChanges(s: Settings, w: World, e: Event, u: UserId)
    requires Caller(s, w, e, u) && Moderation(e.req) && !e.req.RemoveListing? && Answer(s, w, e).Ok?
    ensures
      var target, us, us2 := e.req.target, w.db.users, Step(s, w, e).db.users;
      && target in us && OtherUsersAsTheyWere(us, us2, target)
      && var before := us[target];
      us2[target] ==
        if e.req.ResetPassword? then
          User(Argon2(e.minted.password), before.displayName, before.role, before.isActive, true)
        else
          User(before.password, before.displayName, before.role, e.req.ReinstateUser?, before.mustChangePassword)
    ensures
      var action :=
        if e.req.SuspendUser? then Action.SuspendUser
        else if e.req.ReinstateUser? then Action.ReinstateUser
        else Action.ResetPassword;
      var reason := if e.req.SuspendUser? then Some(e.req.reason) else None;
      Step(s, w, e).db.audit == w.db.audit + [AuditRow(u, action, e.req.target, reason)]
  {
    UsersAreThose(s, w, e);
    AuditIsThat(s, w, e);
    WhoPasses(w.db, EnvFor(s, w, e), AccessOf(e.req), u);
    TargetFound(s, w, e);
    hide Step, Answer, Identifies;
  }

  lemma TargetFound(s: Settings, w: World, e: Event)
    requires Moderation(e.req) && !e.req.RemoveListing? && Answer(s, w, e).Ok?
    ensures e.req.target in w.db.users
  {
  }

  lemma RemovalIsLogged(s: Settings, w: World, e: Event, u: UserId)
    requires Caller(s, w, e, u) && e.req.RemoveListing? && Answer(s, w, e).Ok?
    ensures e.req.listing in w.db.listings
    ensures Step(s, w, e).db.audit ==
      if w.db.listings[e.req.listing].status == Deleted then w.db.audit
      else w.db.audit + [AuditRow(u, Action.RemoveListing, e.req.listing, Some(e.req.reason))]
  {
    AuditIsThat(s, w, e);
    FoundToDelete(s, w, e);
    WhoPasses(w.db, EnvFor(s, w, e), AccessOf(e.req), u);
    hide Step, Answer, Identifies;
  }

  /** Logging out revokes the token presented, if it is there, and no other. */
  lemma LogoutChanges(s: Settings, w: World, e: Event)
    requires e.req.Logout? && Answer(s, w, e).Ok?
    ensures Step(s, w, e).db.tokens.Keys == w.db.tokens.Keys
    ensures forall h :: h in w.db.tokens ==>
      Step(s, w, e).db.tokens[h] ==
        if e.req.cookie == Some(h) then w.db.tokens[h].(revoked := true) else w.db.tokens[h]
  {
    TokensAreThose(s, w, e);
    hide Step;
  }

  // ---- uploads ----

  /** The server's new identifiers: one for each file, no two alike, and none in use for this listing. */
  ghost predicate FreshUuids(objects: Objects, l: ListingId, uuids: seq<nat>, n: nat) {
    && n <= |uuids|
    && (forall i, j :: 0 <= i < j < n ==> uuids[i] != uuids[j])
    && (forall i, t :: 0 <= i < n ==> ObjectKey(l, uuids[i], t) !in objects)
  }

  /** The files may be added to a listing that has `count` images. */
  ghost predicate FilesFit(count: nat, files: seq<Bytes>) {
    0 < |files| && count + |files| <= 6 && forall i :: 0 <= i < |files| ==> Acceptable(files[i])
  }

  lemma {:induction false} FirstFailureIsEnd(script: Script, i: nat, n: nat)
    requires i <= n
    ensures FirstFailure(script, i, n) == n <==> forall j :: i <= j < n ==> PutAt(script, j).Stored?
    decreases n - i
  {
    if i < n { FirstFailureIsEnd(script, i + 1, n); }
  }

  /** An upload is checked like an edit; then the files must fit; then every put must succeed. */
  lemma UploadAnswer(s: Settings, w: World, e: Event, u: UserId)
    requires !e.crash && Caller(s, w, e, u) && e.req.UploadImages?
    ensures
      var ls, l, files, answer := w.db.listings, e.req.listing, e.req.files, Answer(s, w, e);
      && (l !in ls ==> answer == Raised(NotFound))
      && (l in ls && ls[l].ownerId != u ==> answer == Raised(Forbidden))
      && (l in ls && ls[l].ownerId == u && ls[l].status != Available ==> answer == Raised(Conflict))
      && (l in ls && ls[l].ownerId == u && ls[l].status == Available ==>
            var fit := FilesFit(|ImagesOf(w.db.images, l)|, files);
            var stored := forall i :: 0 <= i < |files| ==> PutAt(e.script, i).Stored?;
            && (!fit ==> answer == Raised(ValidationFailed))
            && (fit && !stored ==> answer == Raised(StorageUnavailable))
            && (fit && stored ==> answer.Ok? && answer.value.Uploaded?))
  {
    WhoPasses(w.db, EnvFor(s, w, e), AccessOf(e.req), u);
    FirstFailureIsEnd(e.script, 0, |e.req.files|);
    hide Identifies, ResolveCurrentUser, CurrentUser, ImagesOf, Validate, Acceptable, WithPuts, WithDeletes;
  }

  /** What an accepted upload adds: for each file, in order, a row at the next position whose key maps to
      exactly that file and has the extension of its type. Rows and objects that were there stay. */
  ghost predicate Added(w: World, w2: World, l: ListingId, files: seq<Bytes>, rows: seq<Image>) {
    && |rows| == |files| && w2.db.images == w.db.images + rows
    && (forall k :: k in w.objects ==> k in w2.objects && w2.objects[k] == w.objects[k])
    && forall i :: 0 <= i < |rows| ==>
         && rows[i].listing == l && rows[i].key.listing == l
         && rows[i].position == |ImagesOf(w.db.images, l)| + i
         && rows[i].key in w2.objects && w2.objects[rows[i].key] == files[i]
         && HasSignature(files[i], rows[i].key.extension)
  }

  lemma UploadChanges(s: Settings, w: World, e: Event)
    requires e.req.UploadImages? && Answer(s, w, e).Ok?
    requires FreshUuids(w.objects, e.req.listing, e.minted.uuids, |e.req.files|)
    ensures Answer(s, w, e).value.Uploaded?
    ensures Added(w, Step(s, w, e), e.req.listing, e.req.files, Answer(s, w, e).value.images)
  {
    var l, files, start := e.req.listing, e.req.files, |ImagesOf(w.db.images, e.req.listing)|;
    var checked := CheckFiles(start, files);
    UploadIsItsBatch(s, w, e);
    var batch := BatchFor(l, checked.value, e.minted.uuids);
    hide Step, Answer, CheckFiles, StoreBatch, BatchFor, ImagesOf, HasSignature, Validate, Acceptable;
    KeysAreNew(w.objects, l, checked.value, e.minted.uuids);
    StoreBatchFrame(w.objects, batch, e.script);
  }

  lemma KeysAreNew(objects: Objects, l: ListingId, validated: seq<Validated>, uuids: seq<nat>)
    requires FreshUuids(objects, l, uuids, |validated|)
    ensures NewKeys(objects, BatchFor(l, validated, uuids))
  {
  }

  lemma UploadIsItsBatch(s: Settings, w: World, e: Event)
    requires e.req.UploadImages? && Answer(s, w, e).Ok?
    ensures
      var l, start := e.req.listing, |ImagesOf(w.db.images, e.req.listing)|;
      var checked := CheckFiles(start, e.req.files);
      && checked.Ok?
      && var batch := BatchFor(l, checked.value, e.minted.uuids);
      && StoreBatch(w.objects, batch, e.script).ok
      && Step(s, w, e).objects == StoreBatch(w.objects, batch, e.script).objects
      && Step(s, w, e).db.images == w.db.images + RowsFor(l, start, batch)
      && Answer(s, w, e) == Ok(Uploaded(RowsFor(l, start, batch)))
  {
    hide CurrentUser, CheckFiles, StoreBatch, BatchFor, ImagesOf;
  }
}
