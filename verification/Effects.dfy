/** One serial step, table by table: which requests touch which table, and how. */
module Effects {
  import opened Wrappers
  import opened Domain
  import opened Rules
  import opened Runs
  import opened RefreshTokens

  predicate Suspends(s: Settings, w: World, e: Event, u: UserId) {
    e.req.SuspendUser? && e.req.target == u && Answer(s, w, e).Ok?
  }

  predicate Reinstates(s: Settings, w: World, e: Event, u: UserId) {
    e.req.ReinstateUser? && e.req.target == u && Answer(s, w, e).Ok?
  }

  /** The token table after a request: only four kinds of request ever touch it. */
  function TokensAfter(s: Settings, w: World, e: Event): TokenTable {
    var t := w.db.tokens;
    if e.crash then t
    else
      match e.req
      case Login(email, _) =>
        if Answer(s, w, e).Ok? && ByEmail(w.db, s.fold(email)).Some? then
          Created(t, e.minted.token,
            RefreshToken(ByEmail(w.db, s.fold(email)).value, e.minted.family, false, e.now + s.refreshTtl))
        else t
      case Refresh(cookie) =>
        if cookie.Some? then RefreshTokens.Refresh(t, cookie.value, e.now, e.minted.token, s.refreshTtl).table else t
      case Logout(_, cookie) =>
        if Answer(s, w, e).Ok? && cookie.Some? && Live(t, cookie.value) then Revoked(t, cookie.value) else t
      case SuspendUser(_, target, _) =>
        if Answer(s, w, e).Ok? then UserRevoked(t, target) else t
      case _ => t
  }

  predicate TouchesTokens(req: Request) {
    req.Login? || req.Refresh? || req.Logout? || req.SuspendUser?
  }

  lemma OthersSpareTokens(s: Settings, w: World, e: Event)
    requires !TouchesTokens(e.req)
    ensures Step(s, w, e).db.tokens == w.db.tokens
  {
    if !e.crash {
      match e.req
      case Register(_, _, _) =>
      case UploadImages(_, _, _) =>
      case _ =>
    }
  }

  lemma TokensAreThose(s: Settings, w: World, e: Event)
    ensures Step(s, w, e).db.tokens == TokensAfter(s, w, e)
  {
    if !TouchesTokens(e.req) {
      OthersSpareTokens(s, w, e);
    } else if !e.crash {
      match e.req
      case Login(_, _) =>
      case Refresh(_) =>
      case Logout(_, _) =>
      case SuspendUser(_, _, _) =>
    }
  }

  /** The user table after a request. */
  function UsersAfter(s: Settings, w: World, e: Event): map<UserId, User> {
    var us := w.db.users;
    var env := EnvFor(s, w, e);
    if !Answer(s, w, e).Ok? then us
    else
      match e.req
      case Register(_, password, name) => us[e.minted.user := User(Argon2(password), name, RegularUser, true, false)]
      case UpdateDisplayName(access, name) =>
        var who := CurrentUser(w.db, env, access);
        if who.Ok? then us[who.value := us[who.value].(displayName := name)] else us
      case ChangePassword(access, _, replacement) =>
        var who := ResolveCurrentUser(w.db, env, access);
        if who.Ok? then
          us[who.value := us[who.value].(password := Argon2(replacement), mustChangePassword := false)]
        else us
      case SuspendUser(_, u, _) => if u in us then us[u := us[u].(isActive := false)] else us
      case ReinstateUser(_, u) => if u in us then us[u := us[u].(isActive := true)] else us
      case ResetPassword(_, u) =>
        if u in us then us[u := us[u].(password := Argon2(e.minted.password), mustChangePassword := true)] else us
      case _ => us
  }

  predicate TouchesUsers(req: Request) {
    || req.Register? || req.UpdateDisplayName? || req.ChangePassword?
    || req.SuspendUser? || req.ReinstateUser? || req.ResetPassword?
  }

  lemma OthersSpareUsers(s: Settings, w: World, e: Event)
    requires !TouchesUsers(e.req)
    ensures Step(s, w, e).db.users == w.db.users
  {
    if !e.crash {
      match e.req
      case Login(_, _) =>
      case Refresh(_) =>
      case UploadImages(_, _, _) =>
      case _ =>
    }
  }

  lemma UsersAreThose(s: Settings, w: World, e: Event)
    ensures Step(s, w, e).db.users == UsersAfter(s, w, e)
  {
    if !TouchesUsers(e.req) {
      OthersSpareUsers(s, w, e);
    } else if !e.crash {
      match e.req
      case Register(_, _, _) =>
      case UpdateDisplayName(_, _) =>
      case ChangePassword(_, _, _) =>
      case SuspendUser(_, _, _) =>
      case ReinstateUser(_, _) =>
      case ResetPassword(_, _) =>
    }
  }

  lemma OthersSpareEmails(s: Settings, w: World, e: Event)
    requires !e.req.Register?
    ensures Step(s, w, e).db.emails == w.db.emails
  {
    hide ResolveCurrentUser, CurrentUser, RequireAdmin;
    if TouchesUsers(e.req) {
      if !e.crash {
        match e.req
        case UpdateDisplayName(_, _) =>
        case ChangePassword(_, _, _) =>
        case _ =>
      }
    } else if !e.crash {
      match e.req
      case Login(_, _) =>
      case Refresh(_) =>
      case UploadImages(_, _, _) =>
      case _ =>
    }
  }

  /** The email index after a request. */
  lemma EmailsAfter(s: Settings, w: World, e: Event)
    ensures
      var accepted := e.req.Register? && Answer(s, w, e).Ok?;
      && Step(s, w, e).db.emails ==
           (if accepted then w.db.emails[s.fold(e.req.email) := e.minted.user] else w.db.emails)
      && (accepted ==> s.fold(e.req.email) !in w.db.emails)
  {
    if !e.req.Register? { OthersSpareEmails(s, w, e); }
  }

  /** Nothing but an accepted suspension or reinstatement changes anybody's standing. */
  lemma StandingAfter(s: Settings, w: World, e: Event, u: UserId)
    requires Possible(w, e) && u in w.db.users
    ensures u in Step(s, w, e).db.users
    ensures Step(s, w, e).db.users[u].isActive ==
      if Suspends(s, w, e, u) then false else if Reinstates(s, w, e, u) then true else w.db.users[u].isActive
  {
    UsersAreThose(s, w, e);
  }

  lemma NewUsersAreActive(s: Settings, w: World, e: Event, u: UserId)
    requires u !in w.db.users && u in Step(s, w, e).db.users
    ensures Step(s, w, e).db.users[u].isActive
  {
    UsersAreThose(s, w, e);
  }

  /** The listing table after a request. */
  function ListingsAfter(s: Settings, w: World, e: Event): map<ListingId, Listing> {
    var ls := w.db.listings;
    var env := EnvFor(s, w, e);
    if !Answer(s, w, e).Ok? then ls
    else
      match e.req
      case CreateListing(access, content) =>
        var who := CurrentUser(w.db, env, access);
        if who.Ok? then ls[e.minted.listing := Listing(who.value, content, Available, None, e.now, e.now)] else ls
      case UpdateListing(_, l, fields) =>
        if l in ls && Applied(ls[l].content, fields) != ls[l].content then
          ls[l := ls[l].(content := Applied(ls[l].content, fields), updatedAt := e.now)]
        else ls
      case MarkSold(_, l) =>
        if l in ls then ls[l := ls[l].(status := Sold, soldAt := Some(e.now), updatedAt := e.now)] else ls
      case DeleteListing(_, l) =>
        if l in ls && ls[l].status != Deleted then ls[l := ls[l].(status := Deleted, updatedAt := e.now)] else ls
      case RemoveListing(_, l, _) =>
        if l in ls && ls[l].status != Deleted then ls[l := ls[l].(status := Deleted, updatedAt := e.now)] else ls
      case _ => ls
  }

  predicate TouchesListings(req: Request) {
    req.CreateListing? || req.UpdateListing? || req.MarkSold? || req.DeleteListing? || req.RemoveListing?
  }

  lemma OthersSpareListings(s: Settings, w: World, e: Event)
    requires !TouchesListings(e.req)
    ensures Step(s, w, e).db.listings == w.db.listings
  {
    if !e.crash {
      match e.req
      case Register(_, _, _) =>
      case UploadImages(_, _, _) =>
      case _ =>
    }
  }

  lemma EditsAreThose(s: Settings, w: World, e: Event)
    requires e.req.UpdateListing? || e.req.MarkSold?
    ensures Step(s, w, e).db.listings == ListingsAfter(s, w, e)
  {
    hide Applied, CurrentUser;
    if !e.crash {
      match e.req
      case UpdateListing(_, _, _) =>
      case MarkSold(_, _) =>
    }
  }

  lemma ListingsAreThose(s: Settings, w: World, e: Event)
    ensures Step(s, w, e).db.listings == ListingsAfter(s, w, e)
  {
    if !TouchesListings(e.req) {
      OthersSpareListings(s, w, e);
    } else if e.req.UpdateListing? || e.req.MarkSold? {
      EditsAreThose(s, w, e);
    } else if !e.crash {
      match e.req
      case CreateListing(_, _) =>
      case DeleteListing(_, _) =>
      case RemoveListing(_, _, _) =>
    }
  }

  /** Edits and sales find their listing available. */
  lemma EditsNeedAvailable(s: Settings, w: World, e: Event)
    requires (e.req.UpdateListing? || e.req.MarkSold?) && Answer(s, w, e).Ok?
    ensures e.req.listing in w.db.listings && w.db.listings[e.req.listing].status == Available
  {
  }

  /** Image rows are only ever added, by an upload to an available listing, and only to it. */
  lemma ImagesGrow(s: Settings, w: World, e: Event)
    ensures
      var before, after := w.db.images, Step(s, w, e).db.images;
      && before <= after
      && (after != before ==> e.req.UploadImages? && Answer(s, w, e).Ok?)
      && forall i :: |before| <= i < |after| ==>
           && after[i].listing == e.req.listing
           && e.req.listing in w.db.listings && w.db.listings[e.req.listing].status == Available
  {
    if !e.crash {
      match e.req
      case UploadImages(_, _, _) =>
      case _ =>
    }
  }

  /** The audit log after a request: one row for each accepted action that changed something. */
  function AuditAfter(s: Settings, w: World, e: Event): seq<AuditRow> {
    var log := w.db.audit;
    var env := EnvFor(s, w, e);
    if !Answer(s, w, e).Ok? then log
    else
      match e.req
      case SuspendUser(access, u, reason) =>
        var who := RequireAdmin(w.db, env, access);
        if who.Ok? then log + [AuditRow(who.value, Action.SuspendUser, u, Some(reason))] else log
      case ReinstateUser(access, u) =>
        var who := RequireAdmin(w.db, env, access);
        if who.Ok? then log + [AuditRow(who.value, Action.ReinstateUser, u, None)] else log
      case ResetPassword(access, u) =>
        var who := RequireAdmin(w.db, env, access);
        if who.Ok? then log + [AuditRow(who.value, Action.ResetPassword, u, None)] else log
      case RemoveListing(access, l, reason) =>
        var who := RequireAdmin(w.db, env, access);
        if who.Ok? && l in w.db.listings && w.db.listings[l].status != Deleted then
          log + [AuditRow(who.value, Action.RemoveListing, l, Some(reason))]
        else log
      case _ => log
  }

  lemma AuditIsThat(s: Settings, w: World, e: Event)
    ensures Step(s, w, e).db.audit == AuditAfter(s, w, e)
  {
    if !e.crash {
      match e.req
      case SuspendUser(_, _, _) =>
      case ReinstateUser(_, _) =>
      case ResetPassword(_, _) =>
      case RemoveListing(_, _, _) =>
      case UploadImages(_, _, _) =>
      case _ =>
    }
  }

  /** An accepted suspension finds its target active, an accepted reinstatement suspended. */
  lemma VerdictsNeedStanding(s: Settings, w: World, e: Event)
    requires Answer(s, w, e).Ok?
    ensures e.req.SuspendUser? ==>
      && e.req.target in w.db.users && w.db.users[e.req.target].isActive
      && RequireAdmin(w.db, EnvFor(s, w, e), e.req.access).Ok?
    ensures e.req.ReinstateUser? ==>
      && e.req.target in w.db.users && !w.db.users[e.req.target].isActive
      && RequireAdmin(w.db, EnvFor(s, w, e), e.req.access).Ok?
  {
  }
}
