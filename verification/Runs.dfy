/** Serial runs: any number of requests, each one committed or rolled back before the next. */
module Runs {
  import opened Wrappers
  import opened Domain
  import opened AccessTokens
  import opened ObjectStorage
  import opened Rules
  import RefreshTokens

  /** One request together with what the outside world contributes to it. `crash` says that some
      statement fails with anything but a `DomainError`. */
  datatype Event = Event(req: Request, now: Time, minted: Minted, raced: bool, script: Script, crash: bool)

  /** The committed database, the object store, every access token ever handed out, and the clock. */
  datatype World = World(db: Db, objects: Objects, issued: set<AccessToken>, now: Time)

  function EnvFor(s: Settings, w: World, e: Event): Env {
    Env(s, e.now, w.issued, e.minted, e.raced, e.script)
  }

  /** The clock does not go back, and generated identifiers are new. */
  ghost predicate Possible(w: World, e: Event) {
    && w.now <= e.now
    && e.minted.user !in w.db.users
    && e.minted.token !in w.db.tokens
    && RefreshTokens.UnusedFamily(w.db.tokens, e.minted.family)
    && e.minted.listing !in w.db.listings
  }

  function Served(s: Settings, w: World, e: Event): UploadEffect {
    var env := EnvFor(s, w, e);
    match e.req
    case UploadImages(access, l, files) => ServeUpload(w.db, w.objects, env, access, l, files)
    case _ =>
      var effect := Serve(w.db, env, e.req);
      UploadEffect(effect.outcome, effect.db, w.objects)
  }

  function Answer(s: Settings, w: World, e: Event): Outcome<Reply> {
    if e.crash then Crashed else Served(s, w, e).outcome
  }

  function Step(s: Settings, w: World, e: Event): World {
    var served := Served(s, w, e);
    var answer := Answer(s, w, e);
    World(
      if e.crash then w.db else served.db,
      served.objects,
      if answer.Ok? && answer.value.TokenPair? then w.issued + {answer.value.access} else w.issued,
      e.now)
  }

  function Run(s: Settings, w: World, es: seq<Event>): World {
    if es == [] then w else Step(s, Run(s, w, es[..|es| - 1]), es[|es| - 1])
  }

  /** Every event of the run is possible in the world it happens in. */
  ghost predicate ValidRun(s: Settings, w: World, es: seq<Event>) {
    es == [] ||
    var init, last := es[..|es| - 1], es[|es| - 1];
    ValidRun(s, w, init) && Possible(Run(s, w, init), last)
  }

  /** Before the first request: accounts may exist (each with its email, all in good standing), nothing else does. */
  ghost predicate Genesis(w: World) {
    && w.db.tokens == map[] && w.db.listings == map[] && w.db.images == [] && w.db.audit == []
    && w.issued == {}
    && (forall u :: u in w.db.users ==> w.db.users[u].isActive)
    && (forall x :: x in w.db.emails ==> w.db.emails[x] in w.db.users)
    && (forall x, y :: x in w.db.emails && y in w.db.emails && w.db.emails[x] == w.db.emails[y] ==> x == y)
    && (forall u :: u in w.db.users ==> u in w.db.emails.Values)
  }

  ghost predicate Reachable(s: Settings, w: World) {
    exists start, es :: Genesis(start) && ValidRun(s, start, es) && w == Run(s, start, es)
  }

  /** A request that ends in any exception leaves the committed database as it was, with one
      exception: a refresh that presents a revoked, unexpired token, whose only effect is to
      revoke the tokens of that family. No access token is handed out either way. */
  lemma FailureFrame(s: Settings, w: World, e: Event)
    requires !Answer(s, w, e).Ok?
    ensures Step(s, w, e).issued == w.issued
    ensures Step(s, w, e).db == w.db || (
      && !e.crash && e.req.Refresh? && e.req.cookie.Some?
      && RefreshTokens.IsReuse(w.db.tokens, e.req.cookie.value, e.now)
      && Answer(s, w, e) == Raised(InvalidRefreshToken)
      && Step(s, w, e).db == w.db.(tokens :=
           RefreshTokens.FamilyRevoked(w.db.tokens, w.db.tokens[e.req.cookie.value].familyId)))
  {
    if !e.crash && e.req.Refresh? && e.req.cookie.Some? {
      var t, c := w.db.tokens, e.req.cookie.value;
      var r := RefreshTokens.Refresh(t, c, e.now, e.minted.token, s.refreshTtl);
      assert r.owner.None?;
      if !RefreshTokens.IsReuse(t, c, e.now) { assert r.table == t; }
    }
  }
}
