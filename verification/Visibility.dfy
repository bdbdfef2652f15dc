/** What suspension and reinstatement do to what the public sees. */
module Visibility {
  import opened Wrappers
  import opened Domain
  import opened Rules
  import opened Runs
  import opened Effects
  import opened Browse
  import Accounts

  /** The two states show the same listings, and everybody known to the first is in the same standing. */
  ghost predicate SameStanding(w: World, w2: World) {
    && w2.db.listings == w.db.listings
    && forall u :: u in w.db.users ==> u in w2.db.users && w2.db.users[u].isActive == w.db.users[u].isActive
  }

  /** An accepted request that changes a listing, or somebody's standing. */
  predicate Disturbs(s: Settings, w: World, e: Event) {
    Answer(s, w, e).Ok? && (TouchesListings(e.req) || e.req.SuspendUser? || e.req.ReinstateUser?)
  }

  ghost predicate Undisturbed(s: Settings, w: World, es: seq<Event>) {
    es == [] ||
    var init, last := es[..|es| - 1], es[|es| - 1];
    Undisturbed(s, w, init) && !Disturbs(s, Run(s, w, init), last)
  }

  lemma StepKeepsStanding(s: Settings, w: World, e: Event)
    requires Possible(w, e) && !Disturbs(s, w, e)
    ensures SameStanding(w, Step(s, w, e))
  {
    hide Step, Answer;
    ListingsAreThose(s, w, e);
    forall u | u in w.db.users
      ensures u in Step(s, w, e).db.users && Step(s, w, e).db.users[u].isActive == w.db.users[u].isActive
    {
      StandingAfter(s, w, e, u);
    }
  }

  lemma {:induction false} RunKeepsStanding(s: Settings, w: World, es: seq<Event>)
    requires ValidRun(s, w, es) && Undisturbed(s, w, es)
    ensures SameStanding(w, Run(s, w, es))
  {
    hide Step, Disturbs;
    if es != [] {
      RunKeepsStanding(s, w, es[..|es| - 1]);
      StepKeepsStanding(s, Run(s, w, es[..|es| - 1]), es[|es| - 1]);
    }
  }

  /** A suspension, or a reinstatement, changes the standing of its target and no listing. */
  lemma VerdictChangesOne(s: Settings, w: World, e: Event, u: UserId)
    requires Possible(w, e) && (Suspends(s, w, e, u) || Reinstates(s, w, e, u))
    ensures Step(s, w, e).db.listings == w.db.listings && Step(s, w, e).db.users.Keys == w.db.users.Keys
    ensures u in w.db.users && w.db.users[u].isActive == Suspends(s, w, e, u)
    ensures Step(s, w, e).db.users == w.db.users[u := w.db.users[u].(isActive := Reinstates(s, w, e, u))]
  {
    OthersSpareListings(s, w, e);
    VerdictsNeedStanding(s, w, e);
    UsersAreThose(s, w, e);
  }

  /** Suspending a seller drops exactly that seller's listings from every public result, whatever the
      filters, and leaves the others in the order they were in. */
  lemma SuspensionHidesExactlyTheSeller(s: Settings, w: World, e: Event, u: UserId, fts: TextSearch, f: Filters)
    requires Possible(w, e) && Suspends(s, w, e, u)
    ensures Step(s, w, e).db.listings == w.db.listings
    ensures
      Ordered(w.db.listings, Public(Step(s, w, e).db, fts, f)) ==
      Keep(Ordered(w.db.listings, Public(w.db, fts, f)), w.db.listings.Keys - OwnedBy(w.db, u))
  {
    hide Step, Suspends, Ordered, Keep;
    var others := w.db.listings.Keys - OwnedBy(w.db, u);
    VerdictChangesOne(s, w, e, u);
    assert Public(Step(s, w, e).db, fts, f) == Public(w.db, fts, f) * others;
    OrderedSubset(w.db.listings, Public(w.db, fts, f), others);
  }

  /** The same listings in the same standing give the same pages. */
  lemma SamePages(db: Db, db2: Db, fts: TextSearch, f: Filters, page: nat, size: nat)
    requires page >= 1 && size >= 1 && db2.listings == db.listings
    requires forall l :: l in db.listings ==> SellerActive(db2, l) == SellerActive(db, l)
    ensures BrowsePage(db2, fts, f, page, size) == BrowsePage(db, fts, f, page, size)
  {
    hide Ordered, SellerActive;
    assert Public(db2, fts, f) == Public(db, fts, f);
  }

  /** From a suspension to the reinstatement, with any requests in between that neither change a listing
      nor anybody's standing: every page is then as it was before the suspension. */
  lemma ReinstatementRestoresEveryPage(
    s: Settings, w: World, e: Event, es: seq<Event>, e2: Event, u: UserId,
    fts: TextSearch, f: Filters, page: nat, size: nat)
    requires Reachable(s, w) && Possible(w, e) && Suspends(s, w, e, u)
    requires ValidRun(s, Step(s, w, e), es) && Undisturbed(s, Step(s, w, e), es)
    requires Possible(Run(s, Step(s, w, e), es), e2) && Reinstates(s, Run(s, Step(s, w, e), es), e2, u)
    requires page >= 1 && size >= 1
    ensures
      BrowsePage(Step(s, Run(s, Step(s, w, e), es), e2).db, fts, f, page, size) == BrowsePage(w.db, fts, f, page, size)
  {
    hide Step, Suspends, Reinstates, Possible, Reachable, Undisturbed, ValidRun, Run, BrowsePage;
    var w1 := Step(s, w, e);
    var w2 := Run(s, w1, es);
    var w3 := Step(s, w2, e2);
    VerdictChangesOne(s, w, e, u);
    RunKeepsStanding(s, w1, es);
    VerdictChangesOne(s, w2, e2, u);
    Accounts.ReachableOwners(s, w);
    forall l | l in w.db.listings ensures SellerActive(w3.db, l) == SellerActive(w.db, l) {}
    SamePages(w.db, w3.db, fts, f, page, size);
  }

  /** A suspended seller's listings are gone from the public results, but everybody sees of each listing's
      own page exactly what they saw before. */
  lemma SuspensionLeavesDetailPages(
    s: Settings, w: World, e: Event, u: UserId, l: ListingId, requester: Option<UserId>, fts: TextSearch, f: Filters)
    requires Possible(w, e) && Suspends(s, w, e, u)
    ensures GetDetail(Step(s, w, e).db, l, requester) == GetDetail(w.db, l, requester)
    ensures l in w.db.listings && w.db.listings[l].ownerId == u ==> l !in Public(Step(s, w, e).db, fts, f)
  {
    hide Step, Suspends;
    VerdictChangesOne(s, w, e, u);
  }

  // ---- a new listing ----

  /** A listing created later than every other is at once the first thing on the first page of the unfiltered
      browse, if its seller is in good standing. */
  lemma NewestComesFirst(s: Settings, w: World, e: Event, u: UserId, fts: TextSearch, size: nat)
    requires Possible(w, e) && e.req.CreateListing? && Answer(s, w, e).Ok? && size >= 1
    requires Identifies(w.db, EnvFor(s, w, e), e.req.access, u) && w.db.users[u].isActive
    requires forall l :: l in w.db.listings ==> w.db.listings[l].createdAt < e.now
    ensures
      var items := BrowsePage(Step(s, w, e).db, fts, NO_FILTERS, 1, size).items;
      items != [] && items[0] == e.minted.listing
  {
    var db2, latest := Step(s, w, e).db, e.minted.listing;
    CreatedIsPublic(s, w, e, u, fts);
    hide Step, Answer, Public, Ordered, Identifies;
    FirstIsNewest(db2.listings, Public(db2, fts, NO_FILTERS), latest);
  }

  lemma CreatedIsPublic(s: Settings, w: World, e: Event, u: UserId, fts: TextSearch)
    requires Possible(w, e) && e.req.CreateListing? && Answer(s, w, e).Ok?
    requires Identifies(w.db, EnvFor(s, w, e), e.req.access, u) && w.db.users[u].isActive
    ensures
      var db2 := Step(s, w, e).db;
      && e.minted.listing in Public(db2, fts, NO_FILTERS) && db2.listings[e.minted.listing].createdAt == e.now
      && forall l :: l in db2.listings && l != e.minted.listing ==>
           l in w.db.listings && db2.listings[l] == w.db.listings[l]
  {
    hide Step;
    ListingsAreThose(s, w, e);
    OthersSpareUsers(s, w, e);
    WhoPasses(w.db, EnvFor(s, w, e), e.req.access, u);
  }

  lemma FirstIsNewest(ls: map<ListingId, Listing>, ids: set<ListingId>, latest: ListingId)
    requires ids <= ls.Keys && latest in ids
    requires forall l :: l in ids && l != latest ==> ls[l].createdAt < ls[latest].createdAt
    ensures Ordered(ls, ids) != [] && Ordered(ls, ids)[0] == latest
  {
    hide Ordered;
    var rows := Ordered(ls, ids);
    assert latest in rows;
    var i :| 0 <= i < |rows| && rows[i] == latest;
    ArrangedIsNewestFirst(ls, ids, rows);
    assert rows[0] in rows;
    assert i > 0 ==> NotOlder(ls, rows[0], rows[i]);
  }
}
