/** What a listing can go through over a whole serial run. */
module ListingLifecycle {
  import opened Wrappers
  import opened Domain
  import opened Rules
  import opened Runs
  import opened Effects

  function Rank(status: Status): nat {
    match status
    case Available => 0
    case Sold => 1
    case Deleted => 2
  }

  /** `soldAt` is absent while the listing is available, and present once it is sold. */
  ghost predicate Coherent(w: World) {
    forall l :: l in w.db.listings ==>
      && (w.db.listings[l].status == Available ==> w.db.listings[l].soldAt.None?)
      && (w.db.listings[l].status == Sold ==> w.db.listings[l].soldAt.Some?)
  }

  /** How a listing may differ between an earlier and a later state. */
  ghost predicate Advances(w: World, w2: World, l: ListingId)
    requires l in w.db.listings
  {
    l in w2.db.listings &&
    var a, b := w.db.listings[l], w2.db.listings[l];
    && Rank(a.status) <= Rank(b.status)
    && a.ownerId == b.ownerId && a.createdAt == b.createdAt
    && (a.soldAt.Some? ==> b.soldAt == a.soldAt)
    && (a.status != Available ==>
          && b.content == a.content && b.soldAt == a.soldAt
          && ImagesOf(w2.db.images, l) == ImagesOf(w.db.images, l))
    && (a.status == Deleted ==> b == a)
  }

  lemma {:induction false} OthersImagesStay(before: seq<Image>, after: seq<Image>, l: ListingId)
    requires before <= after && forall i :: |before| <= i < |after| ==> after[i].listing != l
    ensures ImagesOf(after, l) == ImagesOf(before, l)
    decreases |after|
  {
    if |after| == |before| {
      assert after == before;
    } else {
      OthersImagesStay(before, after[..|after| - 1], l);
    }
  }

  lemma StepAdvances(s: Settings, w: World, e: Event, l: ListingId)
    requires Possible(w, e) && Coherent(w) && l in w.db.listings
    ensures Advances(w, Step(s, w, e), l)
  {
    hide Step, Answer;
    ListingsAreThose(s, w, e);
    if (e.req.UpdateListing? || e.req.MarkSold?) && Answer(s, w, e).Ok? { EditsNeedAvailable(s, w, e); }
    ImagesGrow(s, w, e);
    if w.db.listings[l].status != Available {
      OthersImagesStay(w.db.images, Step(s, w, e).db.images, l);
    }
  }

  lemma CoherenceKept(s: Settings, w: World, e: Event)
    requires Possible(w, e) && Coherent(w)
    ensures Coherent(Step(s, w, e))
  {
    hide Step, Answer;
    ListingsAreThose(s, w, e);
    if (e.req.UpdateListing? || e.req.MarkSold?) && Answer(s, w, e).Ok? { EditsNeedAvailable(s, w, e); }
  }

  lemma {:induction false} RunAdvances(s: Settings, w: World, es: seq<Event>)
    requires ValidRun(s, w, es) && Coherent(w)
    ensures Coherent(Run(s, w, es))
    ensures forall l :: l in w.db.listings ==> Advances(w, Run(s, w, es), l)
  {
    hide Step;
    if es != [] {
      var init, last := es[..|es| - 1], es[|es| - 1];
      RunAdvances(s, w, init);
      var w1 := Run(s, w, init);
      CoherenceKept(s, w1, last);
      forall l | l in w.db.listings ensures Advances(w, Step(s, w1, last), l) {
        assert Advances(w, w1, l);
        StepAdvances(s, w1, last, l);
      }
    }
  }

  /** Over every run from every reachable state: status never moves back, the owner never changes,
      `soldAt` is never overwritten, content and images are frozen from the first step out of
      `available`, and a deleted row does not change at all, `updatedAt` included. */
  lemma LifecycleIsMonotone(s: Settings, w: World, es: seq<Event>, l: ListingId)
    requires Reachable(s, w) && ValidRun(s, w, es) && l in w.db.listings
    ensures Advances(w, Run(s, w, es), l)
  {
    hide Step, Run, ValidRun, Reachable;
    ReachableIsCoherent(s, w);
    RunAdvances(s, w, es);
  }

  lemma ReachableIsCoherent(s: Settings, w: World)
    requires Reachable(s, w)
    ensures Coherent(w)
  {
    hide Step, Run, ValidRun;
    var start, es :| Genesis(start) && ValidRun(s, start, es) && w == Run(s, start, es);
    RunAdvances(s, start, es);
  }

  /** `soldAt` changes in exactly the accepted `mark_sold` requests, from absent to the current time. */
  lemma SoldAtIsMarkSold(s: Settings, w: World, e: Event, l: ListingId)
    requires Reachable(s, w) && Possible(w, e) && l in w.db.listings
    ensures l in Step(s, w, e).db.listings
    ensures
      var a, b := w.db.listings[l], Step(s, w, e).db.listings[l];
      && (b.soldAt != a.soldAt <==> e.req.MarkSold? && e.req.listing == l && Answer(s, w, e).Ok?)
      && (b.soldAt != a.soldAt ==>
            && a.soldAt.None? && b.soldAt == Some(e.now)
            && a.status == Available && b.status == Sold)
  {
    hide Step, Reachable;
    ReachableIsCoherent(s, w);
    ListingsAreThose(s, w, e);
    if e.req.MarkSold? && Answer(s, w, e).Ok? { EditsNeedAvailable(s, w, e); }
  }

  /** Deleting a deleted listing, by its owner or by an admin, is answered without changing anything. */
  lemma RepeatedDeleteIsSilent(s: Settings, w: World, e: Event)
    requires e.req.DeleteListing? || e.req.RemoveListing?
    requires e.req.listing in w.db.listings && w.db.listings[e.req.listing].status == Deleted
    ensures Step(s, w, e).db == w.db
  {
  }
}
