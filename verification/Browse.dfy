/** Listing queries: which listings match, in what order, and which slice of them is a page. */
module Browse {
  import opened Wrappers
  import opened Domain

  /** Postgres full-text search, which this model does not look into: does the query match a title
      and an author? */
  type TextSearch = (string, string, string) -> bool

  datatype Filters = Filters(
    search: Option<string>,
    category: Option<Category>,
    condition: Option<Condition>,
    minPrice: Option<nat>,
    maxPrice: Option<nat>)

  const NO_FILTERS := Filters(None, None, None, None, None)

  /** An absent filter, or an empty search string, constrains nothing. */
  predicate Matches(fts: TextSearch, f: Filters, c: Content) {
    && (f.search.Some? && f.search.value != "" ==> fts(f.search.value, c.title, c.author))
    && (f.category.Some? ==> c.category == f.category.value)
    && (f.condition.Some? ==> c.condition == f.condition.value)
    && (f.minPrice.Some? ==> f.minPrice.value <= c.price)
    && (f.maxPrice.Some? ==> c.price <= f.maxPrice.value)
  }

  predicate SellerActive(db: Db, l: ListingId)
    requires l in db.listings
  {
    var owner := db.listings[l].ownerId;
    owner in db.users && db.users[owner].isActive
  }

  /** The public result set: the two unconditional constraints and the caller's filters. */
  function Public(db: Db, fts: TextSearch, f: Filters): set<ListingId> {
    set l | l in db.listings && db.listings[l].status == Available && SellerActive(db, l)
      && Matches(fts, f, db.listings[l].content)
  }

  /** The admin result set. */
  function AnyStatus(db: Db, status: Option<Status>): set<ListingId> {
    set l | l in db.listings && (status.Some? ==> db.listings[l].status == status.value)
  }

  // ---- order ----

  /** `created_at DESC, id DESC`. */
  predicate Before(ls: map<ListingId, Listing>, a: ListingId, b: ListingId)
    requires a in ls && b in ls
  {
    ls[a].createdAt > ls[b].createdAt || (ls[a].createdAt == ls[b].createdAt && a > b)
  }

  /** `rows` are exactly the listings of `ids`, each once, in order. */
  ghost predicate Arranges(ls: map<ListingId, Listing>, ids: set<ListingId>, rows: seq<ListingId>)
    requires ids <= ls.Keys
  {
    && (forall l :: l in rows <==> l in ids)
    && (forall i, j :: 0 <= i < j < |rows| ==> rows[i] in ids && rows[j] in ids && Before(ls, rows[i], rows[j]))
  }

  lemma HeadIsLatest(ls: map<ListingId, Listing>, ids: set<ListingId>, rows: seq<ListingId>)
    requires ids <= ls.Keys && Arranges(ls, ids, rows)
    ensures rows == [] <==> ids == {}
    ensures rows != [] ==> rows[0] in ids && forall l :: l in ids && l != rows[0] ==> Before(ls, rows[0], l)
  {
    if rows != [] {
      assert rows[0] in rows;
      forall l | l in ids && l != rows[0] ensures Before(ls, rows[0], l) {
        assert l in rows;
        var i :| 0 <= i < |rows| && rows[i] == l;
      }
    } else {
      assert forall l :: l in ids ==> l in rows;
    }
  }

  /** The id tiebreaker makes the order total, so a set of listings has exactly one arrangement. */
  lemma {:induction false} ArrangementIsUnique(
    ls: map<ListingId, Listing>, ids: set<ListingId>, p: seq<ListingId>, q: seq<ListingId>)
    requires ids <= ls.Keys && Arranges(ls, ids, p) && Arranges(ls, ids, q)
    ensures p == q
    decreases |p|
  {
    HeadIsLatest(ls, ids, p);
    HeadIsLatest(ls, ids, q);
    if p != [] {
      WithoutFirst(ls, ids, p);
      WithoutFirst(ls, ids, q);
      ArrangementIsUnique(ls, ids - {p[0]}, p[1..], q[1..]);
      assert p == [p[0]] + p[1..] && q == [q[0]] + q[1..];
    }
  }

  lemma WithoutFirst(ls: map<ListingId, Listing>, ids: set<ListingId>, rows: seq<ListingId>)
    requires ids <= ls.Keys && Arranges(ls, ids, rows) && rows != []
    ensures Arranges(ls, ids - {rows[0]}, rows[1..])
  {
  }

  ghost predicate IsLatest(ls: map<ListingId, Listing>, ids: set<ListingId>, m: ListingId)
    requires ids <= ls.Keys
  {
    m in ids && forall l :: l in ids && l != m ==> Before(ls, m, l)
  }

  lemma {:induction false} LatestExists(ls: map<ListingId, Listing>, ids: set<ListingId>)
    requires ids <= ls.Keys && ids != {}
    ensures exists m :: IsLatest(ls, ids, m)
    decreases |ids|
  {
    var x :| x in ids;
    var rest := ids - {x};
    if rest == {} {
      assert ids == {x};
      assert IsLatest(ls, ids, x);
    } else {
      LatestExists(ls, rest);
      var m :| IsLatest(ls, rest, m);
      var top := if Before(ls, x, m) then x else m;
      forall l | l in ids && l != top ensures Before(ls, top, l) {
        assert l == x || l in rest;
      }
      assert IsLatest(ls, ids, top);
    }
  }

  /** The arrangement. */
  ghost function Ordered(ls: map<ListingId, Listing>, ids: set<ListingId>): (rows: seq<ListingId>)
    requires ids <= ls.Keys
    ensures |rows| == |ids| && Arranges(ls, ids, rows)
    decreases |ids|
  {
    if ids == {} then []
    else
      LatestExists(ls, ids);
      var m :| IsLatest(ls, ids, m);
      var rest := Ordered(ls, ids - {m});
      OnTop(ls, ids, m, rest);
      [m] + rest
  }

  lemma OnTop(ls: map<ListingId, Listing>, ids: set<ListingId>, m: ListingId, rest: seq<ListingId>)
    requires ids <= ls.Keys && IsLatest(ls, ids, m) && Arranges(ls, ids - {m}, rest)
    ensures Arranges(ls, ids, [m] + rest)
  {
    hide Before;
    var rows := [m] + rest;
    assert forall l :: l in rows <==> l == m || l in rest;
    forall i, j | 0 <= i < j < |rows| ensures rows[i] in ids && rows[j] in ids && Before(ls, rows[i], rows[j]) {
      assert rows[j] == rest[j - 1] && rest[j - 1] in rest;
      if i > 0 { assert rows[i] == rest[i - 1]; }
    }
  }

  /** Arranging fewer listings is dropping the others from the arrangement. */
  function Keep(rows: seq<ListingId>, ids: set<ListingId>): seq<ListingId> {
    if rows == [] then []
    else
      var init := Keep(rows[..|rows| - 1], ids);
      var last := rows[|rows| - 1];
      if last in ids then init + [last] else init
  }

  lemma WithoutLast(ls: map<ListingId, Listing>, ids: set<ListingId>, rows: seq<ListingId>)
    requires ids <= ls.Keys && Arranges(ls, ids, rows) && rows != []
    ensures
      var init, last := rows[..|rows| - 1], rows[|rows| - 1];
      && last in ids && Arranges(ls, ids - {last}, init)
      && forall l :: l in init ==> l in ids && Before(ls, l, last)
  {
    var init, last := rows[..|rows| - 1], rows[|rows| - 1];
    assert rows == init + [last] && last in rows;
    forall l | l in init ensures l in ids && Before(ls, l, last) {
      var i :| 0 <= i < |init| && init[i] == l;
      assert rows[i] == l && l in rows && Before(ls, rows[i], rows[|rows| - 1]);
    }
    forall i, j | 0 <= i < j < |init|
      ensures init[i] in ids - {last} && init[j] in ids - {last} && Before(ls, init[i], init[j])
    {
      assert init[i] in init && init[j] in init && Before(ls, rows[i], rows[j]);
    }
    forall l ensures l in init <==> l in ids - {last} {
      if l in ids - {last} { assert l in rows; }
    }
  }

  lemma OneMoreArranged(ls: map<ListingId, Listing>, ids: set<ListingId>, rows: seq<ListingId>, last: ListingId)
    requires ids <= ls.Keys && Arranges(ls, ids, rows) && last in ls
    requires forall l :: l in rows ==> Before(ls, l, last)
    ensures Arranges(ls, ids + {last}, rows + [last])
  {
    var more := rows + [last];
    forall l ensures l in more <==> l in ids + {last} {
      assert l in more <==> l in rows || l == last;
    }
    forall i, j | 0 <= i < j < |more|
      ensures more[i] in ids + {last} && more[j] in ids + {last} && Before(ls, more[i], more[j])
    {
      assert more[i] == rows[i] && rows[i] in rows;
      if j < |rows| { assert rows[j] in rows && Before(ls, rows[i], rows[j]); }
    }
  }

  lemma {:induction false} KeepArranges(
    ls: map<ListingId, Listing>, ids: set<ListingId>, rows: seq<ListingId>, kept: set<ListingId>)
    requires ids <= ls.Keys && Arranges(ls, ids, rows)
    ensures Arranges(ls, ids * kept, Keep(rows, kept))
    ensures forall l :: l in Keep(rows, kept) ==> l in rows
    decreases |rows|
  {
    if rows == [] {
    } else {
      hide Before, Arranges;
      var init, last := rows[..|rows| - 1], rows[|rows| - 1];
      WithoutLast(ls, ids, rows);
      KeepArranges(ls, ids - {last}, init, kept);
      if last in kept {
        OneMoreArranged(ls, (ids - {last}) * kept, Keep(init, kept), last);
        assert ids * kept == (ids - {last}) * kept + {last};
      } else {
        assert ids * kept == (ids - {last}) * kept;
      }
      forall l | l in Keep(rows, kept) ensures l in rows {
        if l in init { var i :| 0 <= i < |init| && init[i] == l; assert rows[i] == l; }
      }
    }
  }

  lemma OrderedSubset(ls: map<ListingId, Listing>, ids: set<ListingId>, kept: set<ListingId>)
    requires ids <= ls.Keys
    ensures Ordered(ls, ids * kept) == Keep(Ordered(ls, ids), kept)
  {
    KeepArranges(ls, ids, Ordered(ls, ids), kept);
    ArrangementIsUnique(ls, ids * kept, Ordered(ls, ids * kept), Keep(Ordered(ls, ids), kept));
  }

  // ---- pages ----

  datatype Page = Page(items: seq<ListingId>, total: nat)

  function Min(a: int, b: int): int {
    if a < b then a else b
  }

  /** `LIMIT size OFFSET (page - 1) * size`. */
  function Slice(rows: seq<ListingId>, page: nat, size: nat): seq<ListingId>
    requires page >= 1 && size >= 1
  {
    var lo := Min((page - 1) * size, |rows|);
    rows[lo..Min(lo + size, |rows|)]
  }

  ghost function PageOf(ls: map<ListingId, Listing>, ids: set<ListingId>, page: nat, size: nat): Page
    requires ids <= ls.Keys && page >= 1 && size >= 1
  {
    Page(Slice(Ordered(ls, ids), page, size), |ids|)
  }

  ghost function BrowsePage(db: Db, fts: TextSearch, f: Filters, page: nat, size: nat): Page
    requires page >= 1 && size >= 1
  {
    PageOf(db.listings, Public(db, fts, f), page, size)
  }

  ghost function ListAllPage(db: Db, status: Option<Status>, page: nat, size: nat): Page
    requires page >= 1 && size >= 1
  {
    PageOf(db.listings, AnyStatus(db, status), page, size)
  }

  function OwnedBy(db: Db, u: UserId): set<ListingId> {
    set l | l in db.listings && db.listings[l].ownerId == u
  }

  /** The first was created no earlier than the second, and if at the same moment, its id is greater. */
  predicate NotOlder(ls: map<ListingId, Listing>, a: ListingId, b: ListingId) {
    && a in ls && b in ls && ls[a].createdAt >= ls[b].createdAt
    && (ls[a].createdAt == ls[b].createdAt ==> a > b)
  }

  ghost predicate NewestFirst(ls: map<ListingId, Listing>, rows: seq<ListingId>) {
    forall i, j :: 0 <= i < j < |rows| ==> NotOlder(ls, rows[i], rows[j])
  }

  lemma ArrangedIsNewestFirst(ls: map<ListingId, Listing>, ids: set<ListingId>, rows: seq<ListingId>)
    requires ids <= ls.Keys && Arranges(ls, ids, rows)
    ensures NewestFirst(ls, rows)
  {
    forall i, j | 0 <= i < j < |rows| ensures NotOlder(ls, rows[i], rows[j]) {
      assert Before(ls, rows[i], rows[j]);
    }
  }

  /** The rows of a page follow each other in the whole order, and the rows of a later page come after
      those of an earlier one. */
  lemma SlicesKeepOrder(ls: map<ListingId, Listing>, rows: seq<ListingId>, p: nat, q: nat, size: nat)
    requires NewestFirst(ls, rows) && 1 <= p < q && size >= 1
    ensures NewestFirst(ls, Slice(rows, p, size) + Slice(rows, q, size))
  {
    hide NewestFirst;
    var lo, lo2 := Min((p - 1) * size, |rows|), Min((q - 1) * size, |rows|);
    PagesFollow(p, q, size);
    TwoSlices(ls, rows, lo, Min(lo + size, |rows|), lo2, Min(lo2 + size, |rows|));
  }

  lemma {:induction false} PagesFollow(p: nat, q: nat, size: nat)
    requires 1 <= p < q
    ensures (p - 1) * size + size <= (q - 1) * size
    decreases q
  {
    assert (q - 1) * size == (q - 2) * size + size;
    if q > p + 1 { PagesFollow(p, q - 1, size); }
  }

  lemma TwoSlices(ls: map<ListingId, Listing>, rows: seq<ListingId>, lo: nat, hi: nat, lo2: nat, hi2: nat)
    requires NewestFirst(ls, rows) && lo <= hi <= lo2 <= hi2 <= |rows|
    ensures NewestFirst(ls, rows[lo..hi] + rows[lo2..hi2])
  {
    var both := rows[lo..hi] + rows[lo2..hi2];
    forall i, j | 0 <= i < j < |both| ensures NotOlder(ls, both[i], both[j]) {
      var x := if i < hi - lo then lo + i else lo2 + (i - (hi - lo));
      var y := if j < hi - lo then lo + j else lo2 + (j - (hi - lo));
      assert both[i] == rows[x] && both[j] == rows[y] && x < y;
    }
  }

  /** Every list the public or an admin sees is newest first: within a page, from any page to any later
      one, and in the preview of a seller's other listings. */
  lemma ListsAreNewestFirst(
    db: Db, fts: TextSearch, f: Filters, status: Option<Status>, p: nat, q: nat, size: nat,
    u: UserId, anchor: ListingId, limit: nat)
    requires 1 <= p < q && size >= 1
    ensures NewestFirst(db.listings, BrowsePage(db, fts, f, p, size).items + BrowsePage(db, fts, f, q, size).items)
    ensures NewestFirst(db.listings, ListAllPage(db, status, p, size).items + ListAllPage(db, status, q, size).items)
    ensures NewestFirst(db.listings, Preview(db, u, anchor, limit))
  {
    hide NewestFirst, Arranges, Slice;
    var public, all := Public(db, fts, f), AnyStatus(db, status);
    ArrangedIsNewestFirst(db.listings, public, Ordered(db.listings, public));
    SlicesKeepOrder(db.listings, Ordered(db.listings, public), p, q, size);
    ArrangedIsNewestFirst(db.listings, all, Ordered(db.listings, all));
    SlicesKeepOrder(db.listings, Ordered(db.listings, all), p, q, size);
    var others := Ordered(db.listings, OthersOf(db, u, anchor));
    ArrangedIsNewestFirst(db.listings, OthersOf(db, u, anchor), others);
    TwoSlices(db.listings, others, 0, Min(limit, |others|), |others|, |others|);
    assert others[0..Min(limit, |others|)] + others[|others|..|others|] == Preview(db, u, anchor, limit);
  }

  // ---- "more from this seller" ----

  /** `list_available_by_owner`. */
  function OthersOf(db: Db, u: UserId, anchor: ListingId): set<ListingId> {
    set l | l in db.listings && db.listings[l].ownerId == u && db.listings[l].status == Available
      && l != anchor && SellerActive(db, l)
  }

  ghost function Preview(db: Db, u: UserId, anchor: ListingId, limit: nat): seq<ListingId> {
    var rows := Ordered(db.listings, OthersOf(db, u, anchor));
    rows[..Min(limit, |rows|)]
  }

  /** `count_by_owner_status`, at one status. */
  function CountByStatus(db: Db, u: UserId, status: Status): nat {
    |WithStatus(db, u, status)|
  }

  function WithStatus(db: Db, u: UserId, status: Status): set<ListingId> {
    set l | l in db.listings && db.listings[l].ownerId == u && db.listings[l].status == status
  }

  /** The preview is the head of the unfiltered browse order, restricted to the seller without the anchor. */
  lemma PreviewIsBrowseHead(db: Db, fts: TextSearch, u: UserId, anchor: ListingId, limit: nat)
    ensures
      var mine := Keep(Ordered(db.listings, Public(db, fts, NO_FILTERS)), OwnedBy(db, u) - {anchor});
      Preview(db, u, anchor, limit) == mine[..Min(limit, |mine|)]
  {
    var public := Public(db, fts, NO_FILTERS);
    assert OthersOf(db, u, anchor) == public * (OwnedBy(db, u) - {anchor});
    OrderedSubset(db.listings, public, OwnedBy(db, u) - {anchor});
  }

  /** The preview's length is the active count shown beside it, less the anchor if that is itself
      active, cut at the limit; for a suspended seller it is empty whatever the count says. */
  lemma PreviewLength(db: Db, anchor: ListingId, limit: nat)
    requires anchor in db.listings && db.listings[anchor].ownerId in db.users
    ensures
      var u := db.listings[anchor].ownerId;
      var active := CountByStatus(db, u, Available);
      |Preview(db, u, anchor, limit)| ==
        if !db.users[u].isActive then 0
        else Min(limit, active - if db.listings[anchor].status == Available then 1 else 0)
  {
    var u := db.listings[anchor].ownerId;
    var available := WithStatus(db, u, Available);
    if db.users[u].isActive {
      assert OthersOf(db, u, anchor) == available - {anchor};
    } else {
      assert OthersOf(db, u, anchor) == {};
    }
  }

  // ---- a single listing ----

  /** `get_detail`: anybody may see any listing by its id, but a deleted one only its owner or an admin. */
  function GetDetail(db: Db, l: ListingId, requester: Option<UserId>): Outcome<Listing> {
    if l !in db.listings then Raised(NotFound)
    else if db.listings[l].status == Deleted && !IsOwnerOrAdmin(db, db.listings[l], requester) then Raised(NotFound)
    else Ok(db.listings[l])
  }

  predicate IsOwnerOrAdmin(db: Db, row: Listing, requester: Option<UserId>) {
    && requester.Some? && requester.value in db.users
    && (requester.value == row.ownerId || db.users[requester.value].role == Admin)
  }

  /** Exactly who sees a listing's own page: anybody if it has not been deleted, and a deleted one its owner
      and the admins; whoever does not see it is told that there is none. */
  lemma DetailIsFor(db: Db, l: ListingId, requester: Option<UserId>)
    ensures GetDetail(db, l, requester).Ok? <==>
      l in db.listings &&
      (db.listings[l].status != Deleted ||
       exists u :: requester == Some(u) && u in db.users && (u == db.listings[l].ownerId || db.users[u].role == Admin))
    ensures
      var detail := GetDetail(db, l, requester);
      if detail.Ok? then detail.value == db.listings[l] else detail == Raised(NotFound)
  {
  }

  /** Everything a browse page shows can be opened by anybody. */
  lemma BrowsedIsOpen(db: Db, fts: TextSearch, f: Filters, l: ListingId, requester: Option<UserId>)
    requires l in Public(db, fts, f)
    ensures GetDetail(db, l, requester) == Ok(db.listings[l])
  {
  }
}
