/** The page controls, and what pressing Next through a whole result shows. */
module Pagination {
  import opened Wrappers
  import opened Domain
  import opened Browse

  function Max(a: int, b: int): int {
    if a < b then b else a
  }

  /** `Math.max(1, Math.ceil(total / pageSize))`. */
  function TotalPages(total: nat, size: nat): nat
    requires size >= 1
  {
    Max(1, (total + size - 1) / size)
  }

  /** The control is not rendered at all for a single page. */
  predicate NextEnabled(page: nat, total: nat, size: nat)
    requires size >= 1
  {
    TotalPages(total, size) > 1 && page < TotalPages(total, size)
  }

  predicate PreviousEnabled(page: nat, total: nat, size: nat)
    requires size >= 1
  {
    TotalPages(total, size) > 1 && page > 1
  }

  /** The pages of an arranged result `rows` shown from `page` on, pressing Next for as long as it
      is enabled. */
  function Visit(rows: seq<ListingId>, page: nat, size: nat): seq<Page>
    requires page >= 1 && size >= 1
    decreases TotalPages(|rows|, size) - page
  {
    var shown := Page(Slice(rows, page, size), |rows|);
    [shown] + if NextEnabled(page, shown.total, size) then Visit(rows, page + 1, size) else []
  }

  function Items(pages: seq<Page>): seq<ListingId> {
    if pages == [] then [] else pages[0].items + Items(pages[1..])
  }

  lemma MulMono(a: nat, b: nat, c: nat)
    requires a <= b
    ensures a * c <= b * c
  {
  }

  /** The page count is the least number of pages that holds everything. */
  lemma PageCount(total: nat, size: nat)
    requires size >= 1
    ensures
      var n := (total + size - 1) / size;
      total <= n * size && (n >= 1 ==> (n - 1) * size < total)
  {
  }

  /** Next is enabled exactly as long as the pages up to this one leave something to show, and exactly as
      long as the page it leads to has a Previous that leads back. */
  lemma NextMeansMore(page: nat, total: nat, size: nat)
    requires page >= 1 && size >= 1
    ensures NextEnabled(page, total, size) <==> page * size < total
    ensures NextEnabled(page, total, size) <==>
      PreviousEnabled(page + 1, total, size) && page + 1 <= TotalPages(total, size)
  {
    var n := (total + size - 1) / size;
    PageCount(total, size);
    if page < n {
      MulMono(page, n - 1, size);
    } else {
      MulMono(n, page, size);
    }
  }

  /** These pages show `rows`, out of a result of `total`. */
  ghost predicate Shows(pages: seq<Page>, rows: seq<ListingId>, total: nat, size: nat) {
    && Items(pages) == rows
    && (forall i :: 0 <= i < |pages| ==> pages[i].total == total && |pages[i].items| <= size)
    && (rows != [] ==> forall i :: 0 <= i < |pages| ==> pages[i].items != [])
  }

  lemma ShowsMore(first: Page, pages: seq<Page>, rows: seq<ListingId>, total: nat, size: nat)
    requires Shows(pages, rows, total, size) && rows != [] && first.items != []
    requires first.total == total && |first.items| <= size
    ensures Shows([first] + pages, first.items + rows, total, size)
  {
  }

  lemma SliceFrom(rows: seq<ListingId>, page: nat, size: nat, lo: nat)
    requires page >= 1 && size >= 1 && lo == (page - 1) * size && lo <= |rows|
    ensures Slice(rows, page, size) == rows[lo..Min(lo + size, |rows|)]
    ensures page * size == lo + size
  {
  }

  lemma VisitUnfolds(rows: seq<ListingId>, page: nat, size: nat, lo: nat)
    requires page >= 1 && size >= 1 && lo == (page - 1) * size && lo <= |rows|
    ensures lo + size == page * size
    ensures Visit(rows, page, size) ==
      [Page(rows[lo..Min(lo + size, |rows|)], |rows|)] +
      if lo + size < |rows| then Visit(rows, page + 1, size) else []
  {
    SliceFrom(rows, page, size, lo);
    NextMeansMore(page, |rows|, size);
  }

  /** From a page that starts inside the result (or from the only page of an empty one). */
  lemma {:induction false} VisitShowsTheRest(rows: seq<ListingId>, page: nat, size: nat, lo: nat)
    requires page >= 1 && size >= 1 && lo == (page - 1) * size
    requires lo < |rows| || (page == 1 && rows == [])
    ensures Shows(Visit(rows, page, size), rows[lo..], |rows|, size)
    decreases |rows| - lo
  {
    hide Visit, Slice, Shows, TotalPages;
    VisitUnfolds(rows, page, size, lo);
    var pages := Visit(rows, page, size);
    var shown := pages[0];
    if lo + size < |rows| {
      var rest := Visit(rows, page + 1, size);
      VisitShowsTheRest(rows, page + 1, size, lo + size);
      ShowsMore(shown, rest, rows[lo + size..], |rows|, size);
      assert rows[lo..] == shown.items + rows[lo + size..];
    } else {
      OnlyPage(shown, rows[lo..], |rows|, size);
      assert pages == [shown];
    }
  }

  lemma OnlyPage(shown: Page, rows: seq<ListingId>, total: nat, size: nat)
    requires shown.items == rows && |rows| <= size && shown.total == total
    ensures Shows([shown], rows, total, size)
  {
  }

  lemma {:induction false} VisitedPages(rows: seq<ListingId>, page: nat, size: nat)
    requires 1 <= page && size >= 1 && page <= TotalPages(|rows|, size)
    ensures |Visit(rows, page, size)| == TotalPages(|rows|, size) - page + 1
    ensures forall i :: 0 <= i < |Visit(rows, page, size)| ==>
      Visit(rows, page, size)[i] == Page(Slice(rows, page + i, size), |rows|)
    decreases TotalPages(|rows|, size) - page
  {
    hide Slice;
    if NextEnabled(page, |rows|, size) {
      VisitedPages(rows, page + 1, size);
      var rest := Visit(rows, page + 1, size);
      forall i | 0 <= i < 1 + |rest|
        ensures Visit(rows, page, size)[i] == Page(Slice(rows, page + i, size), |rows|)
      {
        if i > 0 { assert rest[i - 1] == Page(Slice(rows, page + 1 + (i - 1), size), |rows|); }
      }
    }
  }

  function SumOfLengths(pages: seq<Page>): nat {
    if pages == [] then 0 else |pages[0].items| + SumOfLengths(pages[1..])
  }

  lemma {:induction false} LengthsAddUp(pages: seq<Page>)
    ensures |Items(pages)| == SumOfLengths(pages)
  {
    if pages != [] { LengthsAddUp(pages[1..]); }
  }

  /** An arrangement lists nothing twice. */
  lemma NoListingTwice(ls: map<ListingId, Listing>, ids: set<ListingId>, rows: seq<ListingId>)
    requires ids <= ls.Keys && Arranges(ls, ids, rows)
    ensures forall i, j :: 0 <= i < j < |rows| ==> rows[i] != rows[j]
  {
  }

  /** Pressing Next from page 1 while it is enabled visits each matching listing exactly once, in
      order: the pages put together are the arranged result, none of them is empty unless the result
      is, and their lengths add up to the total that every one of them reports. */
  lemma NextVisitsEveryListingOnce(ls: map<ListingId, Listing>, ids: set<ListingId>, size: nat)
    requires ids <= ls.Keys && size >= 1
    ensures
      var pages := Visit(Ordered(ls, ids), 1, size);
      && Arranges(ls, ids, Items(pages))
      && Shows(pages, Ordered(ls, ids), |ids|, size)
      && SumOfLengths(pages) == |ids|
      && forall i, j :: 0 <= i < j < |Items(pages)| ==> Items(pages)[i] != Items(pages)[j]
  {
    var rows := Ordered(ls, ids);
    NoListingTwice(ls, ids, rows);
    VisitShowsTheRest(rows, 1, size, 0);
    assert rows[0..] == rows;
    LengthsAddUp(Visit(rows, 1, size));
  }

  /** The pages the server answers for 1, 2, ... up to the displayed page count. */
  ghost function Pages(ls: map<ListingId, Listing>, ids: set<ListingId>, size: nat): seq<Page>
    requires ids <= ls.Keys && size >= 1
  {
    seq(TotalPages(|ids|, size), i requires 0 <= i => PageOf(ls, ids, i + 1, size))
  }

  /** What is visited by pressing Next is what the server answers page by page. */
  lemma VisitIsPaged(ls: map<ListingId, Listing>, ids: set<ListingId>, size: nat)
    requires ids <= ls.Keys && size >= 1
    ensures Visit(Ordered(ls, ids), 1, size) == Pages(ls, ids, size)
  {
    hide Ordered, Slice, Visit;
    VisitedPages(Ordered(ls, ids), 1, size);
  }

  /** Browsing shows every available, matching listing of every active seller once and nothing else,
      and the admin list shows every listing of the chosen status, whoever owns it. */
  lemma PagesPartitionTheResult(db: Db, fts: TextSearch, f: Filters, status: Option<Status>, size: nat)
    requires size >= 1
    ensures
      var public, all := Public(db, fts, f), AnyStatus(db, status);
      && Arranges(db.listings, public, Items(Pages(db.listings, public, size)))
      && Arranges(db.listings, all, Items(Pages(db.listings, all, size)))
      && (forall i :: 0 <= i < TotalPages(|public|, size) ==>
            Pages(db.listings, public, size)[i] == BrowsePage(db, fts, f, i + 1, size))
      && (forall i :: 0 <= i < TotalPages(|all|, size) ==>
            Pages(db.listings, all, size)[i] == ListAllPage(db, status, i + 1, size))
  {
    hide Ordered, Arranges, Items, Visit, Shows, TotalPages, Slice;
    var public, all := Public(db, fts, f), AnyStatus(db, status);
    NextVisitsEveryListingOnce(db.listings, public, size);
    VisitIsPaged(db.listings, public, size);
    NextVisitsEveryListingOnce(db.listings, all, size);
    VisitIsPaged(db.listings, all, size);
  }

  // ---- who is on a page at all ----

  ghost predicate OnPublicPage(db: Db, fts: TextSearch, f: Filters, size: nat, page: nat, l: ListingId)
    requires size >= 1
  {
    page >= 1 && l in BrowsePage(db, fts, f, page, size).items
  }

  ghost predicate OnAdminPage(db: Db, status: Option<Status>, size: nat, page: nat, l: ListingId)
    requires size >= 1
  {
    page >= 1 && l in ListAllPage(db, status, page, size).items
  }

  lemma SomePageShows(rows: seq<ListingId>, size: nat, l: ListingId) returns (page: nat)
    requires size >= 1
    ensures page >= 1
    ensures l in rows ==> l in Slice(rows, page, size)
    ensures forall p :: p >= 1 && l in Slice(rows, p, size) ==> l in rows
  {
    page := 1;
    if l in rows {
      var k :| 0 <= k < |rows| && rows[k] == l;
      page := k / size + 1;
      assert (page - 1) * size == k - k % size;
      assert Slice(rows, page, size)[k % size] == l;
    }
  }

  /** Exactly which listings the public gets to see, on some page: those available, of a seller in good
      standing, that meet every filter given. An empty search is no filter. */
  lemma PublicPagesShow(db: Db, fts: TextSearch, f: Filters, size: nat, l: ListingId)
    requires size >= 1
    ensures (exists page :: OnPublicPage(db, fts, f, size, page, l)) <==>
      && l in db.listings
      && var row := db.listings[l];
      && row.status == Available && row.ownerId in db.users && db.users[row.ownerId].isActive
      && (f.search.None? || f.search == Some("") || fts(f.search.value, row.content.title, row.content.author))
      && (f.category.None? || f.category == Some(row.content.category))
      && (f.condition.None? || f.condition == Some(row.content.condition))
      && (f.minPrice.None? || f.minPrice.value <= row.content.price)
      && (f.maxPrice.None? || row.content.price <= f.maxPrice.value)
  {
    hide Slice;
    var rows := Ordered(db.listings, Public(db, fts, f));
    var page := SomePageShows(rows, size, l);
    assert l in rows <==> l in Public(db, fts, f);
    if l in rows { assert OnPublicPage(db, fts, f, size, page, l); }
  }

  /** And an admin: every listing, of the chosen status if one is chosen, whoever owns it. */
  lemma AdminPagesShow(db: Db, status: Option<Status>, size: nat, l: ListingId)
    requires size >= 1
    ensures (exists page :: OnAdminPage(db, status, size, page, l)) <==>
      l in db.listings && (status.None? || status == Some(db.listings[l].status))
  {
    hide Slice;
    var rows := Ordered(db.listings, AnyStatus(db, status));
    var page := SomePageShows(rows, size, l);
    assert l in rows <==> l in AnyStatus(db, status);
    if l in rows { assert OnAdminPage(db, status, size, page, l); }
  }
}
