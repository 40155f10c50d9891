/** Pagination traversals of the service: the cursor walk shared by the
    followed-artists and top-artists listings, and the two bounded offset
    walks of the new-releases entry points.

    The source recurses until upstream reports no further cursor. An endpoint
    here is an arbitrary total function, so every cursor walk takes a
    `budget`, the largest number of requests it may issue, and answers `None`
    when the chain of pages is longer: the source would still be fetching. */
module Pagination {
  import opened Seqs
  import opened Upstream
  import Resolver

  /** The request a cursor walk issues for cursor `after`. */
  function Request(after: Cursor): PageRequest
  {
    PageRequest(PageLimit, Market, after)
  }

  /** `ps` is the chain of pages a cursor walk from `after` fetches: the first
      page answers `after`, each later page answers the truthy cursor of the
      page before it, and only the last page carries a falsy cursor. */
  ghost predicate IsChain<T>(fetch: PageRequest -> CursorPage<T>, after: Cursor, ps: seq<CursorPage<T>>)
  {
    && |ps| > 0
    && ps[0] == fetch(Request(after))
    && (forall k :: 0 <= k < |ps| - 1 ==> Truthy(ps[k].after) && ps[k + 1] == fetch(Request(ps[k].after)))
    && !Truthy(ps[|ps| - 1].after)
  }

  /** The pages of the walk from `after`, if it ends within `budget`
      requests. */
  function PagesFrom<T>(fetch: PageRequest -> CursorPage<T>, after: Cursor, budget: nat): (r: Option<seq<CursorPage<T>>>)
    ensures r.Some? ==> IsChain(fetch, after, r.value) && |r.value| <= budget
    decreases budget
  {
    if budget == 0 then None
    else
      var page := fetch(Request(after));
      if !Truthy(page.after) then Some([page])
      else
        match PagesFrom(fetch, page.after, budget - 1)
        case None => None
        case Some(rest) => Some([page] + rest)
  }

  /** Every chain that fits the budget is the one the walk finds: the walk
      ends within `budget` requests exactly when such a chain exists. */
  lemma {:induction false} ChainFound<T>(fetch: PageRequest -> CursorPage<T>, after: Cursor, ps: seq<CursorPage<T>>, budget: nat)
    requires IsChain(fetch, after, ps) && |ps| <= budget
    ensures PagesFrom(fetch, after, budget) == Some(ps)
    decreases |ps|
  {
    if |ps| == 1 {
      assert ps == [ps[0]];
    } else {
      assert IsChain(fetch, ps[0].after, ps[1..]) by {
        forall k | 0 <= k < |ps[1..]| - 1
          ensures Truthy(ps[1..][k].after) && ps[1..][k + 1] == fetch(Request(ps[1..][k].after))
        {
          assert ps[1..][k] == ps[k + 1];
        }
      }
      ChainFound(fetch, ps[0].after, ps[1..], budget - 1);
      assert [ps[0]] + ps[1..] == ps;
    }
  }

  /** A cursor walk has at most one chain of pages. */
  lemma ChainUnique<T>(fetch: PageRequest -> CursorPage<T>, after: Cursor, ps: seq<CursorPage<T>>, qs: seq<CursorPage<T>>)
    requires IsChain(fetch, after, ps) && IsChain(fetch, after, qs)
    ensures ps == qs
  {
    var n := if |ps| < |qs| then |qs| else |ps|;
    ChainFound(fetch, after, ps, n);
    ChainFound(fetch, after, qs, n);
  }

  /** The items of the pages, page by page. */
  function ItemsOf<T>(ps: seq<CursorPage<T>>): seq<seq<T>>
  {
    MapSeq((p: CursorPage<T>) => p.items, ps)
  }

  /** The recursion shared by `getFollowedArtists` and the `getTopReleases*`
      functions: fetch the page for `after`; while its cursor is truthy, the
      result is its items followed by the walk from that cursor. The result
      is defined exactly when the walk ends within `budget`, and it is then
      the items of the chain's pages concatenated in cursor order. */
  function FollowCursor<T>(fetch: PageRequest -> CursorPage<T>, after: Cursor, budget: nat): (r: Option<seq<T>>)
    ensures r.Some? <==> PagesFrom(fetch, after, budget).Some?
    ensures r.Some? ==> r.value == Flatten(ItemsOf(PagesFrom(fetch, after, budget).value))
    decreases budget
  {
    if budget == 0 then None
    else
      var page := fetch(Request(after));
      if Truthy(page.after) then
        match FollowCursor(fetch, page.after, budget - 1)
        case None => None
        case Some(rest) =>
          var ps := PagesFrom(fetch, page.after, budget - 1).value;
          assert ItemsOf([page] + ps) == [page.items] + ItemsOf(ps);
          Some(page.items + rest)
      else
        assert ItemsOf([page]) == [page.items];
        Some(page.items)
  }

  /** The result of a walk does not depend on the budget once the budget
      covers the chain. */
  lemma FollowCursorBudget<T>(fetch: PageRequest -> CursorPage<T>, after: Cursor, n: nat, m: nat)
    requires FollowCursor(fetch, after, n).Some? && n <= m
    ensures FollowCursor(fetch, after, m) == FollowCursor(fetch, after, n)
  {
    ChainFound(fetch, after, PagesFrom(fetch, after, n).value, m);
  }

  /** The walk returns as many items as its pages hold together. */
  lemma FollowCursorLength<T>(fetch: PageRequest -> CursorPage<T>, after: Cursor, budget: nat)
    requires FollowCursor(fetch, after, budget).Some?
    ensures |FollowCursor(fetch, after, budget).value| == SumLengths(ItemsOf(PagesFrom(fetch, after, budget).value))
  {
    FlattenLength(ItemsOf(PagesFrom(fetch, after, budget).value));
  }

  /** Cursor order: splitting the chain after page `k`, the items of pages
      `0..k` come first and are followed by the items of the later pages. */
  lemma FollowCursorOrder<T>(fetch: PageRequest -> CursorPage<T>, after: Cursor, budget: nat, k: nat)
    requires FollowCursor(fetch, after, budget).Some?
    requires k <= |PagesFrom(fetch, after, budget).value|
    ensures var ps := PagesFrom(fetch, after, budget).value;
            FollowCursor(fetch, after, budget).value
            == Flatten(ItemsOf(ps[..k])) + Flatten(ItemsOf(ps[k..]))
  {
    var ps := PagesFrom(fetch, after, budget).value;
    assert ps == ps[..k] + ps[k..];
    assert ItemsOf(ps) == ItemsOf(ps[..k]) + ItemsOf(ps[k..]);
    FlattenAppend(ItemsOf(ps[..k]), ItemsOf(ps[k..]));
  }

  /** `getFollowedArtists(after)`: the cursor walk over the followed-artists
      listing. */
  function FollowedArtists(api: Api, after: Cursor, budget: nat): (r: Option<seq<Artist>>)
    ensures r.Some? <==> PagesFrom(api.following, after, budget).Some?
    ensures r.Some? ==> r.value == Flatten(ItemsOf(PagesFrom(api.following, after, budget).value))
  {
    FollowCursor(api.following, after, budget)
  }

  /** `getTopReleasesLongTerm(after)`: the cursor walk over the long-term
      top-artists listing. */
  function TopReleasesLongTerm(api: Api, after: Cursor, budget: nat): (r: Option<seq<Artist>>)
    ensures r.Some? <==> PagesFrom(api.topLongTerm, after, budget).Some?
    ensures r.Some? ==> r.value == Flatten(ItemsOf(PagesFrom(api.topLongTerm, after, budget).value))
  {
    FollowCursor(api.topLongTerm, after, budget)
  }

  /** `getTopReleasesShortTerm(after)`: the cursor walk over the short-term
      top-artists listing. */
  function TopReleasesShortTerm(api: Api, after: Cursor, budget: nat): (r: Option<seq<Artist>>)
    ensures r.Some? <==> PagesFrom(api.topShortTerm, after, budget).Some?
    ensures r.Some? ==> r.value == Flatten(ItemsOf(PagesFrom(api.topShortTerm, after, budget).value))
  {
    FollowCursor(api.topShortTerm, after, budget)
  }

  /** `getTopReleasesMediumTerm(after)` as written: its first request goes to
      the followed-artists listing and it continues with
      `getFollowedArtists`, so it is the followed-artists walk. */
  function TopReleasesMediumTerm(api: Api, after: Cursor, budget: nat): (r: Option<seq<Artist>>)
    ensures r == FollowedArtists(api, after, budget)
  {
    if budget == 0 then None
    else
      var page := api.following(Request(after));
      if Truthy(page.after) then
        match FollowedArtists(api, page.after, budget - 1)
        case None => None
        case Some(rest) => Some(page.items + rest)
      else Some(page.items)
  }

  /** An upstream whose followed-artists listing holds one artist and whose
      medium-term listing holds none. */
  function FollowingDiffersFromMediumTerm(a: Artist): Api
  {
    Api(
      (q: PageRequest) => CursorPage([a], Null),
      (q: PageRequest) => CursorPage([], Null),
      (q: PageRequest) => CursorPage([], Null),
      (q: PageRequest) => CursorPage([], Null),
      (q: OffsetRequest) => OffsetPage([], Null),
      (q: OffsetRequest) => OffsetPage([], Null),
      (q: AlbumListRequest) => [],
      (ids: seq<string>) => [])
  }

  /** As written, the medium-term entry point does not return the medium-term
      listing: on the upstream above it returns the followed artist. */
  lemma MediumTermReadsFollowing(a: Artist)
    ensures var api := FollowingDiffersFromMediumTerm(a);
            TopReleasesMediumTerm(api, Null, 1) == Some([a])
            && FollowCursor(api.topMediumTerm, Null, 1) == Some([])
  {
  }

  /** `getTopReleasesMediumTerm` as evidently intended: the cursor walk over
      the medium-term top-artists listing. */
  function TopReleasesMediumTermFixed(api: Api, after: Cursor, budget: nat): (r: Option<seq<Artist>>)
    ensures r.Some? <==> PagesFrom(api.topMediumTerm, after, budget).Some?
    ensures r.Some? ==> r.value == Flatten(ItemsOf(PagesFrom(api.topMediumTerm, after, budget).value))
  {
    FollowCursor(api.topMediumTerm, after, budget)
  }

  /** A new-releases result with the listing requests it issued, in order. */
  datatype Traced<T> = Traced(items: seq<T>, requests: seq<OffsetRequest>)

  /** `offset || 0`: an absent offset means the first page. */
  function OffsetOrZero(offset: Option<int>): int
  {
    match offset
    case None => 0
    case Some(o) => o
  }

  /** The offset of the second page of a new-releases walk. */
  const SecondOffset := 50

  /** `getNewReleases(after, offset)`: fetch the page at `offset`; at offset 0
      always fetch the page at offset 50 too, passing the first page's `next`
      link as `after`, whether or not there is one; never go further. */
  function NewReleases(api: Api, after: Cursor, offset: Option<int>): (r: Traced<RawAlbum>)
    ensures 1 <= |r.requests| <= 2
    ensures r.requests[0] == OffsetRequest(PageLimit, OffsetOrZero(offset), after)
    ensures |r.requests| == 2 <==> OffsetOrZero(offset) == 0
    ensures |r.requests| == 2 ==>
              r.requests[1] == OffsetRequest(PageLimit, SecondOffset, api.newReleases(r.requests[0]).next)
    ensures r.items == Flatten(MapSeq((q: OffsetRequest) => api.newReleases(q).items, r.requests))
    decreases if OffsetOrZero(offset) == 0 then 1 else 0
  {
    var request := OffsetRequest(PageLimit, OffsetOrZero(offset), after);
    var page := api.newReleases(request);
    if OffsetOrZero(offset) == 0 then
      var second := NewReleases(api, page.next, Some(SecondOffset));
      var pages := MapSeq((q: OffsetRequest) => api.newReleases(q).items, [request] + second.requests);
      assert pages[1..] == MapSeq((q: OffsetRequest) => api.newReleases(q).items, second.requests);
      Traced(page.items + second.items, [request] + second.requests)
    else
      var pages := MapSeq((q: OffsetRequest) => api.newReleases(q).items, [request]);
      assert pages[1..] == [];
      Traced(page.items, [request])
  }

  /** From the first page, new releases are that page's items followed by the
      items of the page at offset 50; from any other offset, only the items of
      the page at that offset. */
  lemma NewReleasesItems(api: Api, after: Cursor, offset: Option<int>)
    ensures var first := api.newReleases(OffsetRequest(PageLimit, OffsetOrZero(offset), after));
            NewReleases(api, after, offset).items
            == if OffsetOrZero(offset) == 0
               then first.items + api.newReleases(OffsetRequest(PageLimit, SecondOffset, first.next)).items
               else first.items
  {
    var r := NewReleases(api, after, offset);
    var pages := MapSeq((q: OffsetRequest) => api.newReleases(q).items, r.requests);
    if |r.requests| == 2 {
      assert Flatten(pages[1..]) == pages[1] + Flatten(pages[2..]);
    } else {
      assert Flatten(pages[1..]) == [];
    }
  }

  /** `getNewReleasesV2(after, offset)`: fetch the long-term top-artists page
      at `offset` and resolve its artists' albums; at offset 0 and only when
      that page has a truthy `next` link, add the albums of the page at
      offset 50; never go further. */
  function NewReleasesV2(api: Api, after: Cursor, offset: Option<int>): (r: Traced<RawAlbum>)
    ensures 1 <= |r.requests| <= 2
    ensures r.requests[0] == OffsetRequest(PageLimit, OffsetOrZero(offset), after)
    ensures |r.requests| == 2 <==>
              OffsetOrZero(offset) == 0 && Truthy(api.topLongTermByOffset(r.requests[0]).next)
    ensures |r.requests| == 2 ==>
              r.requests[1] == OffsetRequest(PageLimit, SecondOffset, api.topLongTermByOffset(r.requests[0]).next)
    ensures r.items == Flatten(MapSeq((q: OffsetRequest) => Resolver.AlbumIds(api, api.topLongTermByOffset(q).items), r.requests))
    decreases if OffsetOrZero(offset) == 0 then 1 else 0
  {
    var request := OffsetRequest(PageLimit, OffsetOrZero(offset), after);
    var page := api.topLongTermByOffset(request);
    var albums := Resolver.AlbumIds(api, page.items);
    if OffsetOrZero(offset) == 0 && Truthy(page.next) then
      var second := NewReleasesV2(api, page.next, Some(SecondOffset));
      var pages := MapSeq((q: OffsetRequest) => Resolver.AlbumIds(api, api.topLongTermByOffset(q).items), [request] + second.requests);
      assert pages[1..] == MapSeq((q: OffsetRequest) => Resolver.AlbumIds(api, api.topLongTermByOffset(q).items), second.requests);
      Traced(albums + second.items, [request] + second.requests)
    else
      var pages := MapSeq((q: OffsetRequest) => Resolver.AlbumIds(api, api.topLongTermByOffset(q).items), [request]);
      assert pages[1..] == [];
      Traced(albums, [request])
  }
}
