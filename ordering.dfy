/** `orderAlbums`: lodash `_.orderBy(albums, ['release_date'], 'desc')`, a
    stable sort on the release date, most recent first. */
module Ordering {
  import opened Normalize

  /** `a > b` on two Date objects, which compares their millisecond values:
      for dates at UTC midnight that is the order of (year, month, day). An
      Invalid Date is NaN and is neither greater nor smaller than any date. */
  predicate Later(a: Date, b: Date)
  {
    && a.Date? && b.Date?
    && (|| a.year > b.year
        || (a.year == b.year && a.month > b.month)
        || (a.year == b.year && a.month == b.month && a.day > b.day))
  }

  /** lodash `compareAscending` on two Date values: 1, -1 or 0 (a tie, which
      `orderBy` then breaks by input position). An Invalid Date ties with
      every date, itself included. */
  function CompareAscending(a: Date, b: Date): (c: int)
    ensures c == 1 || c == 0 || c == -1
    ensures a.InvalidDate? || b.InvalidDate? ==> c == 0
  {
    if Later(a, b) then 1 else if Later(b, a) then -1 else 0
  }

  /** Swapping the operands negates the comparison. */
  lemma CompareAntisymmetric(a: Date, b: Date)
    ensures CompareAscending(a, b) == -CompareAscending(b, a)
  {
  }

  /** On dates, "more recent than" is transitive. */
  lemma LaterTransitive(a: Date, b: Date, c: Date)
    requires Later(a, b) && Later(b, c)
    ensures Later(a, c)
  {
  }

  /** Two valid dates tie exactly when they are the same day. */
  lemma TieIsSameDay(a: Date, b: Date)
    requires a.Date? && b.Date?
    ensures CompareAscending(a, b) == 0 <==> a == b
  {
  }

  /** Places `x`, which precedes every album of `l` in the input, before the
      first album of `l` that is not strictly more recent: on a tie the
      earlier input position wins, as in `orderBy`. */
  function Insert(x: Album, l: seq<Album>): (r: seq<Album>)
    ensures multiset(r) == multiset(l) + multiset{x}
  {
    if |l| == 0 || CompareAscending(l[0].releaseDate, x.releaseDate) <= 0 then [x] + l
    else
      assert l == [l[0]] + l[1..];
      [l[0]] + Insert(x, l[1..])
  }

  /** `orderAlbums`: the albums sorted by release date, descending, ties in
      input order; the result is a permutation of the input. */
  function OrderAlbums(albums: seq<Album>): (r: seq<Album>)
    ensures multiset(r) == multiset(albums)
    ensures |r| == |albums|
  {
    if |albums| == 0 then []
    else
      assert albums == [albums[0]] + albums[1..];
      Insert(albums[0], OrderAlbums(albums[1..]))
  }

  predicate AllValid(albums: seq<Album>)
  {
    forall i :: 0 <= i < |albums| ==> albums[i].releaseDate.Date?
  }

  /** No album is followed by a strictly more recent one. */
  predicate SortedDesc(albums: seq<Album>)
  {
    forall i, j :: 0 <= i < j < |albums| ==> !Later(albums[j].releaseDate, albums[i].releaseDate)
  }

  /** No album of `s` is strictly more recent than `c`. */
  predicate NoneLaterThan(s: seq<Album>, c: Date)
  {
    forall j :: 0 <= j < |s| ==> !Later(s[j].releaseDate, c)
  }

  lemma {:induction false} InsertNoneLater(x: Album, l: seq<Album>, c: Date)
    requires NoneLaterThan(l, c) && !Later(x.releaseDate, c)
    ensures NoneLaterThan(Insert(x, l), c)
  {
    if |l| > 0 && CompareAscending(l[0].releaseDate, x.releaseDate) > 0 {
      InsertNoneLater(x, l[1..], c);
      assert Insert(x, l) == [l[0]] + Insert(x, l[1..]);
    }
  }

  lemma {:induction false} InsertValid(x: Album, l: seq<Album>)
    requires x.releaseDate.Date? && AllValid(l)
    ensures AllValid(Insert(x, l))
  {
    if |l| > 0 && CompareAscending(l[0].releaseDate, x.releaseDate) > 0 {
      InsertValid(x, l[1..]);
      assert Insert(x, l) == [l[0]] + Insert(x, l[1..]);
    }
  }

  lemma ConsSorted(y: Album, t: seq<Album>)
    requires SortedDesc(t) && NoneLaterThan(t, y.releaseDate)
    ensures SortedDesc([y] + t)
  {
    forall i, j | 0 <= i < j < |[y] + t|
      ensures !Later(([y] + t)[j].releaseDate, ([y] + t)[i].releaseDate)
    {
      assert ([y] + t)[j] == t[j - 1];
    }
  }

  lemma {:induction false} InsertSorted(x: Album, l: seq<Album>)
    requires x.releaseDate.Date? && AllValid(l) && SortedDesc(l)
    ensures SortedDesc(Insert(x, l))
  {
    if |l| == 0 || CompareAscending(l[0].releaseDate, x.releaseDate) <= 0 {
      // every album of l is no more recent than l[0], which is no more recent than x
      assert NoneLaterThan(l, x.releaseDate) by {
        forall j | 0 <= j < |l|
          ensures !Later(l[j].releaseDate, x.releaseDate)
        {
          assert l[j].releaseDate.Date? && l[0].releaseDate.Date?;
          assert j == 0 || !Later(l[j].releaseDate, l[0].releaseDate);
        }
      }
      ConsSorted(x, l);
    } else {
      InsertSorted(x, l[1..]);
      InsertNoneLater(x, l[1..], l[0].releaseDate);
      ConsSorted(l[0], Insert(x, l[1..]));
      assert Insert(x, l) == [l[0]] + Insert(x, l[1..]);
    }
  }

  /** When every release date is valid, the albums come out most recent
      first. */
  lemma {:induction false} OrderAlbumsSorted(albums: seq<Album>)
    requires AllValid(albums)
    ensures SortedDesc(OrderAlbums(albums)) && AllValid(OrderAlbums(albums))
  {
    if |albums| > 0 {
      OrderAlbumsSorted(albums[1..]);
      InsertSorted(albums[0], OrderAlbums(albums[1..]));
      InsertValid(albums[0], OrderAlbums(albums[1..]));
    }
  }

  /** The albums of `s` released on `d`, in their order in `s`. */
  function WithDate(s: seq<Album>, d: Date): (r: seq<Album>)
  {
    if |s| == 0 then []
    else (if s[0].releaseDate == d then [s[0]] else []) + WithDate(s[1..], d)
  }

  lemma {:induction false} InsertStable(x: Album, l: seq<Album>, d: Date)
    ensures WithDate(Insert(x, l), d)
            == (if x.releaseDate == d then [x] else []) + WithDate(l, d)
  {
    if |l| == 0 || CompareAscending(l[0].releaseDate, x.releaseDate) <= 0 {
      assert ([x] + l)[1..] == l;
    } else {
      var t := Insert(x, l[1..]);
      InsertStable(x, l[1..], d);
      assert Insert(x, l) == [l[0]] + t;
      assert ([l[0]] + t)[1..] == t;
      // l[0] is strictly more recent than x, so it is not released on x's date
      var head := if l[0].releaseDate == d then [l[0]] else [];
      var mine := if x.releaseDate == d then [x] else [];
      assert x.releaseDate == d ==> head == [];
      assert WithDate(Insert(x, l), d) == head + (mine + WithDate(l[1..], d));
      assert WithDate(l, d) == head + WithDate(l[1..], d);
    }
  }

  /** Stability: the albums released on any one date keep their relative
      input order. */
  lemma {:induction false} OrderAlbumsStable(albums: seq<Album>, d: Date)
    ensures WithDate(OrderAlbums(albums), d) == WithDate(albums, d)
  {
    if |albums| > 0 {
      OrderAlbumsStable(albums[1..], d);
      InsertStable(albums[0], OrderAlbums(albums[1..]), d);
    }
  }

  /** Dates 2019-01-01, 2021-06-01 and 2020-03-01 come out as 2021-06-01,
      2020-03-01, 2019-01-01. */
  lemma OrderExample(a: Album, b: Album, c: Album)
    requires a.releaseDate == Date(2019, 1, 1)
    requires b.releaseDate == Date(2021, 6, 1)
    requires c.releaseDate == Date(2020, 3, 1)
    ensures OrderAlbums([a, b, c]) == [b, c, a]
  {
    assert [a, b, c][1..] == [b, c];
    assert [b, c][1..] == [c];
    assert OrderAlbums([c]) == [c];
    assert OrderAlbums([b, c]) == [b, c];
    assert Insert(a, []) == [a];
    assert Insert(a, [c]) == [c, a] by {
      assert [c][1..] == [];
    }
    assert Insert(a, [b, c]) == [b, c, a];
  }
}
