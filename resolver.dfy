/** Album resolution: one album listing per artist, then bulk album lookups
    in chunks of 20 ids. The concurrent fan-out is read as an
    order-preserving map. */
module Resolver {
  import opened Seqs
  import opened Upstream

  /** Largest number of ids one bulk album lookup accepts. */
  const BulkLimit := 20
  /** Albums requested per artist. */
  const AlbumsPerArtist := 5
  /** Album types requested per artist. */
  const AlbumTypes := "album,single"

  /** lodash `_.chunk(s, size)`: consecutive slices of `size` elements, the
      last one possibly shorter; no chunks at all when `size` is below 1. */
  function Chunks<T>(s: seq<T>, size: nat): (r: seq<seq<T>>)
    ensures size == 0 ==> r == []
    ensures size > 0 ==> Flatten(r) == s
    ensures forall i :: 0 <= i < |r| ==> 0 < |r[i]| <= size
    ensures forall i :: 0 <= i < |r| - 1 ==> |r[i]| == size
    ensures size > 0 ==> (|r| == 0 <==> |s| == 0)
    ensures size > 0 && |s| > 0 ==> (|r| - 1) * size < |s| <= |r| * size
    decreases |s|
  {
    if size == 0 || |s| == 0 then []
    else if |s| <= size then [s]
    else
      var rest := Chunks(s[size..], size);
      assert (|rest| - 1) * size < |s| - size <= |rest| * size;
      assert (|rest| + 1 - 1) * size == |rest| * size;
      assert (|rest| + 1) * size == |rest| * size + size;
      [s[..size]] + rest
  }

  /** With chunks of 20 there are ceil(N / 20) of them. */
  lemma ChunkCount(s: seq<string>)
    ensures |Chunks(s, BulkLimit)| == (|s| + BulkLimit - 1) / BulkLimit
  {
    var r := Chunks(s, BulkLimit);
    if |s| > 0 {
      assert (|r| - 1) * 20 < |s| <= |r| * 20;
    }
  }

  /** One chunk is one bulk lookup. */
  lemma UnpackOne(api: Api, chunk: seq<string>)
    ensures UnpackArray([chunk], api.albums) == api.albums(chunk)
  {
    var answers := MapSeq(api.albums, [chunk]);
    assert answers == [api.albums(chunk)];
    assert answers[1..] == [];
    assert Flatten(answers) == answers[0] + Flatten(answers[1..]);
  }

  /** `getAlbumInformation`: one bulk lookup per chunk of at most 20 ids, the
      returned `albums` lists flattened in chunk order. */
  function AlbumInformation(api: Api, ids: seq<string>): (r: seq<RawAlbum>)
    ensures |ids| == 0 ==> r == []
    ensures 0 < |ids| <= BulkLimit ==> r == api.albums(ids)
    ensures |ids| > BulkLimit ==> r == api.albums(ids[..BulkLimit]) + AlbumInformation(api, ids[BulkLimit..])
    decreases |ids|
  {
    var chunks := Chunks(ids, BulkLimit);
    if |ids| > BulkLimit then
      var rest := Chunks(ids[BulkLimit..], BulkLimit);
      assert chunks == [ids[..BulkLimit]] + rest;
      UnpackArrayAppend([ids[..BulkLimit]], rest, api.albums);
      UnpackOne(api, ids[..BulkLimit]);
      UnpackArray(chunks, api.albums)
    else if |ids| > 0 then
      assert chunks == [ids];
      UnpackOne(api, ids);
      UnpackArray(chunks, api.albums)
    else UnpackArray(chunks, api.albums)
  }

  /** Every bulk lookup the resolver issues carries between 1 and 20 ids, and
      together they ask for exactly the given ids, in order. */
  lemma BulkRequestsCoverIds(ids: seq<string>)
    ensures forall c :: c in Chunks(ids, BulkLimit) ==> 0 < |c| <= BulkLimit
    ensures Flatten(Chunks(ids, BulkLimit)) == ids
    ensures |Chunks(ids, BulkLimit)| == (|ids| + BulkLimit - 1) / BulkLimit
  {
    ChunkCount(ids);
  }

  /** When the bulk endpoint answers with one record per id, in the order of
      the ids, the resolver returns exactly one record per input id, in input
      order: the result is the per-id lookup of the whole list. */
  lemma AlbumInformationPerId(api: Api, ids: seq<string>, lookup: string -> RawAlbum)
    requires forall c: seq<string> :: api.albums(c) == MapSeq(lookup, c)
    ensures AlbumInformation(api, ids) == MapSeq(lookup, ids)
    ensures |AlbumInformation(api, ids)| == |ids|
  {
    var chunks := Chunks(ids, BulkLimit);
    var answers := MapSeq(api.albums, chunks);
    FlattenMapInner(lookup, chunks, answers);
  }

  /** The album listing request `getAlbumIds` issues for one artist. */
  function AlbumListFor(artist: Artist): AlbumListRequest
  {
    AlbumListRequest(artist.id, AlbumsPerArtist, AlbumTypes, Market)
  }

  /** The album listing requests of `getAlbumIds`: one per artist, in artist
      order, each asking for 5 albums or singles in the US market. */
  function AlbumListRequests(artists: seq<Artist>): (r: seq<AlbumListRequest>)
    ensures |r| == |artists|
    ensures forall i :: 0 <= i < |r| ==>
              r[i].artistId == artists[i].id && r[i].limit == 5
              && r[i].albumType == "album,single" && r[i].country == "US"
  {
    MapSeq(AlbumListFor, artists)
  }

  /** The ids listed for one artist. */
  function ListedIds(api: Api, artist: Artist): seq<string>
  {
    MapSeq((ref: AlbumRef) => ref.id, api.artistAlbums(AlbumListFor(artist)))
  }

  /** The album ids `getAlbumIds` passes on to the bulk lookup. They are the
      listed ids of the artists concatenated in artist order: nothing is
      dropped, reordered or merged. */
  function RequestedAlbumIds(api: Api, artists: seq<Artist>): (r: seq<string>)
    ensures r == Flatten(MapSeq((a: Artist) => ListedIds(api, a), artists))
  {
    var lists := MapSeq(api.artistAlbums, AlbumListRequests(artists));
    FlattenMapInner((ref: AlbumRef) => ref.id, lists, MapSeq((a: Artist) => ListedIds(api, a), artists));
    MapSeq((ref: AlbumRef) => ref.id, UnpackArray(AlbumListRequests(artists), api.artistAlbums))
  }

  /** The number of ids sent to bulk lookup is the sum of the listing sizes. */
  lemma RequestedIdsCount(api: Api, artists: seq<Artist>)
    ensures |RequestedAlbumIds(api, artists)| == SumLengths(MapSeq((a: Artist) => ListedIds(api, a), artists))
  {
    FlattenLength(MapSeq((a: Artist) => ListedIds(api, a), artists));
  }

  /** No deduplication: an album listed under two artists is requested twice. */
  lemma DuplicatesKept(api: Api, x: Artist, y: Artist, id: string)
    requires api.artistAlbums(AlbumListFor(x)) == [AlbumRef(id)]
    requires api.artistAlbums(AlbumListFor(y)) == [AlbumRef(id)]
    ensures RequestedAlbumIds(api, [x, y]) == [id, id]
  {
    var listed := MapSeq((a: Artist) => ListedIds(api, a), [x, y]);
    assert ListedIds(api, x) == [id] && ListedIds(api, y) == [id];
    assert listed == [[id], [id]];
    assert listed[1..] == [[id]];
    assert Flatten(listed[1..]) == [id] + Flatten(listed[2..]);
    assert Flatten(listed) == [id] + Flatten(listed[1..]);
  }

  /** `getAlbumIds`: despite its name it resolves the listed ids into full
      album records. */
  function AlbumIds(api: Api, artists: seq<Artist>): (r: seq<RawAlbum>)
    ensures r == AlbumInformation(api, Flatten(MapSeq((a: Artist) => ListedIds(api, a), artists)))
    ensures (forall a :: a in artists ==> ListedIds(api, a) == []) ==> r == []
  {
    FlattenAllEmpty(MapSeq((a: Artist) => ListedIds(api, a), artists));
    AlbumInformation(api, RequestedAlbumIds(api, artists))
  }

  /** With a bulk endpoint that answers one record per id, `getAlbumIds`
      returns one record per listed album, in artist order and then listing
      order, duplicates included. */
  lemma AlbumIdsPerId(api: Api, artists: seq<Artist>, lookup: string -> RawAlbum)
    requires forall c: seq<string> :: api.albums(c) == MapSeq(lookup, c)
    ensures AlbumIds(api, artists)
            == MapSeq(lookup, Flatten(MapSeq((a: Artist) => ListedIds(api, a), artists)))
  {
    AlbumInformationPerId(api, RequestedAlbumIds(api, artists), lookup);
  }
}
