/** The upstream music-catalog API as the aggregation layer sees it. Every
    HTTP endpoint is a total function from the request's parameters to the
    response body's relevant part; transport, authorisation headers, query
    serialisation and the retry-on-429 loop sit below this boundary. */
module Upstream {

  /** A JSON value as it arrives in a response body. */
  datatype Json =
    | JNull
    | JBool(b: bool)
    | JNumber(n: int)
    | JString(s: string)
    | JArray(elems: seq<Json>)
    | JObject(members: map<string, Json>)

  /** A pagination cursor (`cursors.after`, or the `next` link of an offset
      listing): a string, or null/undefined. */
  datatype Cursor = Null | Str(s: string)

  /** JavaScript truthiness of a cursor: null, undefined and "" are falsy. */
  predicate Truthy(c: Cursor)
  {
    c.Str? && c.s != ""
  }

  /** An artist; the resolver consumes only its `id`. */
  datatype Artist = Artist(id: string, info: map<string, Json>)

  /** An entry of an artist's album listing; only its `id` is used. */
  datatype AlbumRef = AlbumRef(id: string)

  /** A full upstream album record, with all of its fields. */
  type RawAlbum = map<string, Json>

  /** Query of a cursor-paginated listing: `{ limit, country, after }`. */
  datatype PageRequest = PageRequest(limit: int, country: string, after: Cursor)

  /** Body of a cursor-paginated listing: `items` and `cursors.after`. */
  datatype CursorPage<T> = CursorPage(items: seq<T>, after: Cursor)

  /** Query of an offset-paginated listing: `{ limit, offset, after }`. */
  datatype OffsetRequest = OffsetRequest(limit: int, offset: int, after: Cursor)

  /** Body of an offset-paginated listing: `items` and the `next` link. */
  datatype OffsetPage<T> = OffsetPage(items: seq<T>, next: Cursor)

  /** Query of an artist's album listing: `{ limit, album_type, country }`. */
  datatype AlbumListRequest = AlbumListRequest(artistId: string, limit: int, albumType: string, country: string)

  /** The endpoints the service calls. `topLongTermByOffset` is the long-term
      top-artists endpoint read the way the second new-releases variant reads
      it (top-level `items` and `next`); `albums` is the bulk lookup, given
      the ids of one request. */
  datatype Api = Api(
    following: PageRequest -> CursorPage<Artist>,
    topLongTerm: PageRequest -> CursorPage<Artist>,
    topMediumTerm: PageRequest -> CursorPage<Artist>,
    topShortTerm: PageRequest -> CursorPage<Artist>,
    newReleases: OffsetRequest -> OffsetPage<RawAlbum>,
    topLongTermByOffset: OffsetRequest -> OffsetPage<Artist>,
    artistAlbums: AlbumListRequest -> seq<AlbumRef>,
    albums: seq<string> -> seq<RawAlbum>)

  /** Page size of every listing request. */
  const PageLimit := 50
  /** Market sent with cursor listings and album listings. */
  const Market := "US"
}
