# spotify-latest-releases: the aggregation layer in Dafny

This project models the aggregation layer of `src/lib/service.js`. That layer
runs on top of the Spotify Web API and exports its functions one by one. It
never chains listing, album resolution, normalisation and ordering into one
pipeline; only `getNewReleasesV2` calls `getAlbumIds`, which calls
`getAlbumInformation`, and `getTopReleasesMediumTerm` calls
`getFollowedArtists`. It walks the followed-artists and
top-artists listings page by page. It reads the new-releases listing at
`offset || 0`, and only when that offset is 0 it reads one more page, at
offset 50; any other offset reads a single page. For each artist it fetches
the album listing. It looks up the listed albums in bulk, at most 20 ids per request.
It projects each album onto eight published keys and parses the album's
`release_date`. It sorts albums by release date, most recent first, and the
sort is stable.

Each HTTP endpoint becomes a total function from its query to the relevant
part of the response body. These functions are fields of `Upstream.Api`. The
concurrent fan-out (`bluebird.map`) is read as a map that keeps the input
order. All of the model is pure: datatypes, functions and lemmas.

- `seqs.dfy` (`Seqs`): flattening, an order-preserving map, and `unpackArray`.
- `upstream.dfy` (`Upstream`): JSON values, cursors and JavaScript truthiness, requests, pages, the `Api` record, and the constants 50 and `"US"`.
- `pagination.dfy` (`Pagination`): the cursor walk behind `getFollowedArtists` and `getTopReleases*`, and the two bounded offset walks `getNewReleases` and `getNewReleasesV2`.
- `resolver.dfy` (`Resolver`): `_.chunk`, `getAlbumInformation` and `getAlbumIds`.
- `normalize.dfy` (`Normalize`): `transformAlbums` and the `release_date` parser.
- `ordering.dfy` (`Ordering`): `orderAlbums`.

The model follows the code in three behaviours worth naming:
- the album ids are not deduplicated before the bulk lookup;
- a release date in none of the three shapes becomes an Invalid Date, and no error is raised;
- the offset walks stop after at most two pages.

## Model

| member | source | states |
|---|---|---|
| Seqs.UnpackArray | src/lib/service.js:7-9 | `unpackArray` yields as many records as the responses' lists hold together |
| Seqs.FlattenLength | src/lib/service.js:7-9 | a flattened list is as long as the sum of its parts' lengths |
| Seqs.UnpackArrayAppend | src/lib/service.js:7-9 | `unpackArray` of a concatenation is the concatenation of the two unpacked halves, so response order is output order |
| Seqs.UnpackArraySingletons | src/lib/service.js:7-9 | when every response holds one record, `unpackArray` is a plain order-preserving map |
| Pagination.PagesFrom | src/lib/service.js:116-129 | when the walk ends within the budget, its pages form the chain from `after`: the first page answers `after`; each later page answers the truthy cursor of the page before; only the last cursor is falsy |
| Pagination.ChainFound | src/lib/service.js:116-129 | every chain that fits the budget is the one the walk finds, so the walk ends exactly when upstream ends the chain |
| Pagination.ChainUnique | src/lib/service.js:116-129 | a cursor walk has at most one chain of pages |
| Pagination.FollowCursor | src/lib/service.js:116-129 | the recursive concatenation is defined exactly when the chain ends within the budget, and it is then the chain's items in cursor order |
| Pagination.FollowCursorBudget | src/lib/service.js:116-129 | once the budget covers the chain, a larger budget gives the same result |
| Pagination.FollowCursorLength | src/lib/service.js:116-129 | the number of items returned is the sum of the page lengths |
| Pagination.FollowCursorOrder | src/lib/service.js:124-125 | for any split of the chain, the items of the earlier pages come before the items of the later pages |
| Pagination.FollowedArtists | src/lib/service.js:116-129 | `getFollowedArtists` returns the items of the followed-artists chain in page order, and is defined exactly when that chain ends |
| Pagination.TopReleasesLongTerm | src/lib/service.js:146-159 | the same walk over the long-term top-artists listing |
| Pagination.TopReleasesShortTerm | src/lib/service.js:161-174 | the same walk over the short-term top-artists listing |
| Pagination.TopReleasesMediumTerm | src/lib/service.js:131-144 | as written, `getTopReleasesMediumTerm` equals `getFollowedArtists` on the same upstream and arguments |
| Pagination.MediumTermReadsFollowing | src/lib/service.js:131-144 | for an upstream with one followed artist and an empty medium-term listing, the as-written function returns that artist, while the medium-term walk returns nothing |
| Pagination.TopReleasesMediumTermFixed | src/lib/service.js:131-144 | the corrected function returns the items of the medium-term top-artists chain in page order |
| Pagination.NewReleases | src/lib/service.js:176-195 | at most two fetches. With offset 0 or absent, a second fetch at offset 50 always follows, with the first page's `next` as `after`, even when `next` is null. With any other offset, only one fetch. The items are the fetched pages' items in request order |
| Pagination.NewReleasesItems | src/lib/service.js:188-194 | from offset 0 the result is page 1's items followed by the items of the page at offset 50; otherwise it is that one page's items |
| Pagination.NewReleasesV2 | src/lib/service.js:197-221 | at most two fetches. The second fetch, at offset 50, happens exactly when the offset is 0 and `next` is truthy. The result is the resolved albums of each fetched page, in request order |
| Resolver.Chunks | src/lib/service.js:240 | `_.chunk` is empty for sizes below 1. Otherwise every chunk is non-empty and has at most `size` ids, all but the last have exactly `size`, and the chunks concatenate back to the input. Their number is ceil(N/size), as bounds |
| Resolver.ChunkCount | src/lib/service.js:240 | with size 20 there are exactly (N + 19) / 20 chunks |
| Resolver.BulkRequestsCoverIds | src/lib/service.js:239-245 | every bulk lookup carries 1 to 20 ids, together they request exactly the input ids in order, and there are ceil(N/20) of them |
| Resolver.AlbumInformation | src/lib/service.js:239-253 | `getAlbumInformation` returns nothing for no ids, the one bulk answer for 1 to 20 ids, and for more ids the bulk answer for the first 20 followed by the result for the rest |
| Resolver.AlbumInformationPerId | src/lib/service.js:239-253 | with a bulk endpoint that answers one record per id, the result is the per-id lookup of the input ids, in input order, so its length is N |
| Resolver.AlbumListRequests | src/lib/service.js:224-231 | one album-list request per artist, in artist order, each for that artist's id with limit 5, type `album,single` and country `US` |
| Resolver.RequestedAlbumIds | src/lib/service.js:224-235 | the ids sent to the bulk lookup are each artist's listed ids, concatenated in artist order |
| Resolver.RequestedIdsCount | src/lib/service.js:233-235 | the number of ids sent is the sum of the listing sizes |
| Resolver.DuplicatesKept | src/lib/service.js:233-235 | an album listed under two artists is requested twice, because ids are not deduplicated |
| Resolver.AlbumIds | src/lib/service.js:223-237 | `getAlbumIds` is `getAlbumInformation` of every artist's listed ids in artist order; when no artist lists an album the result is empty |
| Resolver.AlbumIdsPerId | src/lib/service.js:223-237 | with a bulk endpoint that answers one record per id, `getAlbumIds` returns one record per listed album, in artist order and then listing order |
| Normalize.ParseReleaseDate | src/lib/service.js:268-270 | parsing yields a date exactly when the string has one of the three shapes, and that date is an existing calendar day in years 0 to 9999; otherwise the Invalid Date |
| Normalize.ParseRendered | src/lib/service.js:268-270 | `Y-M-D` parses to (Y,M,D), `Y-M` to (Y,M,1) and `Y` to (Y,1,1), for every valid date |
| Normalize.ParseOverflow | src/lib/service.js:268-270 | a full date whose day overflows is read by `YYYY-MM` as (Y,M,1); a full or `Y-M` date whose month overflows is read by `YYYY` as (Y,1,1) |
| Normalize.ParsedIsRendered | src/lib/service.js:268-270 | conversely, a string that parses to a date is one of that date's three textual forms, or a full or `Y-M` form whose day or month overflows and that starts with the date's `Y-M` or `Y` form |
| Normalize.ParseFullDateExample | src/lib/service.js:268-270 | `2020-05-15` becomes 2020-05-15 |
| Normalize.ParseYearMonthExample | src/lib/service.js:268-270 | `2020-05` becomes 2020-05-01 |
| Normalize.ParseYearExample | src/lib/service.js:268-270 | `2020` becomes 2020-01-01 |
| Normalize.ParseDayOverflowExample | src/lib/service.js:268-270 | `2021-02-29` becomes 2021-02-01 |
| Normalize.ParseMonthOverflowExample | src/lib/service.js:268-270 | `2020-13` and `2020-13-01` become 2020-01-01 |
| Normalize.ParseRejects | src/lib/service.js:268-270 | `not-a-date` gives the Invalid Date |
| Normalize.ReleaseDateOf | src/lib/service.js:270 | the parsed `release_date` is a date exactly when the album holds a string `release_date` of one of the three shapes, and it is then an existing day |
| Normalize.TransformAlbum | src/lib/service.js:257-271 | the album keeps exactly the raw album's keys among the eight published keys, with their values; `release_date` is always present and holds the parsed date |
| Normalize.TransformAlbums | src/lib/service.js:255-274 | one normalised album per input album, in input order |
| Normalize.TransformAlbumsKeys | src/lib/service.js:257-266 | each output's keys are the raw keys among the eight published keys, plus `release_date`, and so are a subset of the eight |
| Ordering.CompareAscending | src/lib/service.js:277 | the comparison is 1, 0 or -1, and an Invalid Date ties with every date |
| Ordering.CompareAntisymmetric | src/lib/service.js:277 | swapping the two dates negates the comparison |
| Ordering.LaterTransitive | src/lib/service.js:277 | "more recent than" is transitive on dates |
| Ordering.TieIsSameDay | src/lib/service.js:277 | two valid dates tie exactly when they are the same day |
| Ordering.Insert | src/lib/service.js:277 | inserting an album that comes earlier in the input gives a permutation of the list plus that album; it goes before the first album that is not strictly more recent, so a tie keeps input order |
| Ordering.OrderAlbums | src/lib/service.js:276-278 | the result is a permutation of the input |
| Ordering.OrderAlbumsSorted | src/lib/service.js:276-278 | when every date is valid, no album is followed by a more recent one |
| Ordering.OrderAlbumsStable | src/lib/service.js:276-278 | the albums released on any one date keep their relative input order |
| Ordering.OrderExample | src/lib/service.js:276-278 | dates 2019-01-01, 2021-06-01 and 2020-03-01 come out as 2021-06-01, 2020-03-01, 2019-01-01 |

## Findings

| source | as written | input that shows it | evidently intended | confidence | as-written member | corrected member |
|---|---|---|---|---|---|---|
| src/lib/service.js:131-144 | `getTopReleasesMediumTerm` requests the followed-artists endpoint and recurses into `getFollowedArtists` | an upstream with one followed artist and an empty medium-term top-artists listing: the function returns the followed artist | request the medium-term top-artists endpoint (`getTopReleasesMediumTerm` of the API object, lines 73-79) and recurse into itself | high; not executed | Pagination.TopReleasesMediumTerm, Pagination.MediumTermReadsFollowing | Pagination.TopReleasesMediumTermFixed |

## Left out

- HTTP transport: the axios client, the bearer header and the `Qs` bracket serialisation are not modelled, and neither is the `ids.join(',')` of the bulk request. The bulk request is modelled as its list of ids.
- Retry on HTTP 429 and `wait`: every endpoint is a total function that always answers. Rate limiting, real-time delay and fatal upstream errors (which abort the whole aggregation) are I/O and are not modelled.
- `bluebird.map` concurrency: it is modelled as a sequential map that keeps the input order.
- `console.log`, the unused `unpackItem`, and the `Object.assign` parameter copies are not modelled. Only the parameters that reach the query are kept.
- `config/index.js` (environment and dotenv loading) is not part of this model.
- Pagination.FollowCursor: a `budget` bounds the number of requests, and the function answers `None` when the chain of pages is longer. The source has no bound and relies on upstream to end the chain. Pagination.FollowCursorBudget shows that any budget large enough gives the same answer.
- Pagination.NewReleasesV2: `getNewReleasesV2` reads the long-term top-artists endpoint as an offset listing (top-level `items` and `next`), while `getTopReleasesLongTerm` reads it as a cursor listing. `Api` gives the endpoint one field for each reading.
- Pagination.NewReleases: `offset || 0` is modelled on an optional integer. Other falsy or string offsets are not modelled.
- Normalize.ParseReleaseDate: only strings of the three exact shapes `YYYY-MM-DD`, `YYYY-MM` and `YYYY` are modelled, with moment's choice among the formats: the format of the string's own shape when its date exists, else `YYYY-MM` for an overflowing day, else `YYYY`. Strings of other shapes give the Invalid Date; moment's leniency on them (one-digit fields, other separators, leading or trailing text) is not modelled.
- Normalize.ReleaseDateOf: an absent or non-string `release_date` gives the Invalid Date. The parser would stringify a number instead.
- JavaScript `Date` values are modelled as (year, month, day) triples at UTC midnight, not as millisecond counts. The key order of the picked object is not modelled.
- Ordering.OrderAlbumsSorted: sortedness is proved only when every date is valid. An Invalid Date compares as a tie with every date, so lodash's comparator is then inconsistent and the engine's sort may order the albums differently from the model's insertion sort. The permutation and the per-date stability hold for every input in the model.
- Ordering.OrderAlbums: it takes normalised albums, whose `release_date` is always set. Sorting records that lack the key is not modelled.
