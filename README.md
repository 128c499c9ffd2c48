# Artist dashboard: a verified model of `SpotifyArtistSummary`

This project models the data-collection core of the artist dashboard: the class
`SpotifyArtistSummary` in `analyze_artist.py`. It does three things:

- **Album pagination.** `get_all_albums` starts the recursive `process_all_albums`,
  which pages through an artist's albums and singles 50 at a time. When a page
  crosses from albums to singles it narrows the request to singles. It stops when
  its running count reaches the total reported by the first page.
- **Batched track lookups.** `get_all_tracks` asks for the tracks of 20 albums per
  request. `get_album_tracks` flattens each response into one tuple per track.
  `get_track_pop_scores` asks for popularity scores 50 tracks per request.
  `get_artist_discography` keeps only the tracks whose performer ids contain the
  artist's id.
- **Related-artist network.** `build_related_artist_network` grows the object's
  `artists` list breadth-first from a seed artist. It appends each new related act,
  as truncated by `process_related_acts`, until the list holds `total_acts` artists.

Every Spotify endpoint is a function parameter (an oracle). It returns the parsed
response, or `None` when the request failed. A Python exception becomes a
`Failure`: `MissingResponse` for a failed request, `IndexError` for an out-of-range
read, `UnboundResult` for `return res` with `res` unbound, and `RecursionLimit`
when the recursion budget runs out.

Files, one module each:

- `outcomes.dfy`: `Option`, `Result` and `Failure`.
- `lists.dfy`: `Flatten` (a nested comprehension), `Repeat` and prefix facts.
- `text.dfy`: `str.join`, `str.split` on one character, and the substring test `in`.
- `chunking.dfy`: the windows `[i, i+k)` the batching loops visit, and `Gather`, the
  per-window results joined in order, stopping at the first error.
- `pagination.dfy`: one page of `process_all_albums` as `Step`, the recursion as
  `Run`, and the imperative `ProcessPage`, `ProcessAllAlbums` and `GetAllAlbums`
  proved equal to them.
- `catalog.dfy`: the pagination run against a well-behaved endpoint (albums listed
  before singles), including the finding below.
- `tracks.dfy`: `get_all_tracks`, `get_album_tracks`, `get_track_pop_scores` and
  the retention filter.
- `network.dfy`: the class `SpotifyArtistSummary` with its `artists` field, the
  method `BuildRelatedArtistNetwork`, the specification functions `Scan`, `Grow` and
  `Build`, and the network invariants.

## Model

| member | source | states |
|---|---|---|
| Pagination.FinishedIff | analyze_artist.py:86-95 | The base case fires exactly when the running count plus the page's items equals the first page's total. It then returns every page's tuples in fetch order, with the new page last. |
| Pagination.LaterTotalsIgnored | analyze_artist.py:87-93 | Totals after the first are appended but never read: changing them changes no transition. |
| Pagination.ZeroTotal | analyze_artist.py:86-95 | A first page with total 0 and no items ends the traversal with no albums. |
| Pagination.RecordsAt | analyze_artist.py:76-83 | Each tuple carries its item's id, group and track count, and ends with the queried artist id. |
| Pagination.BoundaryStep | analyze_artist.py:98-112 | On a full page whose first and last labels differ: the trailing run `t` lies in [1, limit-1], and every label in the run equals the last one. The label at `limit-t-1` differs from the last label. As written, the next offset is `offset + t`. The groups become `[Single]` exactly when that label is `Album`. |
| Pagination.CountTrailingRun | analyze_artist.py:100-105 | The backward counting loop that breaks at the first different label returns the trailing run length. |
| Pagination.ContinueBranches | analyze_artist.py:98-123 | The state goes on to another request exactly when the total is not reached, the page is non-empty, and the page is either full or short with one group and a group left to pop. A full one-group page advances the offset by `limit` and keeps the groups. A short page pops the first group and resets the offset to 0. Every continuation records the page, its total and its count. |
| Pagination.StepAdvance | analyze_artist.py:85-123 | A page below the total whose branch yields new arguments continues with exactly those arguments and the page recorded. |
| Pagination.StuckCases | analyze_artist.py:98-125 | Pages that match no branch fail. An empty page below the total, or a short one-group page with no group left to pop, raises IndexError. A short mixed page, or a page longer than the limit, leaves `res` unbound. |
| Pagination.ProcessPage | analyze_artist.py:68-123 | The imperative body of one call, with its branch-by-branch updates of offset and groups, computes exactly `Step` for the chosen offset rule. |
| Pagination.ProcessAllAlbums | analyze_artist.py:49-125 | The recursion written as a loop returns exactly what `Run` returns for the chosen offset rule, within the recursion budget. |
| Pagination.GetAllAlbums | analyze_artist.py:24-47 | It starts with limit 50 and groups album then single, using the offset rule as written. It gives None exactly when the traversal raised, and otherwise the traversal's albums. |
| Pagination.RunOkTotal | analyze_artist.py:86-95 | A successful traversal returns exactly as many tuples as the first page's total, all carrying the queried artist id. |
| Pagination.RunOkAfterFirst | analyze_artist.py:86-123 | Once a first total is recorded, a successful run returns exactly that many tuples, beginning with those already accumulated. |
| PaginationCatalog.Completes | analyze_artist.py:93-123 | Against an endpoint that lists albums before singles, the recursion returns every item of the catalog in listing order. This holds from either invariant state, given enough recursion budget: both groups active with a correct offset, or narrowed to singles. |
| PaginationCatalog.BothGroupsStep | analyze_artist.py:98-117 | One page with both groups active either finishes with the whole catalog, or continues with at least `limit` more items counted, keeping both groups or narrowing to singles with the invariant of each. |
| PaginationCatalog.SinglesOnlyStep | analyze_artist.py:93-117 | One page in the singles-only state either finishes with the whole catalog or keeps the invariant with `limit` more singles counted. |
| PaginationCatalog.BothGroupsCrossing | analyze_artist.py:98-112 | A page crossing from albums to singles narrows the groups to `[Single]` and records all albums and the first singles. |
| PaginationCatalog.CorrectedFetchesWholeCatalog | analyze_artist.py:107-112 | With the corrected boundary offset, the traversal from `get_all_albums`'s start returns the whole catalog for any page limit. |
| PaginationCatalog.AsWrittenCompleteWhenBoundaryOnFirstPage | analyze_artist.py:107-112 | The source's offset rule returns the whole catalog whenever the albums fit on the first page (at most `limit` of them, none included), for any positive page limit. |
| PaginationCatalog.AsWrittenSkipsSingles | analyze_artist.py:107-112 | As written, a catalog of three albums and two singles at limit 2 ends in IndexError. The corrected rule returns all five items. |
| Chunking.WindowCount | analyze_artist.py:140-156 | There are ceil(n/k) windows: none for an empty input, otherwise the least count whose capacity covers the input. |
| Chunking.WindowAt | analyze_artist.py:146-156 | Window `k` starts inside the input and is the slice `[k*size, (k+1)*size)`, clipped at the end. |
| Chunking.WindowSizes | analyze_artist.py:207-219 | Every window but the last holds exactly `size` items, and the last holds between 1 and `size`. |
| Chunking.FlattenWindows | analyze_artist.py:207-219 | The windows joined in order give back the input. |
| Chunking.GatherOkIff | analyze_artist.py:150-153 | Collecting succeeds exactly when every window's request succeeds. |
| Chunking.GatherMap | analyze_artist.py:213-216 | When each window answers with a function of itself, the result is those answers joined in window order. |
| Tracks.ExpandArtistIds | analyze_artist.py:149 | The per-track artist ids of a window have one entry per announced track, that is, the sum of `total_tracks`. |
| Tracks.ExpandSingleArtist | analyze_artist.py:149 | When every album of a window belongs to one artist, the expansion is that id repeated once per announced track. |
| Tracks.AlbumTrackRowsShape | analyze_artist.py:172-191 | One response yields an error exactly when an album beyond the requested ids has tracks. Otherwise it yields as many tuples as the shorter of the track items and the artist ids, because of the zip. |
| Tracks.AlbumTrackRowAt | analyze_artist.py:176-191 | The tuple at the position of album `i`, track `j` (after all tracks of earlier albums) describes that track and its album. It is tagged with the requested album id at position `i` and the artist id at its own position. |
| Tracks.BatchTracksTagged | analyze_artist.py:146-150 | For comma-free album ids and at most one response album per id, a window's request succeeds and is tagged with the window's own album ids. It yields the shorter of the track-item count and the announced track count. |
| Tracks.GetAllTracks | analyze_artist.py:137-159 | The 20-album loop returns the per-window results joined in window order, or the first failed request's error. |
| Tracks.GetTrackPopScores | analyze_artist.py:204-222 | The 50-track loop returns the per-window scores joined in window order, or the first failed request's error. |
| Tracks.PopScoresAligned | analyze_artist.py:207-219 | For comma-free track ids, when the endpoint answers every request of comma-free ids with one score per requested id in request order, the collected scores line up one for one with the id list: "a list of the same size" (:201). |
| Tracks.SplitScoresAligned | analyze_artist.py:207-219 | An endpoint that splits the request at commas and scores each id meets that hypothesis, so for any comma-free id list the loop's result is the score of each id in order. |
| Tracks.RetainMembers | analyze_artist.py:246 | A record survives the filter exactly when it is an input record whose primary artist id occurs in its performer-id string. |
| Tracks.RetainAppend | analyze_artist.py:246 | The filter distributes over concatenation, so relative order is kept. |
| Tracks.RetainIdempotent | analyze_artist.py:246 | Filtering twice is filtering once. |
| Tracks.RetainAll | analyze_artist.py:246 | The filter returns its input exactly when every record passes. |
| Tracks.CreditedTrackKept | analyze_artist.py:186 | A track whose performers include the primary artist is kept. |
| Tracks.KeepsIffCredited | analyze_artist.py:246 | With ids of one fixed width and no commas, the substring test is exactly membership of the primary id among the performer ids. |
| Text.SplitJoin | analyze_artist.py:148 | Splitting the comma-joined album ids at `,` gives back the ids (:172), provided no id contains a comma. |
| Text.FixedWidthContainsIff | analyze_artist.py:186 | In a comma-join of ids of one width, an id of that width occurs as a substring exactly when it is one of the ids. |
| Network.ToArtist | analyze_artist.py:327-328 | The Artist record copies id, name, followers and popularity, and joins the genres with ", ". |
| Network.ProcessRelatedActs | analyze_artist.py:358-382 | A failed request gives None. Otherwise the result is one Artist per kept act, in endpoint order, with the list cut by Python's `[:n]`. |
| Network.SlicePrefixLength | spotify_api.py:104 | `[:num_artists]` keeps a prefix: `min(n, len)` acts for `n >= 0`, all but the last `-n` for negative `n`. |
| Network.Scan | analyze_artist.py:345-352 | The inner loop only appends, and `acts_added` grows by the number of artists appended. |
| Network.ScanKeeps | analyze_artist.py:345-352 | The inner loop keeps the ids distinct and equal to `processed_artists`, never passes `total_acts`, and appends only acts of the scanned list. Unless it stopped at `total_acts`, every scanned act's id ends up processed. |
| Network.ScanAt | analyze_artist.py:345-352 | One more act of the inner loop: it stops once `acts_added == total_acts` without scanning further, appends a new id, and skips a seen one. |
| Network.GrowStep | analyze_artist.py:338-354 | One outer iteration keeps the invariants and moves `artist_idx` on by exactly one. The invariants are: distinct ids equal to `processed_artists`, `len(artists) == acts_added` bounded by `total_acts`, artists before `artist_idx` fully expanded, and every later artist discovered by an earlier one. |
| Network.GrowEnds | analyze_artist.py:338-354 | The outer loop ends with the list holding `max(total_acts, 1)` artists, or fails in one of two ways. It raises IndexError with every artist expanded and all related acts listed, or a request for a listed artist failed. |
| Network.NetworkShape | analyze_artist.py:326-354 | On a fresh object: `artists[0]` is the seed and ids are pairwise distinct. There are at most `max(total_acts, 1)` artists, and exactly that many on normal return. Every later artist is a related act of an earlier one. |
| Network.NetworkExhausted | analyze_artist.py:338-340 | On a fresh object, the read past the end of the list happens exactly when the list is short of `total_acts` and every listed artist was expanded with all its related acts already listed. |
| Network.FanNetwork | analyze_artist.py:345-347 | Worked example: four artists from S (related to A, B), where A is related to S, C, D. The result is [S, A, B, C]: the seed is skipped as seen, and D is never scanned because the list is full. |
| Network.PairNetworkRunsOut | analyze_artist.py:340 | Worked example: S and A are each other's only related act. Asking for five artists ends with [S, A] and IndexError. |
| Network.SpotifyArtistSummary.constructor | analyze_artist.py:19-22 | A new object has an empty `artists` list. |
| Network.SpotifyArtistSummary.BuildRelatedArtistNetwork | analyze_artist.py:311-354 | The method's nested loops leave `artists` and the raised failure exactly as `Build` specifies, from whatever list the object held before. |

## Left out

- HTTP, token acquisition, the auth header and logging (`spotify_api.py`). Each endpoint is a function parameter instead, and a request that failed and was logged is `None`.
- The dashboard (`artist_dashboard.py`) and the pandas part of `get_artist_discography`: dataframes, merges, dates from the clock, regex remix detection and aggregation. Only the filter at analyze_artist.py:246 is modelled.
- Track durations stay in integer milliseconds. `round(duration_ms * .001, 2)` is floating point.
- The `np.nan` placeholder for a null album entry (analyze_artist.py:176). The sibling comprehensions would raise on a null entry, so album entries are never null here.
- A null entry in the tracks endpoint's `tracks` list is not modelled: each response is a list of scores.
- Album groups are an enumeration (`Album`, `Single`, `Compilation`, `AppearsOn`), not free strings. The request carries the group list itself rather than its comma-joined string.
- Pagination.Run: Python's recursion limit is a `fuel` parameter, the number of recursion levels allowed. Running out is `RecursionLimit`, which `get_all_albums` also turns into None.
- Pagination.ProcessAllAlbums: the recursion is a loop over its arguments. Each call's `res` is the value returned to the caller, so nothing is lost. The in-place `alb_groups.pop(0)` is modelled as dropping the first group of the next call's list.
- Tracks.ExpandArtistIds: `(n * (id + " ")).split()` is modelled as `n` copies of the id. This assumes artist ids are non-empty and contain no whitespace, as Spotify ids are.
- Tracks.PopScoresAligned: the alignment is proved for track ids without commas, as Spotify ids are. A comma inside an id would change how the joined request is split.
- Network.NetworkShape: stated for a fresh object (`artists == []`), as the dashboard creates one per build. The method itself is proved for any starting list.
- A seed lookup that fails makes `build_related_artist_network` raise on `None['id']`. Here it is `MissingResponse` with the list unchanged. A failed related-artists request is likewise `MissingResponse`.

## Findings

| source | as written | input that shows it | evidently intended | confidence | as-written member | corrected member |
|---|---|---|---|---|---|---|
| analyze_artist.py:107 | On a full page that crosses from albums to singles, the next offset is `offset + t`, where `t` is the number of singles on the page. That offset is then applied to the singles-only listing. | Page limit 2, albums a1, a2, a3, singles s1, s2, endpoint listing albums before singles. Page 2 at offset 2 is [a3, s1], so `t` is 1. The next request asks for singles at offset 3, which returns an empty page below the total. `album_groups[0]` then raises IndexError, and `get_all_albums` returns None. | When the groups narrow to singles, the next offset is `t`, the number of singles already collected. This agrees with the source's rule whenever the crossing page is the first page (offset 0). | not executed | PaginationCatalog.AsWrittenSkipsSingles | PaginationCatalog.CorrectedFetchesWholeCatalog |
