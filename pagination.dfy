/** Grouped album pagination: `get_all_albums` and its recursive helper
    `process_all_albums` (analyze_artist.py). The albums endpoint is an oracle
    `fetch` from a request to a page, or None when the client logged an HTTP error.
    One page is processed by `Step`; `Run` repeats it, one recursion level per page. */
module Pagination {
  import opened Outcomes
  import opened Lists

  /** The values the albums endpoint gives `album_group` (and accepts in `include_groups`). */
  datatype Group = Album | Single | Compilation | AppearsOn

  /** One album as the albums endpoint lists it (the fields the source reads). */
  datatype AlbumItem = AlbumItem(releaseDate: string, totalTracks: nat, albumType: string,
                                 albumGroup: Group, id: string)

  /** The per-album tuple (release_date, total_tracks, album_type, album_group, id, artist_id). */
  datatype AlbumRecord = AlbumRecord(releaseDate: string, totalTracks: nat, albumType: string,
                                     albumGroup: Group, albumId: string, artistId: string)

  /** A call of `get_artist_albums`: the group list is sent comma-joined. */
  datatype PageRequest = PageRequest(artistId: string, offset: nat, limit: nat, groups: seq<Group>)

  /** The fields of a page the source reads: `items` and `total`. */
  datatype Page = Page(items: seq<AlbumItem>, total: int)

  /** The arguments threaded through the recursion: the offset, the active groups,
      the shared lists `all_albums` (one entry per page) and `group_total_albums`, and
      the processed count. */
  datatype Cursor = Cursor(offset: nat, groups: seq<Group>, pages: seq<seq<AlbumRecord>>,
                           totals: seq<int>, processed: nat)

  /** What one page leads to: another request, the base case, or an exception. */
  datatype Transition = Continue(next: Cursor) | Finished(albums: seq<AlbumRecord>) | Stuck(error: Failure)

  /** Which offset rule a boundary page uses: the source's `offset += tail run`, or the
      corrected one (see the Findings section of the README). */
  datatype Revision = AsWritten | Corrected

  const AlbumLimit: nat := 50
  const AlbumGroups: seq<Group> := [Album, Single]

  /** The state `get_all_albums` starts the recursion in. */
  function Start(groups: seq<Group>): Cursor
  {
    Cursor(0, groups, [], [], 0)
  }

  function Request(artistId: string, limit: nat, c: Cursor): PageRequest
  {
    PageRequest(artistId, c.offset, limit, c.groups)
  }

  function ToRecord(item: AlbumItem, artistId: string): AlbumRecord
  {
    AlbumRecord(item.releaseDate, item.totalTracks, item.albumType, item.albumGroup, item.id, artistId)
  }

  /** The zipped comprehensions of a page: one tuple per item, in response order, each
      ending with the queried artist id. */
  function Records(items: seq<AlbumItem>, artistId: string): (r: seq<AlbumRecord>)
    ensures |r| == |items|
  {
    seq(|items|, k requires 0 <= k < |items| => ToRecord(items[k], artistId))
  }

  /** Each tuple carries its item's id, group and track count, and the queried artist id. */
  lemma RecordsAt(items: seq<AlbumItem>, artistId: string)
    ensures forall k :: 0 <= k < |items| ==>
              var r := Records(items, artistId)[k];
              r.artistId == artistId && r.albumId == items[k].id &&
              r.albumGroup == items[k].albumGroup && r.totalTracks == items[k].totalTracks
  {
  }

  lemma RecordsAppend(a: seq<AlbumItem>, b: seq<AlbumItem>, artistId: string)
    ensures Records(a + b, artistId) == Records(a, artistId) + Records(b, artistId)
  {
  }

  /** The `album_group` of each item. */
  function Labels(items: seq<AlbumItem>): (ls: seq<Group>)
    ensures |ls| == |items| && forall k :: 0 <= k < |items| ==> ls[k] == items[k].albumGroup
  {
    seq(|items|, k requires 0 <= k < |items| => items[k].albumGroup)
  }

  /** The number of trailing labels equal to `x`. */
  function RunOf(labels: seq<Group>, x: Group): (t: nat)
    ensures t <= |labels|
    ensures forall k :: |labels| - t <= k < |labels| ==> labels[k] == x
    ensures t < |labels| ==> labels[|labels| - 1 - t] != x
  {
    if |labels| == 0 || labels[|labels| - 1] != x then 0
    else 1 + RunOf(labels[..|labels| - 1], x)
  }

  /** The run of trailing labels equal to the last one (`same_val_counter`). */
  function TrailingRun(labels: seq<Group>): (t: nat)
    ensures t <= |labels|
    ensures |labels| > 0 ==> t >= 1
    ensures forall k :: |labels| - t <= k < |labels| ==> labels[k] == labels[|labels| - 1]
    ensures t < |labels| ==> labels[|labels| - 1 - t] != labels[|labels| - 1]
  {
    if |labels| == 0 then 0 else RunOf(labels, labels[|labels| - 1])
  }

  /** The run length is determined by the properties TrailingRun ensures. */
  lemma TrailingRunUnique(labels: seq<Group>, t: nat)
    requires t <= |labels|
    requires forall k :: |labels| - t <= k < |labels| ==> labels[k] == labels[|labels| - 1]
    requires t < |labels| ==> labels[|labels| - 1 - t] != labels[|labels| - 1]
    ensures t == TrailingRun(labels)
  {
  }

  /** The `for i in range(len - 1, -1, -1)` loop that counts the trailing run and
      breaks at the first different label. */
  method CountTrailingRun(labels: seq<Group>) returns (same: nat)
    ensures same == TrailingRun(labels)
  {
    same := 0;
    var i := |labels| - 1;
    while i >= 0
      invariant -1 <= i < |labels|
      invariant same == |labels| - 1 - i
      invariant forall k :: i < k < |labels| ==> labels[k] == labels[|labels| - 1]
      decreases i
    {
      if labels[i] == labels[|labels| - 1] {
        same := same + 1;
      } else {
        break;
      }
      i := i - 1;
    }
    TrailingRunUnique(labels, same);
  }

  /** The total the base case compares against: `group_total_albums[0]`, the total of
      the first page of the whole traversal. */
  function Target(c: Cursor, page: Page): int
  {
    if c.totals == [] then page.total else c.totals[0]
  }

  /** The offset after a page that crosses a group boundary, given the trailing run `t`
      and whether the groups were narrowed. */
  function BoundaryOffset(rev: Revision, offset: nat, t: nat, narrowed: bool): nat
  {
    match rev
    case AsWritten => offset + t
    case Corrected => if narrowed then t else offset + t
  }

  /** The arguments of the next recursive call, or the exception raised instead. */
  datatype Move = Advance(offset: nat, groups: seq<Group>) | Raise(error: Failure)

  /** The three recursive conditions, taken after the base case failed, on the labels
      of a page fetched at `offset` with the active `groups`. */
  function NextArgs(rev: Revision, limit: nat, offset: nat, groups: seq<Group>, labels: seq<Group>): Move
  {
    var n := |labels|;
    if n == limit then
      if n == 0 then Raise(IndexError)
      else if labels[0] != labels[n - 1] then
        var t := TrailingRun(labels);
        var narrowed := labels[n - t - 1] == Album;
        Advance(BoundaryOffset(rev, offset, t, narrowed), if narrowed then [Single] else groups)
      else
        Advance(offset + limit, groups)
    else if n < limit then
      if n == 0 then Raise(IndexError)
      else if labels[0] != labels[n - 1] then Raise(UnboundResult)
      else if groups == [] then Raise(IndexError)
      else Advance(0, groups[1..])
    else Raise(UnboundResult)
  }

  /** One call of `process_all_albums` after its request returned `page`: record the
      page, test the base case, then take whichever recursive condition applies. */
  function Step(rev: Revision, artistId: string, limit: nat, c: Cursor, page: Page): Transition
  {
    var pages := c.pages + [Records(page.items, artistId)];
    var totals := c.totals + [page.total];
    var processed := c.processed + |page.items|;
    if processed == totals[0] then Finished(Flatten(pages))
    else
      match NextArgs(rev, limit, c.offset, c.groups, Labels(page.items))
      case Advance(offset, groups) => Continue(Cursor(offset, groups, pages, totals, processed))
      case Raise(e) => Stuck(e)
  }

  /** The recursion, one level per page; `fuel` is the recursion budget left. */
  function Run(rev: Revision, fetch: PageRequest -> Option<Page>, artistId: string, limit: nat,
               c: Cursor, fuel: nat): Result<seq<AlbumRecord>>
    decreases fuel, 0
  {
    if fuel == 0 then Err(RecursionLimit)
    else
      match fetch(Request(artistId, limit, c))
      case None => Err(MissingResponse)
      case Some(page) => Resume(rev, fetch, artistId, limit, Step(rev, artistId, limit, c, page), fuel - 1)
  }

  /** The outcome once a page has been processed: the base case's albums, the
      exception, or the next level of the recursion. */
  function Resume(rev: Revision, fetch: PageRequest -> Option<Page>, artistId: string, limit: nat,
                  t: Transition, fuel: nat): Result<seq<AlbumRecord>>
    decreases fuel, 1
  {
    match t
    case Finished(albums) => Ok(albums)
    case Stuck(e) => Err(e)
    case Continue(next) => Run(rev, fetch, artistId, limit, next, fuel)
  }

  /** The body of `process_all_albums` after its request returned `page`: append the
      page's tuples and total, add to the count, then the base case and the three
      recursive conditions, each of which updates the arguments of the next call. */
  method ProcessPage(rev: Revision, artistId: string, limit: nat, c: Cursor, page: Page) returns (t: Transition)
    ensures t == Step(rev, artistId, limit, c, page)
  {
    var offset := c.offset;
    var albGroups := c.groups;
    var count := |page.items|;
    var albumGroups := Labels(page.items);
    var allAlbums := c.pages + [Records(page.items, artistId)];
    var groupTotals := c.totals + [page.total];
    var processed := c.processed + count;
    if processed == groupTotals[0] {
      return Finished(Flatten(allAlbums));
    }
    if count == limit {
      if count == 0 {
        return Stuck(IndexError);
      }
      if albumGroups[0] != albumGroups[count - 1] {
        var same := CountTrailingRun(albumGroups);
        var changeIdx := (limit - 1) - (same - 1);
        var changeIdxVal := albumGroups[changeIdx - 1];
        if rev == Corrected && changeIdxVal == Album {
          offset := same;
        } else {
          offset := offset + same;
        }
        if changeIdxVal == Album {
          albGroups := [Single];
        }
      } else {
        offset := offset + limit;
      }
    } else if count < limit {
      if count == 0 {
        return Stuck(IndexError);
      }
      if albumGroups[0] != albumGroups[count - 1] {
        return Stuck(UnboundResult);
      }
      if albGroups == [] {
        return Stuck(IndexError);
      }
      albGroups := albGroups[1..];
      offset := 0;
    } else {
      return Stuck(UnboundResult);
    }
    t := Continue(Cursor(offset, albGroups, allAlbums, groupTotals, processed));
  }

  /** `process_all_albums` from its first call, with the recursion written as a loop
      over its arguments; each iteration is one recursion level. */
  method ProcessAllAlbums(rev: Revision, fetch: PageRequest -> Option<Page>, artistId: string, limit: nat,
                          groups: seq<Group>, depth: nat)
    returns (result: Result<seq<AlbumRecord>>)
    ensures result == Run(rev, fetch, artistId, limit, Start(groups), depth)
  {
    var c := Start(groups);
    var fuel := depth;
    while true
      invariant Run(rev, fetch, artistId, limit, Start(groups), depth)
             == Run(rev, fetch, artistId, limit, c, fuel)
      decreases fuel
    {
      if fuel == 0 {
        return Err(RecursionLimit);
      }
      var response := fetch(Request(artistId, limit, c));
      if response.None? {
        return Err(MissingResponse);
      }
      var t := ProcessPage(rev, artistId, limit, c, response.value);
      match t {
        case Finished(albums) => return Ok(albums);
        case Stuck(e) => return Err(e);
        case Continue(next) =>
          c := next;
          fuel := fuel - 1;
      }
    }
  }

  /** `get_all_albums`: limit 50, groups album then single; any exception is caught
      and the method returns None. */
  method GetAllAlbums(fetch: PageRequest -> Option<Page>, artistId: string, depth: nat)
    returns (albums: Option<seq<AlbumRecord>>)
    ensures albums.Some? <==> Run(AsWritten, fetch, artistId, AlbumLimit, Start(AlbumGroups), depth).Ok?
    ensures albums.Some? ==> albums.value == Run(AsWritten, fetch, artistId, AlbumLimit, Start(AlbumGroups), depth).value
  {
    var res := ProcessAllAlbums(AsWritten, fetch, artistId, AlbumLimit, AlbumGroups, depth);
    albums := if res.Ok? then Some(res.value) else None;
  }

  // ---------------------------------------------------------------------------
  // Properties of one page

  /** The base case fires exactly when the running count reaches the first page's
      total; it returns every page's tuples in fetch order, the new page last. */
  lemma FinishedIff(rev: Revision, artistId: string, limit: nat, c: Cursor, page: Page)
    ensures Step(rev, artistId, limit, c, page).Finished?
        <==> c.processed + |page.items| == Target(c, page)
    ensures Step(rev, artistId, limit, c, page).Finished? ==>
              Step(rev, artistId, limit, c, page).albums == Flatten(c.pages) + Records(page.items, artistId)
  {
    FlattenSnoc(c.pages, Records(page.items, artistId));
  }

  /** A full page whose first and last labels differ: its trailing run `t` lies in
      [1, limit - 1], the label at `limit - t - 1` is the last one before the run and
      differs from the last label, the next offset is `offset + t` as written, and the
      groups become `[Single]` exactly when that label is `Album`. */
  lemma BoundaryStep(rev: Revision, artistId: string, limit: nat, c: Cursor, page: Page)
    requires |page.items| == limit > 0
    requires Labels(page.items)[0] != Labels(page.items)[limit - 1]
    requires c.processed + limit != Target(c, page)
    ensures var labels := Labels(page.items);
            var t := TrailingRun(labels);
            && 1 <= t <= limit - 1
            && labels[limit - t - 1] != labels[limit - 1]
            && (forall k :: limit - t <= k < limit ==> labels[k] == labels[limit - 1])
            && Step(rev, artistId, limit, c, page).Continue?
            && Step(rev, artistId, limit, c, page).next.groups
               == (if labels[limit - t - 1] == Album then [Single] else c.groups)
            && Step(rev, artistId, limit, c, page).next.offset
               == BoundaryOffset(rev, c.offset, t, labels[limit - t - 1] == Album)
            && (rev == AsWritten ==> Step(rev, artistId, limit, c, page).next.offset == c.offset + t)
  {
  }

  /** The continuation branches are mutually exclusive and each advances the state as
      the source does: a full single-group page moves the offset by `limit`, a short
      single-group page drops the first group and restarts at offset 0. Every
      continuation records the page, its total and its count. */
  lemma ContinueBranches(rev: Revision, artistId: string, limit: nat, c: Cursor, page: Page)
    ensures var r := Step(rev, artistId, limit, c, page);
            var n := |page.items|;
            var labels := Labels(page.items);
            && (r.Continue? <==> c.processed + n != Target(c, page) && n > 0
                                 && (n == limit || (n < limit && labels[0] == labels[n - 1] && c.groups != [])))
            && (r.Continue? && n == limit && labels[0] == labels[n - 1] ==>
                  r.next.offset == c.offset + limit && r.next.groups == c.groups)
            && (r.Continue? && n < limit ==> r.next.offset == 0 && r.next.groups == c.groups[1..])
            && (r.Continue? ==> r.next.pages == c.pages + [Records(page.items, artistId)]
                                && r.next.totals == c.totals + [page.total]
                                && r.next.processed == c.processed + n)
  {
  }

  /** A page below the target whose arguments advance: the next cursor. */
  lemma StepAdvance(rev: Revision, artistId: string, limit: nat, c: Cursor, page: Page,
                    offset: nat, groups: seq<Group>)
    requires c.processed + |page.items| != Target(c, page)
    requires NextArgs(rev, limit, c.offset, c.groups, Labels(page.items)) == Advance(offset, groups)
    ensures Step(rev, artistId, limit, c, page)
            == Continue(Cursor(offset, groups, c.pages + [Records(page.items, artistId)],
                               c.totals + [page.total], c.processed + |page.items|))
  {
  }

  /** The pages that match no branch: a short page whose first and last labels differ
      reaches `return res` with `res` unbound; an empty page below the total, or a
      short page when no group is left to pop, indexes past the end. */
  lemma StuckCases(rev: Revision, artistId: string, limit: nat, c: Cursor, page: Page)
    requires c.processed + |page.items| != Target(c, page)
    ensures |page.items| == 0 ==> Step(rev, artistId, limit, c, page) == Stuck(IndexError)
    ensures (0 < |page.items| < limit && page.items[0].albumGroup != page.items[|page.items| - 1].albumGroup)
            ==> Step(rev, artistId, limit, c, page) == Stuck(UnboundResult)
    ensures (0 < |page.items| < limit && page.items[0].albumGroup == page.items[|page.items| - 1].albumGroup
             && c.groups == []) ==> Step(rev, artistId, limit, c, page) == Stuck(IndexError)
    ensures |page.items| > limit ==> Step(rev, artistId, limit, c, page) == Stuck(UnboundResult)
  {
  }

  /** Only the first total is read: two states that agree on it and on everything
      else but the later totals take the same transition, up to those totals. */
  lemma LaterTotalsIgnored(rev: Revision, artistId: string, limit: nat, c: Cursor, later: seq<int>, page: Page)
    requires |c.totals| > 0
    ensures var c2 := c.(totals := c.totals[..1] + later);
            var r1 := Step(rev, artistId, limit, c, page);
            var r2 := Step(rev, artistId, limit, c2, page);
            && r1.Finished? == r2.Finished? && r1.Stuck? == r2.Stuck?
            && (r1.Finished? ==> r1.albums == r2.albums)
            && (r1.Stuck? ==> r1.error == r2.error)
            && (r1.Continue? ==> r1.next.(totals := []) == r2.next.(totals := []))
  {
  }

  // ---------------------------------------------------------------------------
  // Properties of the whole recursion

  /** The running count is the number of tuples accumulated so far, and there is one
      recorded total per page. */
  ghost predicate Consistent(c: Cursor)
  {
    c.processed == |Flatten(c.pages)| && |c.totals| == |c.pages|
  }

  /** Once a first total is recorded, a successful run returns exactly that many
      tuples, starting with those already accumulated, and every later tuple carries
      the queried artist id. */
  lemma {:induction false} RunOkAfterFirst(rev: Revision, fetch: PageRequest -> Option<Page>, artistId: string,
                                           limit: nat, c: Cursor, fuel: nat)
    requires Consistent(c) && c.totals != []
    requires Run(rev, fetch, artistId, limit, c, fuel).Ok?
    ensures var r := Run(rev, fetch, artistId, limit, c, fuel).value;
            && |r| == c.totals[0]
            && Flatten(c.pages) <= r
            && forall k :: |Flatten(c.pages)| <= k < |r| ==> r[k].artistId == artistId
    decreases fuel
  {
    var page := fetch(Request(artistId, limit, c)).value;
    var recs := Records(page.items, artistId);
    FlattenSnoc(c.pages, recs);
    var step := Step(rev, artistId, limit, c, page);
    if step.Continue? {
      ContinueBranches(rev, artistId, limit, c, page);
      RunOkAfterFirst(rev, fetch, artistId, limit, step.next, fuel - 1);
    }
  }

  /** A successful traversal returns exactly as many tuples as the first page's total,
      all of them for the queried artist. */
  lemma RunOkTotal(rev: Revision, fetch: PageRequest -> Option<Page>, artistId: string, limit: nat,
                   groups: seq<Group>, fuel: nat)
    requires Run(rev, fetch, artistId, limit, Start(groups), fuel).Ok?
    ensures fetch(Request(artistId, limit, Start(groups))).Some?
    ensures var r := Run(rev, fetch, artistId, limit, Start(groups), fuel).value;
            && |r| == fetch(Request(artistId, limit, Start(groups))).value.total
            && forall k :: 0 <= k < |r| ==> r[k].artistId == artistId
  {
    var c := Start(groups);
    var page := fetch(Request(artistId, limit, c)).value;
    var recs := Records(page.items, artistId);
    FlattenSnoc(c.pages, recs);
    assert Flatten(c.pages) == [];
    var step := Step(rev, artistId, limit, c, page);
    if step.Continue? {
      ContinueBranches(rev, artistId, limit, c, page);
      RunOkAfterFirst(rev, fetch, artistId, limit, step.next, fuel - 1);
    }
  }

  /** A first page with total 0 and no items ends the traversal with no albums. */
  lemma ZeroTotal(rev: Revision, fetch: PageRequest -> Option<Page>, artistId: string, limit: nat,
                  groups: seq<Group>, fuel: nat)
    requires fuel > 0
    requires fetch(Request(artistId, limit, Start(groups))) == Some(Page([], 0))
    ensures Run(rev, fetch, artistId, limit, Start(groups), fuel) == Ok([])
  {
    var c := Start(groups);
    assert Records([], artistId) == [];
    assert Flatten([Records([], artistId)]) == [];
    assert c.pages + [Records([], artistId)] == [Records([], artistId)];
    assert Step(rev, artistId, limit, c, Page([], 0)) == Finished([]);
  }
}
