/** The album pagination against a well-behaved endpoint: an artist's catalog of albums
    and singles, listed albums first, where a request for some groups is answered with
    the slice [offset, offset + limit) of the listing of those groups and the length of
    that listing as total. Used to show where the source's boundary offset goes wrong
    and that the corrected offset fetches the whole catalog. */
module PaginationCatalog {
  import opened Outcomes
  import opened Lists
  import opened Pagination

  datatype Catalog = Catalog(albums: seq<AlbumItem>, singles: seq<AlbumItem>)

  ghost predicate WellFormed(cat: Catalog)
  {
    && (forall k :: 0 <= k < |cat.albums| ==> cat.albums[k].albumGroup == Album)
    && (forall k :: 0 <= k < |cat.singles| ==> cat.singles[k].albumGroup == Single)
  }

  function All(cat: Catalog): seq<AlbumItem>
  {
    cat.albums + cat.singles
  }

  /** The items of the requested groups, albums before singles. */
  function Listing(cat: Catalog, groups: seq<Group>): seq<AlbumItem>
  {
    (if Album in groups then cat.albums else []) + (if Single in groups then cat.singles else [])
  }

  /** `s[offset : offset + limit]` with Python's clipping. */
  function Slice<T>(s: seq<T>, offset: nat, limit: nat): seq<T>
  {
    s[Min(offset, |s|)..Min(offset + limit, |s|)]
  }

  function CatalogPage(cat: Catalog, req: PageRequest): Option<Page>
  {
    var listing := Listing(cat, req.groups);
    Some(Page(Slice(listing, req.offset, req.limit), |listing|))
  }

  function Endpoint(cat: Catalog): PageRequest -> Option<Page>
  {
    req => CatalogPage(cat, req)
  }

  /** While both groups are active: the tuples so far are those of the first `offset`
      items of the full listing, and the offset is 0 or at least one page in. */
  ghost predicate BothGroups(cat: Catalog, artistId: string, limit: nat, c: Cursor)
  {
    && c.groups == AlbumGroups
    && c.offset <= |All(cat)|
    && (c.offset == 0 || c.offset >= limit)
    && c.processed == c.offset
    && Flatten(c.pages) == Records(All(cat)[..c.offset], artistId)
    && (c.totals == [] ==> c.offset == 0)
    && (c.totals != [] ==> c.totals[0] == |All(cat)| && c.offset < |All(cat)|)
  }

  /** After narrowing to singles: all albums and the first `offset` singles are in. */
  ghost predicate SinglesOnly(cat: Catalog, artistId: string, c: Cursor)
  {
    && c.groups == [Single]
    && c.totals != [] && c.totals[0] == |All(cat)|
    && c.offset < |cat.singles|
    && c.processed == |cat.albums| + c.offset
    && Flatten(c.pages) == Records(cat.albums + cat.singles[..c.offset], artistId)
  }

  /** The source's offset rule is right when no page crosses from albums to singles
      after the first one. */
  predicate OffsetRuleHolds(rev: Revision, cat: Catalog, limit: nat)
  {
    rev == Corrected || |cat.albums| <= limit
  }

  lemma LabelAt(cat: Catalog, i: nat)
    requires WellFormed(cat) && i < |All(cat)|
    ensures All(cat)[i].albumGroup == if i < |cat.albums| then Album else Single
  {
  }

  /** The page requested while both groups are active is the next slice of the full
      listing, and its tuples extend the accumulated ones. */
  lemma BothGroupsPage(cat: Catalog, artistId: string, limit: nat, c: Cursor)
    requires BothGroups(cat, artistId, limit, c)
    ensures var items := CatalogPage(cat, Request(artistId, limit, c)).value.items;
            && items == All(cat)[c.offset..Min(c.offset + limit, |All(cat)|)]
            && Flatten(c.pages + [Records(items, artistId)])
               == Records(All(cat)[..c.offset + |items|], artistId)
  {
    var all := All(cat);
    var o := c.offset;
    assert Listing(cat, c.groups) == all;
    var items := CatalogPage(cat, Request(artistId, limit, c)).value.items;
    FlattenSnoc(c.pages, Records(items, artistId));
    RecordsAppend(all[..o], items, artistId);
    PrefixExtend([], all, o, |items|);
  }

  /** A full page that crosses from albums to singles: the trailing run is the number
      of singles on it, and the label before the run is `Album`. */
  lemma CrossingPage(cat: Catalog, limit: nat, o: nat)
    requires WellFormed(cat) && limit > 0 && o + limit < |All(cat)|
    requires o < |cat.albums| <= o + limit - 1
    ensures var labels := Labels(All(cat)[o..o + limit]);
            && labels[0] != labels[limit - 1]
            && TrailingRun(labels) == o + limit - |cat.albums|
            && labels[|cat.albums| - o - 1] == Album
  {
    var labels := Labels(All(cat)[o..o + limit]);
    forall k | 0 <= k < limit
      ensures labels[k] == if o + k < |cat.albums| then Album else Single
    {
      LabelAt(cat, o + k);
    }
    TrailingRunUnique(labels, o + limit - |cat.albums|);
  }

  /** A full page inside one group has equal first and last labels. */
  lemma WithinGroupPage(cat: Catalog, limit: nat, o: nat)
    requires WellFormed(cat) && limit > 0 && o + limit <= |All(cat)|
    requires o + limit - 1 < |cat.albums| || |cat.albums| <= o
    ensures var labels := Labels(All(cat)[o..o + limit]);
            labels[0] == labels[limit - 1]
  {
    LabelAt(cat, o);
    LabelAt(cat, o + limit - 1);
  }

  /** The last page while both groups are active is the base case with the whole catalog. */
  lemma BothGroupsFinal(rev: Revision, cat: Catalog, artistId: string, limit: nat, c: Cursor)
    requires BothGroups(cat, artistId, limit, c) && c.offset + limit >= |All(cat)|
    ensures var page := CatalogPage(cat, Request(artistId, limit, c)).value;
            Step(rev, artistId, limit, c, page) == Finished(Records(All(cat), artistId))
  {
    var page := CatalogPage(cat, Request(artistId, limit, c)).value;
    BothGroupsPage(cat, artistId, limit, c);
    assert All(cat)[..c.offset + |page.items|] == All(cat);
    FinishedIff(rev, artistId, limit, c, page);
  }

  /** A full page inside one group, both groups active: advance by a page. */
  lemma BothGroupsWithin(rev: Revision, cat: Catalog, artistId: string, limit: nat, c: Cursor)
    requires WellFormed(cat) && limit > 0
    requires BothGroups(cat, artistId, limit, c) && c.offset + limit < |All(cat)|
    requires c.offset + limit - 1 < |cat.albums| || |cat.albums| <= c.offset
    ensures var page := CatalogPage(cat, Request(artistId, limit, c)).value;
            var r := Step(rev, artistId, limit, c, page);
            r.Continue? && r.next.processed == c.processed + limit && BothGroups(cat, artistId, limit, r.next)
  {
    var page := CatalogPage(cat, Request(artistId, limit, c)).value;
    BothGroupsPage(cat, artistId, limit, c);
    WithinGroupPage(cat, limit, c.offset);
    FinishedIff(rev, artistId, limit, c, page);
    ContinueBranches(rev, artistId, limit, c, page);
  }

  /** On the crossing page the recursion narrows to singles at offset `t` whenever
      the boundary offset rule gives the number of singles seen. */
  lemma CrossingArgs(rev: Revision, limit: nat, o: nat, labels: seq<Group>, t: nat)
    requires |labels| == limit > 0 && labels[0] != labels[limit - 1]
    requires TrailingRun(labels) == t && t < limit && labels[limit - t - 1] == Album
    requires rev == Corrected || o == 0
    ensures NextArgs(rev, limit, o, AlbumGroups, labels) == Advance(t, [Single])
  {
  }

  /** The page that crosses from albums to singles is the next full slice of the
      listing, and its arguments narrow the groups to singles at the number of singles
      on it. */
  lemma CrossingPageArgs(rev: Revision, cat: Catalog, artistId: string, limit: nat, c: Cursor)
    requires WellFormed(cat) && limit > 0
    requires BothGroups(cat, artistId, limit, c) && OffsetRuleHolds(rev, cat, limit)
    requires c.offset + limit < |All(cat)| && c.offset < |cat.albums| <= c.offset + limit - 1
    ensures var page := CatalogPage(cat, Request(artistId, limit, c)).value;
            && page.items == All(cat)[c.offset..c.offset + limit]
            && NextArgs(rev, limit, c.offset, c.groups, Labels(page.items))
               == Advance(c.offset + limit - |cat.albums|, [Single])
  {
    var o := c.offset;
    var page := CatalogPage(cat, Request(artistId, limit, c)).value;
    BothGroupsPage(cat, artistId, limit, c);
    assert page.items == All(cat)[o..o + limit];
    assert rev == Corrected || o == 0;
    CrossingPage(cat, limit, o);
    CrossingArgs(rev, limit, o, Labels(All(cat)[o..o + limit]), o + limit - |cat.albums|);
  }

  /** The page that crosses from albums to singles: narrow to singles at the offset
      the revision computes, which is the number of singles seen whenever the offset
      rule holds. */
  lemma BothGroupsCrossing(rev: Revision, cat: Catalog, artistId: string, limit: nat, c: Cursor)
    requires WellFormed(cat) && limit > 0
    requires BothGroups(cat, artistId, limit, c) && OffsetRuleHolds(rev, cat, limit)
    requires c.offset + limit < |All(cat)| && c.offset < |cat.albums| <= c.offset + limit - 1
    ensures var page := CatalogPage(cat, Request(artistId, limit, c)).value;
            var r := Step(rev, artistId, limit, c, page);
            r.Continue? && r.next.processed == c.processed + limit && SinglesOnly(cat, artistId, r.next)
  {
    var o := c.offset;
    var page := CatalogPage(cat, Request(artistId, limit, c)).value;
    var t := o + limit - |cat.albums|;
    CrossingPageArgs(rev, cat, artistId, limit, c);
    BothGroupsPage(cat, artistId, limit, c);
    assert Target(c, page) == |All(cat)| by {
      assert Listing(cat, c.groups) == All(cat);
    }
    var next := Cursor(t, [Single], c.pages + [Records(page.items, artistId)],
                       c.totals + [page.total], c.processed + limit);
    StepAdvance(rev, artistId, limit, c, page, t, [Single]);
    NarrowedToSingles(cat, artistId, limit, o, next);
  }

  /** The cursor after the crossing page satisfies the singles invariant: the first
      `o + limit` items of the listing are all albums and the first `t` singles. */
  lemma NarrowedToSingles(cat: Catalog, artistId: string, limit: nat, o: nat, next: Cursor)
    requires o + limit < |All(cat)| && |cat.albums| <= o + limit
    requires next.offset == o + limit - |cat.albums| && next.groups == [Single]
    requires next.totals != [] && next.totals[0] == |All(cat)|
    requires next.processed == o + limit
    requires Flatten(next.pages) == Records(All(cat)[..o + limit], artistId)
    ensures SinglesOnly(cat, artistId, next)
  {
    assert All(cat)[..o + limit] == cat.albums + cat.singles[..next.offset];
  }

  /** One page while both groups are active: either the base case with the whole
      catalog, or a continuation that makes progress and keeps one of the invariants. */
  lemma BothGroupsStep(rev: Revision, cat: Catalog, artistId: string, limit: nat, c: Cursor)
    requires WellFormed(cat) && limit > 0
    requires BothGroups(cat, artistId, limit, c) && OffsetRuleHolds(rev, cat, limit)
    ensures var page := CatalogPage(cat, Request(artistId, limit, c)).value;
            var r := Step(rev, artistId, limit, c, page);
            || r == Finished(Records(All(cat), artistId))
            || (&& r.Continue?
                && r.next.processed >= c.processed + limit
                && (BothGroups(cat, artistId, limit, r.next) || SinglesOnly(cat, artistId, r.next)))
  {
    var o := c.offset;
    if o + limit >= |All(cat)| {
      BothGroupsFinal(rev, cat, artistId, limit, c);
    } else if o < |cat.albums| <= o + limit - 1 {
      BothGroupsCrossing(rev, cat, artistId, limit, c);
    } else {
      BothGroupsWithin(rev, cat, artistId, limit, c);
    }
  }

  /** The page requested after narrowing is the next slice of the singles, and its
      tuples extend the accumulated ones. */
  lemma SinglesPage(cat: Catalog, artistId: string, limit: nat, c: Cursor)
    requires SinglesOnly(cat, artistId, c)
    ensures var items := CatalogPage(cat, Request(artistId, limit, c)).value.items;
            && items == cat.singles[c.offset..Min(c.offset + limit, |cat.singles|)]
            && Flatten(c.pages + [Records(items, artistId)])
               == Records(cat.albums + cat.singles[..c.offset + |items|], artistId)
  {
    var s := cat.singles;
    var o := c.offset;
    assert Listing(cat, c.groups) == s;
    var items := CatalogPage(cat, Request(artistId, limit, c)).value.items;
    FlattenSnoc(c.pages, Records(items, artistId));
    RecordsAppend(cat.albums + s[..o], items, artistId);
    PrefixExtend(cat.albums, s, o, |items|);
  }

  /** One page after narrowing to singles. */
  lemma SinglesOnlyStep(rev: Revision, cat: Catalog, artistId: string, limit: nat, c: Cursor)
    requires WellFormed(cat) && limit > 0
    requires SinglesOnly(cat, artistId, c)
    ensures var page := CatalogPage(cat, Request(artistId, limit, c)).value;
            var r := Step(rev, artistId, limit, c, page);
            || r == Finished(Records(All(cat), artistId))
            || (r.Continue? && r.next.processed >= c.processed + limit && SinglesOnly(cat, artistId, r.next))
  {
    var page := CatalogPage(cat, Request(artistId, limit, c)).value;
    SinglesPage(cat, artistId, limit, c);
    FinishedIff(rev, artistId, limit, c, page);
    if c.offset + limit >= |cat.singles| {
      assert cat.albums + cat.singles[..c.offset + |page.items|] == All(cat);
    } else {
      assert Labels(page.items)[0] == Single == Labels(page.items)[limit - 1];
      ContinueBranches(rev, artistId, limit, c, page);
    }
  }

  /** From either invariant, with enough recursion budget, the traversal returns the
      tuples of the whole catalog, albums then singles, in listing order. */
  lemma {:induction false} Completes(rev: Revision, cat: Catalog, artistId: string, limit: nat,
                                     c: Cursor, fuel: nat)
    requires WellFormed(cat) && limit > 0
    requires (BothGroups(cat, artistId, limit, c) && OffsetRuleHolds(rev, cat, limit))
             || SinglesOnly(cat, artistId, c)
    requires fuel > |All(cat)| - c.processed
    ensures Run(rev, Endpoint(cat), artistId, limit, c, fuel) == Ok(Records(All(cat), artistId))
    decreases fuel
  {
    var page := CatalogPage(cat, Request(artistId, limit, c)).value;
    assert Endpoint(cat)(Request(artistId, limit, c)) == Some(page);
    var r := Step(rev, artistId, limit, c, page);
    if BothGroups(cat, artistId, limit, c) && OffsetRuleHolds(rev, cat, limit) {
      BothGroupsStep(rev, cat, artistId, limit, c);
    } else {
      SinglesOnlyStep(rev, cat, artistId, limit, c);
    }
    if r.Continue? {
      Completes(rev, cat, artistId, limit, r.next, fuel - 1);
    }
  }

  /** FINDING, corrected half: with the boundary offset set to the trailing run (the
      number of singles already collected) when the groups narrow to singles, the
      traversal from `get_all_albums`'s starting state returns the whole catalog for
      any page limit, given one recursion level per item plus one. */
  lemma CorrectedFetchesWholeCatalog(cat: Catalog, artistId: string, limit: nat, fuel: nat)
    requires WellFormed(cat) && limit > 0
    requires fuel > |All(cat)|
    ensures Run(Corrected, Endpoint(cat), artistId, limit, Start(AlbumGroups), fuel)
            == Ok(Records(All(cat), artistId))
  {
    assert Flatten(Start(AlbumGroups).pages) == [] == Records(All(cat)[..0], artistId);
    Completes(Corrected, cat, artistId, limit, Start(AlbumGroups), fuel);
  }

  /** As written, the traversal is complete when all albums fit on the first page, so
      that a page crossing from albums to singles, if any, is fetched at offset 0. */
  lemma AsWrittenCompleteWhenBoundaryOnFirstPage(cat: Catalog, artistId: string, limit: nat, fuel: nat)
    requires WellFormed(cat) && 0 < limit && |cat.albums| <= limit
    requires fuel > |All(cat)|
    ensures Run(AsWritten, Endpoint(cat), artistId, limit, Start(AlbumGroups), fuel)
            == Ok(Records(All(cat), artistId))
  {
    assert Flatten(Start(AlbumGroups).pages) == [] == Records(All(cat)[..0], artistId);
    Completes(AsWritten, cat, artistId, limit, Start(AlbumGroups), fuel);
  }

  function Item(id: string, group: Group): AlbumItem
  {
    AlbumItem("2020-01-01", 10, "album", group, id)
  }

  /** Three albums and two singles. */
  function SmallCatalog(): Catalog
  {
    Catalog([Item("a1", Album), Item("a2", Album), Item("a3", Album)],
            [Item("s1", Single), Item("s2", Single)])
  }

  function SmallPage(artistId: string, c: Cursor): Page
  {
    CatalogPage(SmallCatalog(), Request(artistId, 2, c)).value
  }

  /** The cursor after the first page [a1, a2] of the small catalog. */
  function SmallCursor1(artistId: string): Cursor
  {
    var all := All(SmallCatalog());
    Cursor(2, AlbumGroups, [Records(all[0..2], artistId)], [5], 2)
  }

  /** The cursor after the crossing page [a3, s1], as written: offset 2 + 1. */
  function SmallCursor2(artistId: string): Cursor
  {
    var all := All(SmallCatalog());
    Cursor(3, [Single], [Records(all[0..2], artistId), Records(all[2..4], artistId)], [5, 5], 4)
  }

  lemma SmallFirstStep(artistId: string)
    ensures Step(AsWritten, artistId, 2, Start(AlbumGroups), SmallPage(artistId, Start(AlbumGroups)))
            == Continue(SmallCursor1(artistId))
  {
    var cat := SmallCatalog();
    assert Listing(cat, AlbumGroups) == All(cat);
    assert SmallPage(artistId, Start(AlbumGroups)) == Page(All(cat)[0..2], 5);
  }

  lemma SmallCrossingStep(artistId: string)
    ensures Step(AsWritten, artistId, 2, SmallCursor1(artistId), SmallPage(artistId, SmallCursor1(artistId)))
            == Continue(SmallCursor2(artistId))
  {
    var cat := SmallCatalog();
    assert Listing(cat, AlbumGroups) == All(cat);
    var p1 := SmallPage(artistId, SmallCursor1(artistId));
    assert p1 == Page(All(cat)[2..4], 5);
    assert Labels(p1.items) == [Album, Single];
    TrailingRunUnique([Album, Single], 1);
  }

  lemma SmallEmptyStep(artistId: string)
    ensures Step(AsWritten, artistId, 2, SmallCursor2(artistId), SmallPage(artistId, SmallCursor2(artistId)))
            == Stuck(IndexError)
  {
    var cat := SmallCatalog();
    assert Listing(cat, [Single]) == cat.singles;
    assert SmallPage(artistId, SmallCursor2(artistId)) == Page([], 2);
  }

  /** FINDING, as-written half: with limit 2 the second page [a3, s1] crosses the
      boundary at offset 2; the trailing run is 1, so the source moves to offset
      2 + 1 = 3 of the singles listing, which has only 2 items. The empty page that
      comes back is below the total and `album_groups[0]` raises IndexError, so
      `get_all_albums` returns None although the endpoint behaved. */
  lemma AsWrittenSkipsSingles(artistId: string, fuel: nat)
    requires fuel > |All(SmallCatalog())|
    ensures Run(AsWritten, Endpoint(SmallCatalog()), artistId, 2, Start(AlbumGroups), fuel) == Err(IndexError)
    ensures Run(Corrected, Endpoint(SmallCatalog()), artistId, 2, Start(AlbumGroups), fuel)
            == Ok(Records(All(SmallCatalog()), artistId))
  {
    var fetch := Endpoint(SmallCatalog());
    var c0, c1, c2 := Start(AlbumGroups), SmallCursor1(artistId), SmallCursor2(artistId);
    SmallFirstStep(artistId);
    SmallCrossingStep(artistId);
    SmallEmptyStep(artistId);
    assert fetch(Request(artistId, 2, c2)) == Some(SmallPage(artistId, c2));
    assert Run(AsWritten, fetch, artistId, 2, c2, fuel - 2) == Err(IndexError);
    assert fetch(Request(artistId, 2, c1)) == Some(SmallPage(artistId, c1));
    assert Run(AsWritten, fetch, artistId, 2, c1, fuel - 1) == Err(IndexError);
    assert fetch(Request(artistId, 2, c0)) == Some(SmallPage(artistId, c0));
    CorrectedFetchesWholeCatalog(SmallCatalog(), artistId, 2, fuel);
  }
}
