/** Track collection: `get_all_tracks` asks for the tracks of up to 20 albums at a time,
    `get_album_tracks` flattens one response album by album into track tuples,
    `get_track_pop_scores` asks for popularity scores 50 tracks at a time, and the
    filter of `get_artist_discography` keeps the tracks the artist performs on
    (analyze_artist.py). The albums and tracks endpoints are oracles from the
    comma-joined id string to a response, or None when the client logged an error. */
module Tracks {
  import opened Outcomes
  import opened Lists
  import opened Text
  import opened Chunking
  import opened Pagination

  /** Albums per request of `get_all_tracks`. */
  const AlbumBatch: nat := 20
  /** Tracks per request of `get_track_pop_scores`. */
  const TrackBatch: nat := 50

  /** An entry of a track's `artists` list. */
  datatype Performer = Performer(name: string, id: string)

  /** A track item of an album's `tracks.items` (the fields the source reads). */
  datatype TrackItem = TrackItem(name: string, artists: seq<Performer>, durationMs: int,
                                 trackNumber: int, id: string)

  /** An entry of the response's `albums` list. */
  datatype AlbumTracks = AlbumTracks(name: string, recordLabel: string, popularity: int,
                                     tracks: seq<TrackItem>)

  /** The per-track tuple (track_title, album_title, performer_names, label, album_pop,
      track_secs, track_position, track_id, album_id, all_performer_ids, artist_spot_id);
      the duration stays in milliseconds. */
  datatype TrackRecord = TrackRecord(title: string, albumTitle: string, performerNames: string,
                                     recordLabel: string, albumPopularity: int, durationMs: int,
                                     trackNumber: int, trackId: string, albumId: string,
                                     performerIds: string, primaryArtistId: string)

  // ---------------------------------------------------------------------------------
  // One request of `get_all_tracks`: the album ids and the per-track artist ids

  function AlbumIds(window: seq<AlbumRecord>): (ids: seq<string>)
    ensures |ids| == |window| && forall k :: 0 <= k < |window| ==> ids[k] == window[k].albumId
  {
    seq(|window|, k requires 0 <= k < |window| => window[k].albumId)
  }

  /** The sum of the albums' `total_tracks`. */
  function TrackTotal(window: seq<AlbumRecord>): nat
  {
    if window == [] then 0 else window[0].totalTracks + TrackTotal(window[1..])
  }

  /** `tracks_artist_ids`: each album's artist id repeated `total_tracks` times, album
      after album. */
  function ExpandArtistIds(window: seq<AlbumRecord>): (ids: seq<string>)
    ensures |ids| == TrackTotal(window)
  {
    if window == [] then [] else Repeat(window[0].artistId, window[0].totalTracks) + ExpandArtistIds(window[1..])
  }

  /** Albums of a single artist expand to that artist's id once per announced track. */
  lemma {:induction false} ExpandSingleArtist(window: seq<AlbumRecord>, artistId: string)
    requires forall k :: 0 <= k < |window| ==> window[k].artistId == artistId
    ensures ExpandArtistIds(window) == Repeat(artistId, TrackTotal(window))
  {
    if window != [] {
      ExpandSingleArtist(window[1..], artistId);
    }
  }

  // ---------------------------------------------------------------------------------
  // `get_album_tracks`: the response flattened album by album, then track by track

  /** A track of the response together with the position of its album. */
  datatype Slot = Slot(album: nat, track: TrackItem)

  /** The number of track items of the given albums. */
  function TrackCount(albums: seq<AlbumTracks>): nat
  {
    if albums == [] then 0 else |albums[0].tracks| + TrackCount(albums[1..])
  }

  /** The tracks of albums `from..` in response order, each with its album's position. */
  function SlotsFrom(albums: seq<AlbumTracks>, from: nat): (r: seq<Slot>)
    requires from <= |albums|
    ensures |r| == TrackCount(albums[from..])
    decreases |albums| - from
  {
    if from == |albums| then []
    else
      assert albums[from..][1..] == albums[from + 1..];
      var tracks := albums[from].tracks;
      seq(|tracks|, j requires 0 <= j < |tracks| => Slot(from, tracks[j])) + SlotsFrom(albums, from + 1)
  }

  function Slots(albums: seq<AlbumTracks>): seq<Slot>
  {
    SlotsFrom(albums, 0)
  }

  lemma TrackCountAppend(a: seq<AlbumTracks>, b: seq<AlbumTracks>)
    ensures TrackCount(a + b) == TrackCount(a) + TrackCount(b)
  {
    if a != [] {
      assert (a + b)[0] == a[0] && (a + b)[1..] == a[1..] + b;
      TrackCountAppend(a[1..], b);
    } else {
      assert a + b == b;
    }
  }

  /** Every slot belongs to an album at or after `from` that has tracks. */
  lemma {:induction false} SlotAlbum(albums: seq<AlbumTracks>, from: nat, k: nat)
    requires from <= |albums| && k < |SlotsFrom(albums, from)|
    ensures var s := SlotsFrom(albums, from)[k];
            from <= s.album < |albums| && |albums[s.album].tracks| > 0
    decreases |albums| - from
  {
    var n := |albums[from].tracks|;
    if k >= n {
      SlotsFromCons(albums, from, k - n);
      SlotAlbum(albums, from + 1, k - n);
    } else {
      SlotsFromCons(albums, from, k);
    }
  }

  /** The slots from album `from` on: its own tracks, then those of the later albums. */
  lemma SlotsFromCons(albums: seq<AlbumTracks>, from: nat, x: nat)
    requires from < |albums|
    ensures x < |albums[from].tracks| ==> SlotsFrom(albums, from)[x] == Slot(from, albums[from].tracks[x])
    ensures x < |SlotsFrom(albums, from + 1)| ==>
              SlotsFrom(albums, from)[|albums[from].tracks| + x] == SlotsFrom(albums, from + 1)[x]
  {
  }

  /** Track `j` of album `i` sits after all tracks of the albums before it. */
  lemma {:induction false} SlotAtFrom(albums: seq<AlbumTracks>, from: nat, i: nat, j: nat)
    requires from <= i < |albums| && j < |albums[i].tracks|
    ensures TrackCount(albums[from..i]) + j < |SlotsFrom(albums, from)|
    ensures SlotsFrom(albums, from)[TrackCount(albums[from..i]) + j] == Slot(i, albums[i].tracks[j])
    decreases i - from
  {
    if from < i {
      var rest := TrackCount(albums[from + 1..i]);
      assert albums[from..i][0] == albums[from] && albums[from..i][1..] == albums[from + 1..i];
      assert TrackCount(albums[from..i]) == |albums[from].tracks| + rest;
      SlotAtFrom(albums, from + 1, i, j);
      SlotsFromCons(albums, from, rest + j);
    } else {
      assert albums[from..i] == [];
      SlotsFromCons(albums, from, j);
    }
  }

  /** The slots are the albums' tracks in album order, then track order: track `j` of
      album `i` is at position (tracks of albums 0..i-1) + j. */
  lemma SlotAt(albums: seq<AlbumTracks>, i: nat, j: nat)
    requires i < |albums| && j < |albums[i].tracks|
    ensures TrackCount(albums[..i]) + j < |Slots(albums)|
    ensures Slots(albums)[TrackCount(albums[..i]) + j] == Slot(i, albums[i].tracks[j])
  {
    assert albums[0..i] == albums[..i];
    SlotAtFrom(albums, 0, i, j);
  }

  function PerformerNames(ps: seq<Performer>): (names: seq<string>)
    ensures |names| == |ps| && forall k :: 0 <= k < |ps| ==> names[k] == ps[k].name
  {
    seq(|ps|, k requires 0 <= k < |ps| => ps[k].name)
  }

  function PerformerIds(ps: seq<Performer>): (ids: seq<string>)
    ensures |ids| == |ps| && forall k :: 0 <= k < |ps| ==> ids[k] == ps[k].id
  {
    seq(|ps|, k requires 0 <= k < |ps| => ps[k].id)
  }

  /** The tuple of one track: performers' names and ids comma-joined. */
  function Row(album: AlbumTracks, track: TrackItem, albumId: string, primary: string): TrackRecord
  {
    TrackRecord(track.name, album.name, Join(PerformerNames(track.artists), ","), album.recordLabel,
                album.popularity, track.durationMs, track.trackNumber, track.id, albumId,
                Join(PerformerIds(track.artists), ","), primary)
  }

  /** Some album past the end of the requested ids has tracks, so `album_ids_lst[i]`
      is read out of range. */
  predicate IdsRunOut(idsLst: seq<string>, albums: seq<AlbumTracks>)
  {
    exists i :: |idsLst| <= i < |albums| && |albums[i].tracks| > 0
  }

  /** The zip of the parallel lists of `get_album_tracks`: as many tuples as the shorter
      of the track items and `artist_ids`. */
  function AlbumTrackRows(idsLst: seq<string>, artistIds: seq<string>, albums: seq<AlbumTracks>)
    : Result<seq<TrackRecord>>
  {
    if IdsRunOut(idsLst, albums) then Err(IndexError)
    else
      var slots := Slots(albums);
      Ok(seq(Min(|slots|, |artistIds|), k requires 0 <= k < Min(|slots|, |artistIds|) =>
               var s := slots[k];
               SlotAlbum(albums, 0, k);
               Row(albums[s.album], s.track, idsLst[s.album], artistIds[k])))
  }

  /** `get_album_tracks(album_ids, artist_ids)`. */
  function GetAlbumTracks(fetch: string -> Option<seq<AlbumTracks>>, albumIds: string,
                          artistIds: seq<string>): Result<seq<TrackRecord>>
  {
    match fetch(albumIds)
    case None => Err(MissingResponse)
    case Some(albums) => AlbumTrackRows(Split(albumIds, ','), artistIds, albums)
  }

  /** The tuples of one response: an error exactly when an album past the requested
      ids has tracks, and otherwise as many tuples as the shorter of the track items
      and the artist ids. */
  lemma AlbumTrackRowsShape(idsLst: seq<string>, artistIds: seq<string>, albums: seq<AlbumTracks>)
    ensures AlbumTrackRows(idsLst, artistIds, albums).Err?
            <==> exists i :: |idsLst| <= i < |albums| && |albums[i].tracks| > 0
    ensures var r := AlbumTrackRows(idsLst, artistIds, albums);
            r.Ok? ==> |r.value| == Min(TrackCount(albums), |artistIds|)
  {
    assert albums[0..] == albums;
  }

  /** The tuple at the position of track `j` of album `i` (after the tracks of the
      albums before it) describes that track and its album, carries the requested id
      at position `i`, and the artist id at its own position. */
  lemma AlbumTrackRowAt(idsLst: seq<string>, artistIds: seq<string>, albums: seq<AlbumTracks>,
                        i: nat, j: nat)
    requires AlbumTrackRows(idsLst, artistIds, albums).Ok?
    requires i < |albums| && j < |albums[i].tracks| && TrackCount(albums[..i]) + j < |artistIds|
    ensures i < |idsLst|
    ensures var rows := AlbumTrackRows(idsLst, artistIds, albums).value;
            var k := TrackCount(albums[..i]) + j;
            k < |rows| && rows[k] == Row(albums[i], albums[i].tracks[j], idsLst[i], artistIds[k])
  {
    assert albums[0..] == albums;
    SlotAt(albums, i, j);
  }

  /** A response with no more albums than requested ids never runs out of ids. */
  lemma NoIdsRunOut(idsLst: seq<string>, artistIds: seq<string>, albums: seq<AlbumTracks>)
    requires |albums| <= |idsLst|
    ensures AlbumTrackRows(idsLst, artistIds, albums).Ok?
  {
  }

  /** The request `get_all_tracks` makes for one window of albums. */
  function BatchTracks(fetch: string -> Option<seq<AlbumTracks>>, window: seq<AlbumRecord>)
    : Result<seq<TrackRecord>>
  {
    GetAlbumTracks(fetch, Join(AlbumIds(window), ","), ExpandArtistIds(window))
  }

  function BatchTracksOf(fetch: string -> Option<seq<AlbumTracks>>)
    : seq<AlbumRecord> -> Result<seq<TrackRecord>>
  {
    window => BatchTracks(fetch, window)
  }

  /** For comma-free album ids and a response of at most one album per requested id,
      a window's tuples are tagged with the requested ids in order and with the
      window's artist ids, one per announced track. */
  lemma BatchTracksTagged(fetch: string -> Option<seq<AlbumTracks>>, window: seq<AlbumRecord>,
                          albums: seq<AlbumTracks>)
    requires |window| >= 1
    requires forall k :: 0 <= k < |window| ==> ',' !in window[k].albumId
    requires fetch(Join(AlbumIds(window), ",")) == Some(albums) && |albums| <= |window|
    ensures BatchTracks(fetch, window)
            == AlbumTrackRows(AlbumIds(window), ExpandArtistIds(window), albums)
    ensures BatchTracks(fetch, window).Ok?
    ensures |BatchTracks(fetch, window).value| == Min(TrackCount(albums), TrackTotal(window))
  {
    SplitJoin(AlbumIds(window), ',');
    NoIdsRunOut(AlbumIds(window), ExpandArtistIds(window), albums);
    AlbumTrackRowsShape(AlbumIds(window), ExpandArtistIds(window), albums);
  }

  /** `get_all_tracks(album_list)`: windows of 20 albums, one request each, tuples
      appended in window order; the first failed request ends the loop. */
  method GetAllTracks(fetch: string -> Option<seq<AlbumTracks>>, albumList: seq<AlbumRecord>)
    returns (r: Result<seq<TrackRecord>>)
    ensures r == Gather(BatchTracksOf(fetch), Windows(albumList, AlbumBatch))
  {
    ghost var ws := Windows(albumList, AlbumBatch);
    ghost var f := BatchTracksOf(fetch);
    var albumCount := |albumList|;
    var i := 0;
    var j := i + AlbumBatch;
    var releases: seq<TrackRecord> := [];
    ghost var k := 0;
    GatherBounds(f, albumList, AlbumBatch, releases);
    while i <= albumCount - 1
      invariant 0 <= k <= |ws| && i == k * AlbumBatch && j == i + AlbumBatch
      invariant i < albumCount <==> k < |ws|
      invariant Gather(f, ws) == Prepend(releases, Gather(f, ws[k..]))
      decreases albumCount - i
    {
      GatherStep(f, albumList, AlbumBatch, k, releases);
      var subList := albumList[i..Min(j, albumCount)];
      var albumIdsStr := Join(AlbumIds(subList), ",");
      var tracksArtistIds := ExpandArtistIds(subList);
      var apiResponse := GetAlbumTracks(fetch, albumIdsStr, tracksArtistIds);
      assert apiResponse == f(ws[k]);
      if apiResponse.Err? {
        return Err(apiResponse.error);
      }
      releases := releases + apiResponse.value;
      i := j;
      j := j + AlbumBatch;
      k := k + 1;
    }
    GatherBounds(f, albumList, AlbumBatch, releases);
    r := Ok(releases);
  }

  // ---------------------------------------------------------------------------------
  // `get_track_pop_scores`: popularity scores, 50 tracks per request

  /** The request `get_track_pop_scores` makes for one window of track ids: the
      `popularity` of each track of the response, in response order. */
  function BatchScores(fetch: string -> Option<seq<int>>, window: seq<string>): Result<seq<int>>
  {
    match fetch(Join(window, ","))
    case None => Err(MissingResponse)
    case Some(scores) => Ok(scores)
  }

  function BatchScoresOf(fetch: string -> Option<seq<int>>): seq<string> -> Result<seq<int>>
  {
    window => BatchScores(fetch, window)
  }

  /** `get_track_pop_scores(id_list)`. */
  method GetTrackPopScores(fetch: string -> Option<seq<int>>, idList: seq<string>)
    returns (r: Result<seq<int>>)
    ensures r == Gather(BatchScoresOf(fetch), Windows(idList, TrackBatch))
  {
    ghost var ws := Windows(idList, TrackBatch);
    ghost var f := BatchScoresOf(fetch);
    var totalIds := |idList|;
    var allResponses: seq<int> := [];
    var i := 0;
    var j := TrackBatch;
    ghost var k := 0;
    GatherBounds(f, idList, TrackBatch, allResponses);
    while i <= totalIds - 1
      invariant 0 <= k <= |ws| && i == k * TrackBatch && j == i + TrackBatch
      invariant i < totalIds <==> k < |ws|
      invariant Gather(f, ws) == Prepend(allResponses, Gather(f, ws[k..]))
      decreases totalIds - i
    {
      GatherStep(f, idList, TrackBatch, k, allResponses);
      var subList := idList[i..Min(j, totalIds)];
      var jsonResult := fetch(Join(subList, ","));
      assert jsonResult.None? <==> f(ws[k]).Err?;
      if jsonResult.None? {
        return Err(MissingResponse);
      }
      var popScores := jsonResult.value;
      assert f(ws[k]) == Ok(popScores);
      allResponses := allResponses + popScores;
      i := j;
      j := j + TrackBatch;
      k := k + 1;
    }
    GatherBounds(f, idList, TrackBatch, allResponses);
    r := Ok(allResponses);
  }

  function Scores(pop: string -> int, ids: seq<string>): (s: seq<int>)
    ensures |s| == |ids| && forall k :: 0 <= k < |ids| ==> s[k] == pop(ids[k])
  {
    seq(|ids|, k requires 0 <= k < |ids| => pop(ids[k]))
  }

  lemma {:induction false} FlattenScores(pop: string -> int, ws: seq<seq<string>>)
    ensures Flatten(seq(|ws|, k requires 0 <= k < |ws| => Scores(pop, ws[k]))) == Scores(pop, Flatten(ws))
  {
    if ws != [] {
      var ss := seq(|ws|, k requires 0 <= k < |ws| => Scores(pop, ws[k]));
      assert ss[1..] == seq(|ws[1..]|, k requires 0 <= k < |ws[1..]| => Scores(pop, ws[1..][k]));
      FlattenScores(pop, ws[1..]);
    }
  }

  /** Track ids as the tracks endpoint issues them: none contains a comma. */
  predicate CommaFree(ids: seq<string>)
  {
    forall k :: 0 <= k < |ids| ==> ',' !in ids[k]
  }

  /** An endpoint that answers a request for the comma-joined ids `w` with the score
      of each requested track, in request order. */
  ghost predicate ScoresEach(fetch: string -> Option<seq<int>>, pop: string -> int)
  {
    forall w: seq<string> :: |w| >= 1 && CommaFree(w) ==> fetch(Join(w, ",")) == Some(Scores(pop, w))
  }

  /** Every window of comma-free ids is a non-empty list of comma-free ids. */
  lemma CommaFreeWindow(idList: seq<string>, k: nat)
    requires CommaFree(idList) && k < |Windows(idList, TrackBatch)|
    ensures |Windows(idList, TrackBatch)[k]| >= 1 && CommaFree(Windows(idList, TrackBatch)[k])
  {
    WindowSizes(idList, TrackBatch, k);
    WindowAt(idList, TrackBatch, k);
  }

  /** When the tracks endpoint answers every request with one score per requested id,
      in request order, the scores line up with the ids one for one, as the column
      assignment of `get_artist_discography` needs. */
  lemma PopScoresAligned(fetch: string -> Option<seq<int>>, pop: string -> int, idList: seq<string>)
    requires CommaFree(idList) && ScoresEach(fetch, pop)
    ensures Gather(BatchScoresOf(fetch), Windows(idList, TrackBatch)) == Ok(Scores(pop, idList))
  {
    var ws := Windows(idList, TrackBatch);
    var g := (w: seq<string>) => Scores(pop, w);
    forall k | 0 <= k < |ws|
      ensures BatchScoresOf(fetch)(ws[k]) == Ok(g(ws[k]))
    {
      CommaFreeWindow(idList, k);
      assert fetch(Join(ws[k], ",")) == Some(Scores(pop, ws[k]));
    }
    GatherMap(BatchScoresOf(fetch), g, ws);
    assert seq(|ws|, k requires 0 <= k < |ws| => g(ws[k]))
           == seq(|ws|, k requires 0 <= k < |ws| => Scores(pop, ws[k]));
    FlattenScores(pop, ws);
    FlattenWindows(idList, TrackBatch);
  }

  /** An endpoint that splits the request at commas and scores each id. */
  function SplitScores(pop: string -> int): string -> Option<seq<int>>
  {
    s => Some(Scores(pop, Split(s, ',')))
  }

  /** Such an endpoint answers every request of comma-free ids with one score per id,
      so the hypothesis of `PopScoresAligned` can be met. */
  lemma SplitScoresEach(pop: string -> int)
    ensures ScoresEach(SplitScores(pop), pop)
  {
    forall w: seq<string> | |w| >= 1 && CommaFree(w)
      ensures SplitScores(pop)(Join(w, ",")) == Some(Scores(pop, w))
    {
      SplitJoin(w, ',');
    }
  }

  /** The popularity loop over such an endpoint returns every id's score, in order. */
  lemma SplitScoresAligned(pop: string -> int, idList: seq<string>)
    requires CommaFree(idList)
    ensures Gather(BatchScoresOf(SplitScores(pop)), Windows(idList, TrackBatch)) == Ok(Scores(pop, idList))
  {
    SplitScoresEach(pop);
    PopScoresAligned(SplitScores(pop), pop, idList);
  }

  /** No ids: no request and no scores. */
  lemma NoIdsNoScores(fetch: string -> Option<seq<int>>)
    ensures Gather(BatchScoresOf(fetch), Windows([], TrackBatch)) == Ok([])
  {
  }

  // ---------------------------------------------------------------------------------
  // The filter `[i for i in tracks if i[-1] in i[-2]]`

  /** The primary artist id occurs in the comma-joined performer ids. */
  predicate Keeps(t: TrackRecord)
  {
    Contains(t.performerIds, t.primaryArtistId)
  }

  function Retain(tracks: seq<TrackRecord>): (r: seq<TrackRecord>)
    ensures |r| <= |tracks|
  {
    if tracks == [] then [] else (if Keeps(tracks[0]) then [tracks[0]] else []) + Retain(tracks[1..])
  }

  /** A record survives exactly when it is an input record that passes the test. */
  lemma {:induction false} RetainMembers(tracks: seq<TrackRecord>, t: TrackRecord)
    ensures t in Retain(tracks) <==> t in tracks && Keeps(t)
  {
    if tracks != [] {
      RetainMembers(tracks[1..], t);
      assert tracks == [tracks[0]] + tracks[1..];
    }
  }

  /** The filter works record by record, so the survivors of a prefix come before the
      survivors of the rest: relative order is kept. */
  lemma {:induction false} RetainAppend(a: seq<TrackRecord>, b: seq<TrackRecord>)
    ensures Retain(a + b) == Retain(a) + Retain(b)
  {
    if a != [] {
      assert a + b != [] && (a + b)[0] == a[0] && (a + b)[1..] == a[1..] + b;
      RetainAppend(a[1..], b);
    } else {
      assert a + b == b;
    }
  }

  /** Filtering twice is filtering once. */
  lemma {:induction false} RetainIdempotent(tracks: seq<TrackRecord>)
    ensures Retain(Retain(tracks)) == Retain(tracks)
  {
    if tracks != [] {
      var head := if Keeps(tracks[0]) then [tracks[0]] else [];
      RetainAppend(head, Retain(tracks[1..]));
      RetainIdempotent(tracks[1..]);
      assert Retain(head) == head;
    }
  }

  /** A record is dropped exactly when it fails the test. */
  lemma {:induction false} RetainAll(tracks: seq<TrackRecord>)
    ensures Retain(tracks) == tracks <==> forall k :: 0 <= k < |tracks| ==> Keeps(tracks[k])
  {
    if tracks != [] {
      RetainAll(tracks[1..]);
      if !Keeps(tracks[0]) {
        assert |Retain(tracks)| < |tracks|;
      }
    }
  }

  /** A track credited to the primary artist is kept. */
  lemma CreditedTrackKept(album: AlbumTracks, track: TrackItem, albumId: string, primary: string, p: nat)
    requires p < |track.artists| && track.artists[p].id == primary
    ensures Keeps(Row(album, track, albumId, primary))
  {
    JoinContainsPart(PerformerIds(track.artists), ",", p);
  }

  /** With Spotify-style ids (all of one length, none with a comma), the substring test
      is exactly "the primary artist is credited on the track". */
  lemma KeepsIffCredited(album: AlbumTracks, track: TrackItem, albumId: string, primary: string)
    requires |track.artists| >= 1 && ',' !in primary
    requires forall k :: 0 <= k < |track.artists| ==>
               |track.artists[k].id| == |primary| && ',' !in track.artists[k].id
    ensures Keeps(Row(album, track, albumId, primary)) <==> primary in PerformerIds(track.artists)
  {
    FixedWidthContainsIff(PerformerIds(track.artists), ',', primary);
  }
}
