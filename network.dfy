/** The related-artist network of `build_related_artist_network` (analyze_artist.py):
    starting from a seed artist, the artists list is grown breadth-first by appending
    the not yet seen related acts of each listed artist in turn, until it holds
    `total_acts` artists. The artist lookup and the related-artists endpoint are
    oracles; a None answer is the failed request. */
module Network {
  import opened Outcomes
  import opened Lists
  import opened Text

  /** An artist as the endpoints return it (the fields the source reads). */
  datatype ArtistJson = ArtistJson(id: string, name: string, followers: int, popularity: int,
                                   genres: seq<string>)

  /** `Artist(spotify_id, name, spotify_followers, spotify_popularity, genres)`. */
  datatype Artist = Artist(id: string, name: string, followers: int, popularity: int, genres: string)

  /** The Artist built from a response, genres joined with ", ". */
  function ToArtist(j: ArtistJson): (a: Artist)
    ensures a.id == j.id && a.name == j.name && a.followers == j.followers
    ensures a.popularity == j.popularity && a.genres == Join(j.genres, ", ")
  {
    Artist(j.id, j.name, j.followers, j.popularity, Join(j.genres, ", "))
  }

  function Max(a: int, b: int): int
  {
    if a >= b then a else b
  }

  /** `xs[:n]` with Python's slice rules: a negative `n` counts from the end. */
  function SlicePrefix<T>(xs: seq<T>, n: int): (r: seq<T>)
  {
    if n >= 0 then xs[..Min(n, |xs|)] else xs[..Max(|xs| + n, 0)]
  }

  /** `get_related_artists(artist_id, num_artists)` keeps a prefix of the endpoint's list:
      the first `n` acts for a non-negative `n` (all of them when there are fewer),
      all but the last `-n` for a negative one. */
  lemma SlicePrefixLength<T>(xs: seq<T>, n: int)
    ensures SlicePrefix(xs, n) <= xs
    ensures n >= 0 ==> |SlicePrefix(xs, n)| == Min(n, |xs|)
    ensures n < 0 ==> |SlicePrefix(xs, n)| == Max(|xs| + n, 0)
  {
  }

  /** `process_related_acts(artist_id, related_act_count)`: the related acts, truncated,
      as Artist objects in endpoint order. */
  function ProcessRelatedActs(related: string -> Option<seq<ArtistJson>>, artistId: string, count: int)
    : (r: Option<seq<Artist>>)
    ensures related(artistId).None? <==> r.None?
    ensures r.Some? ==> var js := SlicePrefix(related(artistId).value, count);
                        |r.value| == |js| && forall i :: 0 <= i < |js| ==> r.value[i] == ToArtist(js[i])
  {
    match related(artistId)
    case None => None
    case Some(js) =>
      var kept := SlicePrefix(js, count);
      Some(seq(|kept|, i requires 0 <= i < |kept| => ToArtist(kept[i])))
  }

  /** The ids of the listed artists. */
  function IdSet(artists: seq<Artist>): set<string>
  {
    set a | a in artists :: a.id
  }

  /** No id is listed twice. */
  predicate Distinct(artists: seq<Artist>)
  {
    forall i, j :: 0 <= i < j < |artists| ==> artists[i].id != artists[j].id
  }

  /** The state the inner `for act in related_acts` loop threads: the artists list,
      `processed_artists` and `acts_added`. */
  datatype Scanned = Scanned(artists: seq<Artist>, processed: set<string>, added: nat)

  /** The inner loop over one artist's related acts: stop as soon as `acts_added`
      reaches `total_acts`, otherwise append each act whose id is new. */
  function Scan(artists: seq<Artist>, processed: set<string>, added: nat, totalActs: int,
                acts: seq<Artist>): (r: Scanned)
    ensures artists <= r.artists && r.added - added == |r.artists| - |artists|
    decreases |acts|
  {
    if acts == [] || added == totalActs then Scanned(artists, processed, added)
    else if acts[0].id !in processed then
      Scan(artists + [acts[0]], processed + {acts[0].id}, added + 1, totalActs, acts[1..])
    else Scan(artists, processed, added, totalActs, acts[1..])
  }

  /** One more act of the inner loop, from position `q`. */
  lemma ScanAt(artists: seq<Artist>, processed: set<string>, added: nat, totalActs: int,
               acts: seq<Artist>, q: nat)
    requires q <= |acts|
    ensures q == |acts| || added == totalActs ==>
              Scan(artists, processed, added, totalActs, acts[q..]) == Scanned(artists, processed, added)
    ensures q < |acts| && added != totalActs && acts[q].id !in processed ==>
              Scan(artists, processed, added, totalActs, acts[q..])
              == Scan(artists + [acts[q]], processed + {acts[q].id}, added + 1, totalActs, acts[q + 1..])
    ensures q < |acts| && added != totalActs && acts[q].id in processed ==>
              Scan(artists, processed, added, totalActs, acts[q..])
              == Scan(artists, processed, added, totalActs, acts[q + 1..])
  {
    if q < |acts| {
      assert acts[q..][0] == acts[q] && acts[q..][1..] == acts[q + 1..];
    }
  }

  /** What the builder leaves behind: the artists list, and the exception if one ended it. */
  datatype Growth = Built(artists: seq<Artist>) | Broken(artists: seq<Artist>, error: Failure)

  /** The outer `while len(self.artists) < total_acts` loop from cursor `idx`. */
  function Grow(related: string -> Option<seq<ArtistJson>>, count: int, totalActs: int,
                artists: seq<Artist>, processed: set<string>, idx: nat, added: nat): Growth
    requires added <= |artists| && idx <= |artists|
    decreases totalActs + |artists| - added - idx
  {
    if |artists| >= totalActs then Built(artists)
    else if idx == |artists| then Broken(artists, IndexError)
    else
      match ProcessRelatedActs(related, artists[idx].id, count)
      case None => Broken(artists, MissingResponse)
      case Some(acts) =>
        var s := Scan(artists, processed, added, totalActs, acts);
        Grow(related, count, totalActs, s.artists, s.processed, idx + 1, s.added)
  }

  /** `build_related_artist_network(seed_act, total_acts, related_act_count)` on an
      object whose artists list is `start`. */
  function Build(info: string -> Option<ArtistJson>, related: string -> Option<seq<ArtistJson>>,
                 seedAct: string, totalActs: int, count: int, start: seq<Artist>): Growth
  {
    match info(seedAct)
    case None => Broken(start, MissingResponse)
    case Some(j) =>
      var seed := ToArtist(j);
      Grow(related, count, totalActs, start + [seed], {seed.id}, 0, 1)
  }

  function Outcome(error: Option<Failure>, artists: seq<Artist>): Growth
  {
    match error
    case None => Built(artists)
    case Some(e) => Broken(artists, e)
  }

  // ---------------------------------------------------------------------------------
  // What the builder guarantees on a fresh object

  /** The related acts of an artist as the builder sees them (none when the request fails). */
  function RelatedOf(related: string -> Option<seq<ArtistJson>>, count: int, artistId: string): seq<Artist>
  {
    match ProcessRelatedActs(related, artistId, count)
    case None => []
    case Some(acts) => acts
  }

  /** Every artist before `idx` has been expanded: its related acts were fetched and
      every one of them is listed. */
  ghost predicate Closed(related: string -> Option<seq<ArtistJson>>, count: int, artists: seq<Artist>, idx: nat)
  {
    && idx <= |artists|
    && forall i :: 0 <= i < idx ==>
         && ProcessRelatedActs(related, artists[i].id, count).Some?
         && forall a :: a in RelatedOf(related, count, artists[i].id) ==> a.id in IdSet(artists)
  }

  /** Every artist after the seed is a related act of an earlier artist that was
      expanded before it was added. */
  ghost predicate Discovered(related: string -> Option<seq<ArtistJson>>, count: int, artists: seq<Artist>, idx: nat)
  {
    forall k :: 1 <= k < |artists| ==> FoundBefore(related, count, artists, k, idx)
  }

  /** Artist `k` is a related act of some artist before it and before `idx`. */
  ghost predicate FoundBefore(related: string -> Option<seq<ArtistJson>>, count: int, artists: seq<Artist>, k: nat, idx: nat)
    requires k < |artists|
  {
    exists i :: 0 <= i < k && i < idx && Finds(related, count, artists[i], artists[k])
  }

  /** `later` is among the related acts the builder gets for `earlier`. */
  predicate Finds(related: string -> Option<seq<ArtistJson>>, count: int, earlier: Artist, later: Artist)
  {
    later in RelatedOf(related, count, earlier.id)
  }

  /** The invariant of the outer loop on a fresh object. */
  ghost predicate Growing(related: string -> Option<seq<ArtistJson>>, count: int, totalActs: int,
                          artists: seq<Artist>, processed: set<string>, idx: nat, added: nat)
  {
    && 1 <= |artists| && added == |artists| && idx <= |artists|
    && added <= Max(totalActs, 1)
    && Distinct(artists) && processed == IdSet(artists)
    && (added != totalActs ==> Closed(related, count, artists, idx))
    && Discovered(related, count, artists, idx)
  }

  lemma IdSetSnoc(artists: seq<Artist>, a: Artist)
    ensures IdSet(artists + [a]) == IdSet(artists) + {a.id}
  {
    var l := artists + [a];
    forall x | x in IdSet(l) ensures x in IdSet(artists) + {a.id} {
      var b :| b in l && b.id == x;
      if b != a {
        assert b in artists;
      }
    }
    forall x | x in IdSet(artists) + {a.id} ensures x in IdSet(l) {
      if x == a.id {
        assert a in l;
      } else {
        var b :| b in artists && b.id == x;
        assert b in l;
      }
    }
  }

  /** An id is listed exactly when some listed artist carries it. */
  lemma IdSetIndex(artists: seq<Artist>, x: string)
    ensures x in IdSet(artists) <==> exists k :: 0 <= k < |artists| && artists[k].id == x
  {
    if x in IdSet(artists) {
      var b :| b in artists && b.id == x;
      var k :| 0 <= k < |artists| && artists[k] == b;
    }
  }

  /** The inner loop keeps the ids distinct and recorded, counts what it appends, never
      overshoots `total_acts`, appends only acts of the scanned list, and sees every
      act unless it stopped at `total_acts`. */
  lemma {:induction false} ScanKeeps(artists: seq<Artist>, processed: set<string>, added: nat,
                                     totalActs: int, acts: seq<Artist>)
    requires Distinct(artists) && processed == IdSet(artists) && added == |artists|
    ensures var r := Scan(artists, processed, added, totalActs, acts);
            && Distinct(r.artists) && r.processed == IdSet(r.artists) && r.added == |r.artists|
            && (added <= totalActs ==> r.added <= totalActs)
            && (r.added != totalActs ==> forall a :: a in acts ==> a.id in r.processed)
            && (forall k :: |artists| <= k < |r.artists| ==> r.artists[k] in acts)
    decreases |acts|
  {
    if acts != [] && added != totalActs {
      var a := acts[0];
      var rest := acts[1..];
      assert acts == [a] + rest;
      if a.id !in processed {
        var l := artists + [a];
        IdSetSnoc(artists, a);
        forall i, j | 0 <= i < j < |l| ensures l[i].id != l[j].id {
          if j == |artists| {
            IdSetIndex(artists, l[i].id);
          }
        }
        ScanKeeps(l, processed + {a.id}, added + 1, totalActs, rest);
      } else {
        ScanKeeps(artists, processed, added, totalActs, rest);
      }
    }
  }

  /** Listed ids stay listed when the list grows. */
  lemma IdSetPrefix(artists: seq<Artist>, more: seq<Artist>, x: string)
    requires artists <= more && x in IdSet(artists)
    ensures x in IdSet(more)
  {
    var b :| b in artists && b.id == x;
    var k :| 0 <= k < |artists| && artists[k] == b;
    assert more[k] == b;
  }

  /** Expanding artist `idx` closes it once all its related acts are listed. */
  lemma ClosedStep(related: string -> Option<seq<ArtistJson>>, count: int,
                   artists: seq<Artist>, idx: nat, more: seq<Artist>)
    requires Closed(related, count, artists, idx) && idx < |artists| && artists <= more
    requires ProcessRelatedActs(related, artists[idx].id, count).Some?
    requires forall a :: a in RelatedOf(related, count, artists[idx].id) ==> a.id in IdSet(more)
    ensures Closed(related, count, more, idx + 1)
  {
    forall i, a | 0 <= i < idx + 1 && a in RelatedOf(related, count, more[i].id)
      ensures a.id in IdSet(more)
    {
      assert more[i] == artists[i];
      if i < idx {
        IdSetPrefix(artists, more, a.id);
      }
    }
  }

  /** Artists appended while expanding artist `idx` were discovered by it. */
  lemma DiscoveredStep(related: string -> Option<seq<ArtistJson>>, count: int,
                       artists: seq<Artist>, idx: nat, more: seq<Artist>)
    requires Discovered(related, count, artists, idx) && idx < |artists| && artists <= more
    requires forall k :: |artists| <= k < |more| ==> more[k] in RelatedOf(related, count, artists[idx].id)
    ensures Discovered(related, count, more, idx + 1)
  {
    var next := idx + 1;
    forall k | 1 <= k < |more|
      ensures FoundBefore(related, count, more, k, next)
    {
      if k < |artists| {
        assert more[k] == artists[k];
        assert FoundBefore(related, count, artists, k, idx);
        var i :| 0 <= i < k && i < idx && Finds(related, count, artists[i], artists[k]);
        assert more[i] == artists[i];
        assert Finds(related, count, more[i], more[k]);
      } else {
        assert more[idx] == artists[idx];
        assert Finds(related, count, more[idx], more[k]);
      }
    }
  }

  /** Discovery by an earlier artist is discovery by any artist of the list. */
  lemma DiscoveredWiden(related: string -> Option<seq<ArtistJson>>, count: int, artists: seq<Artist>, idx: nat)
    requires Discovered(related, count, artists, idx)
    ensures Discovered(related, count, artists, |artists|)
  {
    forall k | 1 <= k < |artists|
      ensures FoundBefore(related, count, artists, k, |artists|)
    {
      assert FoundBefore(related, count, artists, k, idx);
      var i :| 0 <= i < k && i < idx && Finds(related, count, artists[i], artists[k]);
    }
  }

  /** One iteration of the outer loop keeps the invariant and advances the cursor. */
  lemma GrowStep(related: string -> Option<seq<ArtistJson>>, count: int, totalActs: int,
                 artists: seq<Artist>, processed: set<string>, idx: nat, added: nat)
    requires Growing(related, count, totalActs, artists, processed, idx, added)
    requires |artists| < totalActs && idx < |artists|
    requires ProcessRelatedActs(related, artists[idx].id, count).Some?
    ensures var acts := ProcessRelatedActs(related, artists[idx].id, count).value;
            var s := Scan(artists, processed, added, totalActs, acts);
            Growing(related, count, totalActs, s.artists, s.processed, idx + 1, s.added)
  {
    var acts := ProcessRelatedActs(related, artists[idx].id, count).value;
    var s := Scan(artists, processed, added, totalActs, acts);
    ScanKeeps(artists, processed, added, totalActs, acts);
    if s.added != totalActs {
      ClosedStep(related, count, artists, idx, s.artists);
    }
    DiscoveredStep(related, count, artists, idx, s.artists);
  }

  /** What the outer loop ends with, from any state satisfying the invariant. */
  lemma {:induction false} GrowEnds(related: string -> Option<seq<ArtistJson>>, count: int, totalActs: int,
                                    artists: seq<Artist>, processed: set<string>, idx: nat, added: nat)
    requires Growing(related, count, totalActs, artists, processed, idx, added)
    ensures var g := Grow(related, count, totalActs, artists, processed, idx, added);
            && artists <= g.artists
            && Distinct(g.artists)
            && |g.artists| <= Max(totalActs, 1)
            && (g.Built? ==> |g.artists| == Max(totalActs, 1))
            && (g.Broken? && g.error == IndexError ==>
                  |g.artists| < totalActs && Closed(related, count, g.artists, |g.artists|))
            && Discovered(related, count, g.artists, |g.artists|)
            && (g.Broken? ==> g.error == IndexError || (g.error == MissingResponse && Unanswered(related, g.artists)))
    decreases totalActs + |artists| - added - idx
  {
    if |artists| < totalActs && idx < |artists| {
      var r := ProcessRelatedActs(related, artists[idx].id, count);
      if r.Some? {
        var s := Scan(artists, processed, added, totalActs, r.value);
        GrowStep(related, count, totalActs, artists, processed, idx, added);
        GrowEnds(related, count, totalActs, s.artists, s.processed, idx + 1, s.added);
        return;
      }
      assert related(artists[idx].id).None?;
    }
    DiscoveredWiden(related, count, artists, idx);
  }

  /** Some listed artist's related-artists request failed. */
  ghost predicate Unanswered(related: string -> Option<seq<ArtistJson>>, artists: seq<Artist>)
  {
    exists i :: 0 <= i < |artists| && related(artists[i].id).None?
  }

  /** The seed state: one artist, its id processed, nothing expanded yet. */
  lemma SeedState(related: string -> Option<seq<ArtistJson>>, count: int, totalActs: int, seed: Artist)
    ensures Growing(related, count, totalActs, [seed], {seed.id}, 0, 1)
  {
    assert IdSet([seed]) == {seed.id} by {
      IdSetSnoc([], seed);
    }
  }

  /** On a fresh object with a found seed, the list starts with the seed, holds each id
      once, never exceeds max(total_acts, 1) artists and has exactly that many on normal
      return, and every artist after the seed is a related act of an earlier one. */
  lemma NetworkShape(info: string -> Option<ArtistJson>, related: string -> Option<seq<ArtistJson>>,
                     seedAct: string, totalActs: int, count: int)
    requires info(seedAct).Some?
    ensures var g := Build(info, related, seedAct, totalActs, count, []);
            && |g.artists| >= 1 && g.artists[0] == ToArtist(info(seedAct).value)
            && Distinct(g.artists)
            && |g.artists| <= Max(totalActs, 1)
            && (g.Built? ==> |g.artists| == Max(totalActs, 1))
            && Discovered(related, count, g.artists, |g.artists|)
  {
    var seed := ToArtist(info(seedAct).value);
    assert [] + [seed] == [seed];
    SeedState(related, count, totalActs, seed);
    GrowEnds(related, count, totalActs, [seed], {seed.id}, 0, 1);
  }

  /** The read past the end of the list happens exactly when the network ran out of new
      artists: the list is still short of `total_acts`, and every listed artist has been
      expanded with all its related acts already listed. Otherwise the builder either
      filled the list or a related-artists request failed. */
  lemma NetworkExhausted(info: string -> Option<ArtistJson>, related: string -> Option<seq<ArtistJson>>,
                         seedAct: string, totalActs: int, count: int)
    requires info(seedAct).Some?
    ensures var g := Build(info, related, seedAct, totalActs, count, []);
            g.Broken? && g.error == IndexError <==>
              && |g.artists| < totalActs
              && forall i :: 0 <= i < |g.artists| ==>
                   && ProcessRelatedActs(related, g.artists[i].id, count).Some?
                   && forall a :: a in RelatedOf(related, count, g.artists[i].id) ==> a.id in IdSet(g.artists)
  {
    var seed := ToArtist(info(seedAct).value);
    assert [] + [seed] == [seed];
    SeedState(related, count, totalActs, seed);
    GrowEnds(related, count, totalActs, [seed], {seed.id}, 0, 1);
  }

  // ---------------------------------------------------------------------------------
  // Two small networks

  /** An act with no genres and no audience, named by its id. */
  function Act(id: string): ArtistJson
  {
    ArtistJson(id, id, 0, 0, [])
  }

  function Found(id: string): Option<ArtistJson>
  {
    Some(Act(id))
  }

  /** A related list no longer than the count is kept whole. */
  lemma ActsListed(related: string -> Option<seq<ArtistJson>>, artistId: string, count: int,
                   js: seq<ArtistJson>, acts: seq<Artist>)
    requires related(artistId) == Some(js) && |js| <= count
    requires |acts| == |js| && forall i :: 0 <= i < |js| ==> acts[i] == ToArtist(js[i])
    ensures ProcessRelatedActs(related, artistId, count) == Some(acts)
  {
    assert SlicePrefix(js, count) == js;
    var r := ProcessRelatedActs(related, artistId, count);
    assert r.value == acts;
  }

  /** S is related to A and B; A to S, C and D; nobody else has related acts. */
  function Fan(id: string): Option<seq<ArtistJson>>
  {
    if id == "S" then Some([Act("A"), Act("B")])
    else if id == "A" then Some([Act("S"), Act("C"), Act("D")])
    else Some([])
  }

  /** Expanding S adds both its acts. */
  lemma FanFromSeed()
    ensures var s, a, b := ToArtist(Act("S")), ToArtist(Act("A")), ToArtist(Act("B"));
            Grow(Fan, 20, 4, [s], {"S"}, 0, 1) == Grow(Fan, 20, 4, [s, a, b], {"S", "A", "B"}, 1, 3)
  {
    var s, a, b := ToArtist(Act("S")), ToArtist(Act("A")), ToArtist(Act("B"));
    assert "A" != "S" && "B" != "S" && "B" != "A" by { assert "A"[0] != "S"[0] && "B"[0] != "S"[0] && "B"[0] != "A"[0]; }
    ActsListed(Fan, "S", 20, [Act("A"), Act("B")], [a, b]);
    ScanAt([s], {"S"}, 1, 4, [a, b], 0);
    ScanAt([s, a], {"S", "A"}, 2, 4, [a, b], 1);
    ScanAt([s, a, b], {"S", "A", "B"}, 3, 4, [a, b], 2);
    assert [a, b][0..] == [a, b];
    assert Scan([s], {"S"}, 1, 4, [a, b]) == Scanned([s, a, b], {"S", "A", "B"}, 3);
  }

  /** Expanding A skips the seed, adds C and stops before D. */
  lemma FanFromA()
    ensures var s, a, b, c := ToArtist(Act("S")), ToArtist(Act("A")), ToArtist(Act("B")), ToArtist(Act("C"));
            Grow(Fan, 20, 4, [s, a, b], {"S", "A", "B"}, 1, 3) == Grow(Fan, 20, 4, [s, a, b, c], {"S", "A", "B", "C"}, 2, 4)
  {
    var s, a, b, c, d := ToArtist(Act("S")), ToArtist(Act("A")), ToArtist(Act("B")), ToArtist(Act("C")), ToArtist(Act("D"));
    assert "A" != "S" by { assert "A"[0] != "S"[0]; }
    var l := [s, c, d];
    ActsListed(Fan, "A", 20, [Act("S"), Act("C"), Act("D")], l);
    ScanAt([s, a, b], {"S", "A", "B"}, 3, 4, l, 0);
    ScanAt([s, a, b], {"S", "A", "B"}, 3, 4, l, 1);
    ScanAt([s, a, b, c], {"S", "A", "B", "C"}, 4, 4, l, 2);
    assert l[0..] == l;
  }

  /** A network of four from S: S's acts, then the first new act of A; the seed, already
      seen, is skipped and D is never reached because the list is full. */
  lemma FanNetwork()
    ensures Build(Found, Fan, "S", 4, 20, [])
            == Built([ToArtist(Act("S")), ToArtist(Act("A")), ToArtist(Act("B")), ToArtist(Act("C"))])
  {
    var s := ToArtist(Act("S"));
    assert [] + [s] == [s];
    FanFromSeed();
    FanFromA();
  }

  /** S and A are each other's only related act. */
  function Pair(id: string): Option<seq<ArtistJson>>
  {
    if id == "S" then Some([Act("A")])
    else if id == "A" then Some([Act("S")])
    else Some([])
  }

  /** Asking for five artists where only two are reachable reads past the end of the
      list. */
  lemma PairNetworkRunsOut()
    ensures Build(Found, Pair, "S", 5, 20, []) == Broken([ToArtist(Act("S")), ToArtist(Act("A"))], IndexError)
  {
    var s, a := ToArtist(Act("S")), ToArtist(Act("A"));
    assert [] + [s] == [s];
    assert "A" != "S" by { assert "A"[0] != "S"[0]; }
    ActsListed(Pair, "S", 20, [Act("A")], [a]);
    assert Scan([s], {"S"}, 1, 5, [a]) == Scanned([s, a], {"S", "A"}, 2) by {
      ScanAt([s], {"S"}, 1, 5, [a], 0);
      ScanAt([s, a], {"S", "A"}, 2, 5, [a], 1);
      assert [a][0..] == [a];
    }
    ActsListed(Pair, "A", 20, [Act("S")], [s]);
    assert Scan([s, a], {"S", "A"}, 2, 5, [s]) == Scanned([s, a], {"S", "A"}, 2) by {
      ScanAt([s, a], {"S", "A"}, 2, 5, [s], 0);
      ScanAt([s, a], {"S", "A"}, 2, 5, [s], 1);
      assert [s][0..] == [s];
    }
    assert Grow(Pair, 20, 5, [s], {"S"}, 0, 1) == Grow(Pair, 20, 5, [s, a], {"S", "A"}, 1, 2);
    assert Grow(Pair, 20, 5, [s, a], {"S", "A"}, 1, 2) == Grow(Pair, 20, 5, [s, a], {"S", "A"}, 2, 2);
  }

  class SpotifyArtistSummary {
    /** `self.artists`, filled by the network builder. */
    var artists: seq<Artist>

    constructor()
      ensures artists == []
    {
      artists := [];
    }

    /** `build_related_artist_network`: the artists list ends as `Build` says, and the
        exception, if any, is returned. */
    method BuildRelatedArtistNetwork(info: string -> Option<ArtistJson>,
                                     related: string -> Option<seq<ArtistJson>>,
                                     seedAct: string, totalActs: int, relatedActCount: int)
      returns (error: Option<Failure>)
      modifies this
      ensures Outcome(error, artists) == Build(info, related, seedAct, totalActs, relatedActCount, old(artists))
    {
      var seedActData := info(seedAct);
      if seedActData.None? {
        return Some(MissingResponse);
      }
      var seedActObj := ToArtist(seedActData.value);
      var artistIdx := 0;
      var actsAdded := 0;
      var processedArtists: set<string> := {};
      artists := artists + [seedActObj];
      processedArtists := processedArtists + {seedActObj.id};
      actsAdded := actsAdded + 1;
      ghost var goal := Build(info, related, seedAct, totalActs, relatedActCount, old(artists));
      assert processedArtists == {seedActObj.id} && artists == old(artists) + [seedActObj];
      while |artists| < totalActs
        invariant actsAdded <= |artists| && artistIdx <= |artists|
        invariant |artists| - actsAdded == |old(artists)|
        invariant Grow(related, relatedActCount, totalActs, artists, processedArtists, artistIdx, actsAdded) == goal
        decreases totalActs + |old(artists)| - artistIdx
      {
        if artistIdx == |artists| {
          return Some(IndexError);
        }
        var currentAct := artists[artistIdx];
        var relatedActs := ProcessRelatedActs(related, currentAct.id, relatedActCount);
        if relatedActs.None? {
          return Some(MissingResponse);
        }
        var acts := relatedActs.value;
        ghost var scanned := Scan(artists, processedArtists, actsAdded, totalActs, acts);
        var q := 0;
        while q < |acts|
          invariant 0 <= q <= |acts|
          invariant Scan(artists, processedArtists, actsAdded, totalActs, acts[q..]) == scanned
        {
          var act := acts[q];
          ScanAt(artists, processedArtists, actsAdded, totalActs, acts, q);
          if actsAdded == totalActs {
            break;
          }
          if act.id !in processedArtists {
            artists := artists + [act];
            processedArtists := processedArtists + {act.id};
            actsAdded := actsAdded + 1;
          }
          q := q + 1;
        }
        ScanAt(artists, processedArtists, actsAdded, totalActs, acts, q);
        assert Scanned(artists, processedArtists, actsAdded) == scanned;
        artistIdx := artistIdx + 1;
      }
      return None;
    }
  }
}
