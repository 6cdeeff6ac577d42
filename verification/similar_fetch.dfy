/** How the recommender gathers candidate tracks from Spotify's
    recommendations endpoint: in chunks of seed tracks (`fetch_similar_songs`)
    or from a few tracks of each selected album
    (`fetch_similar_tracks_from_albums`). */
module SimilarFetch {
  import opened Common
  import opened Spotify

  /** Spotify accepts at most five seeds per recommendations request. */
  const SeedsPerRequest: nat := 5
  /** The per-request `limit` cap used when chunking. */
  const MaxLimit: nat := 50
  /** How many tracks of each album serve as seeds. */
  const SeedsPerAlbum: nat := 5

  /** `[seeds[i:i+5] for i in range(0, len(seeds), 5)]`, one chunk at a time. */
  function Chunks(seeds: seq<string>): (r: seq<seq<string>>)
    ensures |r| == (|seeds| + SeedsPerRequest - 1) / SeedsPerRequest
    decreases |seeds|
  {
    if |seeds| == 0 then []
    else if |seeds| <= SeedsPerRequest then [seeds]
    else [seeds[..SeedsPerRequest]] + Chunks(seeds[SeedsPerRequest..])
  }

  /** Chunk `k` is the slice starting at seed `5 * k`, as the stepped range gives it. */
  lemma {:induction false} ChunkAt(seeds: seq<string>, k: nat)
    requires k < |Chunks(seeds)|
    ensures SeedsPerRequest * k < |seeds|
    ensures Chunks(seeds)[k] == seeds[SeedsPerRequest * k .. Min(SeedsPerRequest * k + SeedsPerRequest, |seeds|)]
    decreases |seeds|
  {
    if |seeds| > SeedsPerRequest && k > 0 {
      var tail := seeds[SeedsPerRequest..];
      ChunkAt(tail, k - 1);
      assert Chunks(seeds)[k] == Chunks(tail)[k - 1];
      assert SeedsPerRequest * k == SeedsPerRequest * (k - 1) + SeedsPerRequest;
      assert tail[SeedsPerRequest * (k - 1) .. Min(SeedsPerRequest * (k - 1) + SeedsPerRequest, |tail|)]
          == seeds[SeedsPerRequest * k .. Min(SeedsPerRequest * k + SeedsPerRequest, |seeds|)];
    }
  }

  /** The chunks put back together are the seeds, and every chunk holds one to five seeds. */
  lemma {:induction false} ChunksPartition(seeds: seq<string>)
    ensures Flatten(Chunks(seeds)) == seeds
    ensures forall k :: 0 <= k < |Chunks(seeds)| ==> 0 < |Chunks(seeds)[k]| <= SeedsPerRequest
    decreases |seeds|
  {
    var r := Chunks(seeds);
    if |seeds| > SeedsPerRequest {
      ChunksPartition(seeds[SeedsPerRequest..]);
      assert r == [seeds[..SeedsPerRequest]] + Chunks(seeds[SeedsPerRequest..]);
      assert r[1..] == Chunks(seeds[SeedsPerRequest..]);
      assert seeds == seeds[..SeedsPerRequest] + seeds[SeedsPerRequest..];
    } else if |seeds| > 0 {
      assert r == [seeds];
      assert r[1..] == [];
      assert seeds + [] == seeds;
    }
  }

  /** What one reply adds to the pool: its `'tracks'`, or nothing. */
  function Got(api: Api, req: RecsRequest): seq<Track> {
    api.recommendations(req).GetOr([])
  }

  /** Everything the given requests returned, in order. */
  function Collected(api: Api, reqs: seq<RecsRequest>): seq<Track> {
    if |reqs| == 0 then [] else Got(api, reqs[0]) + Collected(api, reqs[1..])
  }

  lemma {:induction false} CollectedAppend(api: Api, a: seq<RecsRequest>, b: seq<RecsRequest>)
    ensures Collected(api, a + b) == Collected(api, a) + Collected(api, b)
  {
    if |a| == 0 {
      assert a + b == b;
    } else {
      assert (a + b)[0] == a[0];
      assert (a + b)[1..] == a[1..] + b;
      CollectedAppend(api, a[1..], b);
    }
  }

  /** The tracks gathered and the requests issued, in order. */
  datatype Fetch = Fetch(songs: seq<Track>, requests: seq<RecsRequest>)

  /** The loop of `fetch_similar_songs` from the chunk list `chunks` on, with
      `acc` gathered so far: request, extend, stop once `total` is reached. */
  function FetchFrom(api: Api, chunks: seq<seq<string>>, limit: nat, total: nat, acc: seq<Track>): (r: Fetch)
    ensures |r.requests| <= |chunks|
    ensures forall k :: 0 <= k < |r.requests| ==> r.requests[k] == RecsRequest(chunks[k], limit)
    ensures r.songs == acc + Collected(api, r.requests)
    ensures forall j :: 0 < j < |r.requests| ==> |acc| + |Collected(api, r.requests[..j])| < total
    ensures |r.requests| == |chunks| || |r.songs| >= total
    ensures |chunks| > 0 ==> |r.requests| > 0
    decreases |chunks|
  {
    if |chunks| == 0 then Fetch(acc, [])
    else
      var req := RecsRequest(chunks[0], limit);
      var acc' := acc + Got(api, req);
      if |acc'| >= total then
        assert Collected(api, [req]) == Got(api, req) + Collected(api, []);
        Fetch(acc', [req])
      else
        var rest := FetchFrom(api, chunks[1..], limit, total, acc');
        var reqs := [req] + rest.requests;
        assert reqs[0] == req && reqs[1..] == rest.requests;
        assert forall j :: 0 < j < |reqs| ==> reqs[..j][0] == req && reqs[..j][1..] == rest.requests[..j - 1];
        Fetch(rest.songs, reqs)
  }

  /** `fetch_similar_songs(token, seed_tracks, total_songs)`. */
  function FetchSimilarSongs(api: Api, seeds: seq<string>, total: nat): (r: Fetch)
    ensures |r.songs| == Min(total, |Collected(api, r.requests)|)
    ensures r.songs <= Collected(api, r.requests)
    ensures |r.requests| <= |Chunks(seeds)|
    ensures forall k :: 0 <= k < |r.requests| ==>
              r.requests[k] == RecsRequest(Chunks(seeds)[k], Min(MaxLimit, total))
    ensures forall j :: 0 < j < |r.requests| ==> |Collected(api, r.requests[..j])| < total
    ensures |r.requests| == |Chunks(seeds)| || |Collected(api, r.requests)| >= total
    ensures |seeds| > 0 ==> |r.requests| > 0
  {
    var f := FetchFrom(api, Chunks(seeds), Min(MaxLimit, total), total, []);
    assert f.songs == Collected(api, f.requests);
    Fetch(Take(f.songs, total), f.requests)
  }

  /** With every reply present and no early stop, the result is all replies
      concatenated in request order: chunk replies are never reordered. */
  lemma FetchSimilarSongsAllChunks(api: Api, seeds: seq<string>, total: nat)
    requires |Collected(api, FetchSimilarSongs(api, seeds, total).requests)| <= total
    ensures FetchSimilarSongs(api, seeds, total).songs == Collected(api, FetchSimilarSongs(api, seeds, total).requests)
  {
  }

  /** With no reply carrying `'tracks'`, the requests gather nothing. */
  lemma {:induction false} CollectedNone(api: Api, reqs: seq<RecsRequest>)
    requires forall req :: api.recommendations(req).None?
    ensures Collected(api, reqs) == []
  {
    if |reqs| > 0 {
      CollectedNone(api, reqs[1..]);
    }
  }

  /** When Spotify answers no recommendations request with `'tracks'`,
      `fetch_similar_songs` returns an empty list. */
  lemma NoRepliesNoSongs(api: Api, seeds: seq<string>, total: nat)
    requires forall req :: api.recommendations(req).None?
    ensures FetchSimilarSongs(api, seeds, total).songs == []
  {
    CollectedNone(api, FetchSimilarSongs(api, seeds, total).requests);
  }

  /** The seeds one album contributes: its first five track ids, or none when
      the reply has no `'items'`. */
  function SeedsOf(api: Api, albumId: string): (r: seq<string>)
    ensures |r| <= SeedsPerAlbum
    ensures api.albumTracks(albumId).None? ==> r == []
    ensures api.albumTracks(albumId).Some? ==>
              var items := api.albumTracks(albumId).value;
              |r| == Min(SeedsPerAlbum, |items|) && forall k :: 0 <= k < |r| ==> r[k] == items[k].id
  {
    match api.albumTracks(albumId)
    case Some(items) => Take(TrackIds(items), SeedsPerAlbum)
    case None => []
  }

  /** The seed list the album loop builds. */
  function AlbumSeeds(api: Api, albumIds: seq<string>): (r: seq<string>)
    ensures |r| <= SeedsPerAlbum * |albumIds|
    ensures forall x :: x in r ==> exists k :: 0 <= k < |albumIds| && x in SeedsOf(api, albumIds[k])
    ensures |albumIds| == 1 ==> r == SeedsOf(api, albumIds[0])
  {
    if |albumIds| == 0 then []
    else
      var rest := AlbumSeeds(api, albumIds[1..]);
      assert forall x :: x in rest ==> exists k :: 0 <= k < |albumIds| && x in SeedsOf(api, albumIds[k]) by {
        forall x | x in rest ensures exists k :: 0 <= k < |albumIds| && x in SeedsOf(api, albumIds[k]) {
          var k :| 0 <= k < |albumIds[1..]| && x in SeedsOf(api, albumIds[1..][k]);
          assert albumIds[1..][k] == albumIds[k + 1];
        }
      }
      SeedsOf(api, albumIds[0]) + rest
  }

  /** Album seeds follow album order: the loop distributes over concatenation. */
  lemma {:induction false} AlbumSeedsAppend(api: Api, a: seq<string>, b: seq<string>)
    ensures AlbumSeeds(api, a + b) == AlbumSeeds(api, a) + AlbumSeeds(api, b)
  {
    if |a| == 0 {
      assert a + b == b;
    } else {
      assert (a + b)[0] == a[0];
      assert (a + b)[1..] == a[1..] + b;
      AlbumSeedsAppend(api, a[1..], b);
    }
  }

  /** The recommended tracks and the recommendations request, if one was made. */
  datatype AlbumFetch = AlbumFetch(tracks: seq<Track>, request: Option<RecsRequest>)

  /** `fetch_similar_tracks_from_albums(token, seed_albums, total_tracks)`. */
  function FetchSimilarTracksFromAlbums(api: Api, albumIds: seq<string>, total: nat): (r: AlbumFetch)
    ensures r.request.None? <==> AlbumSeeds(api, albumIds) == []
    ensures r.request.None? ==> r.tracks == []
    ensures r.request.Some? ==>
              && 0 < |r.request.value.seeds| <= SeedsPerRequest
              && |r.request.value.seeds| == Min(SeedsPerRequest, |AlbumSeeds(api, albumIds)|)
              && r.request.value.seeds <= AlbumSeeds(api, albumIds)
              && r.request.value.limit == total
              && r.tracks == Got(api, r.request.value)
  {
    var seeds := AlbumSeeds(api, albumIds);
    if |seeds| == 0 then AlbumFetch([], None)
    else
      var req := RecsRequest(Take(seeds, SeedsPerRequest), total);
      AlbumFetch(Got(api, req), Some(req))
  }

  /** When the first album lists five or more tracks, all five seeds sent come
      from it; the other albums' seeds are gathered but never used. */
  lemma FirstAlbumSuppliesSeeds(api: Api, albumIds: seq<string>, total: nat)
    requires |albumIds| > 0
    requires api.albumTracks(albumIds[0]).Some? && |api.albumTracks(albumIds[0]).value| >= SeedsPerAlbum
    ensures FetchSimilarTracksFromAlbums(api, albumIds, total).request ==
              Some(RecsRequest(TrackIds(api.albumTracks(albumIds[0]).value)[..SeedsPerAlbum], total))
  {
  }
}
