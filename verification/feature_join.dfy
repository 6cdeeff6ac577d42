/** `get_tracks_and_audio_features`: fetch track objects (or each selected
    album's track listing) and their audio features, and pair them up. */
module FeatureJoin {
  import opened Common
  import opened Spotify

  /** The album branch asks for the features of at most this many track ids. */
  const MaxFeatureIds: nat := 100

  /** The combine loop: `zip` tracks with features by position, stopping at the
      shorter list, and keep the pairs whose feature is not None. */
  function Pair(tracks: seq<Track>, features: seq<Option<AudioFeatures>>): (r: seq<Row>)
    ensures |r| <= Min(|tracks|, |features|)
    ensures forall k :: 0 <= k < |r| ==> r[k].track.Some?
    decreases |tracks|
  {
    if |tracks| == 0 || |features| == 0 then []
    else
      (if features[0].Some? then [Row(Some(tracks[0]), features[0].value)] else [])
      + Pair(tracks[1..], features[1..])
  }

  /** A row comes out exactly for each zipped position whose feature is present. */
  lemma {:induction false} PairMembers(tracks: seq<Track>, features: seq<Option<AudioFeatures>>, row: Row)
    ensures row in Pair(tracks, features) <==>
              exists k :: 0 <= k < Min(|tracks|, |features|) && features[k] == Some(row.features) && row.track == Some(tracks[k])
    decreases |tracks|
  {
    if |tracks| > 0 && |features| > 0 {
      PairMembers(tracks[1..], features[1..], row);
      var head := if features[0].Some? then [Row(Some(tracks[0]), features[0].value)] else [];
      assert Pair(tracks, features) == head + Pair(tracks[1..], features[1..]);
      if row in Pair(tracks[1..], features[1..]) {
        var k :| 0 <= k < Min(|tracks[1..]|, |features[1..]|) && features[1..][k] == Some(row.features) && row.track == Some(tracks[1..][k]);
        assert features[k + 1] == Some(row.features) && row.track == Some(tracks[k + 1]);
      }
      if exists k :: 0 <= k < Min(|tracks|, |features|) && features[k] == Some(row.features) && row.track == Some(tracks[k]) {
        var k :| 0 <= k < Min(|tracks|, |features|) && features[k] == Some(row.features) && row.track == Some(tracks[k]);
        if k > 0 {
          assert features[1..][k - 1] == Some(row.features) && row.track == Some(tracks[1..][k - 1]);
        } else {
          assert row == Row(Some(tracks[0]), features[0].value);
        }
      }
    }
  }

  /** Pairing follows input order: it distributes over concatenation of
      equally long track and feature lists. */
  lemma {:induction false} PairAppend(t1: seq<Track>, t2: seq<Track>, f1: seq<Option<AudioFeatures>>, f2: seq<Option<AudioFeatures>>)
    requires |t1| == |f1|
    ensures Pair(t1 + t2, f1 + f2) == Pair(t1, f1) + Pair(t2, f2)
    decreases |t1|
  {
    if |t1| == 0 {
      assert t1 + t2 == t2 && f1 + f2 == f2;
    } else {
      assert (t1 + t2)[0] == t1[0] && (f1 + f2)[0] == f1[0];
      assert (t1 + t2)[1..] == t1[1..] + t2 && (f1 + f2)[1..] == f1[1..] + f2;
      PairAppend(t1[1..], t2, f1[1..], f2);
    }
  }

  /** With no None feature nothing is dropped: the output is as long as the shorter list. */
  lemma {:induction false} PairNoneDropped(tracks: seq<Track>, features: seq<Option<AudioFeatures>>)
    requires forall k :: 0 <= k < |features| ==> features[k].Some?
    ensures |Pair(tracks, features)| == Min(|tracks|, |features|)
    decreases |tracks|
  {
    if |tracks| > 0 && |features| > 0 {
      assert forall k :: 0 <= k < |features[1..]| ==> features[1..][k] == features[k + 1];
      PairNoneDropped(tracks[1..], features[1..]);
    }
  }

  /** The rows built and the id lists sent to the audio-features endpoint. */
  datatype Joined = Joined(rows: seq<Row>, featureRequests: seq<seq<string>>)

  /** The track branch: tracks and features are both requested for all ids. */
  function TrackJoin(api: Api, ids: seq<string>): (r: Joined)
    ensures api.tracks(ids).None? ==> r == Joined([], [])
    ensures api.tracks(ids).Some? ==>
              && r.featureRequests == [ids]
              && r.rows == Pair(api.tracks(ids).value, api.audioFeatures(ids).GetOr([]))
              && |r.rows| <= Min(|api.tracks(ids).value|, |api.audioFeatures(ids).GetOr([])|)
  {
    match api.tracks(ids)
    case None => Joined([], [])
    case Some(ts) => Joined(Pair(ts, api.audioFeatures(ids).GetOr([])), [ids])
  }

  /** One album of the album branch: skipped without `'items'` or when empty;
      otherwise features for its first 100 track ids, paired with its tracks. */
  function AlbumJoin(api: Api, albumId: string): (r: Joined)
    ensures forall k :: 0 <= k < |r.featureRequests| ==> 0 < |r.featureRequests[k]| <= MaxFeatureIds
    ensures |r.featureRequests| <= 1
    ensures api.albumTracks(albumId).None? || |api.albumTracks(albumId).value| == 0 ==> r == Joined([], [])
    ensures api.albumTracks(albumId).Some? && |api.albumTracks(albumId).value| > 0 ==>
              var items := api.albumTracks(albumId).value;
              var req := Take(TrackIds(items), MaxFeatureIds);
              && r.featureRequests == [req]
              && r.rows == Pair(items, api.audioFeatures(req).GetOr([]))
  {
    match api.albumTracks(albumId)
    case None => Joined([], [])
    case Some(items) =>
      var ids := TrackIds(items);
      if |ids| == 0 then Joined([], [])
      else
        var req := Take(ids, MaxFeatureIds);
        Joined(Pair(items, api.audioFeatures(req).GetOr([])), [req])
  }

  /** The album loop over all selected albums. */
  function AlbumsJoin(api: Api, albumIds: seq<string>): (r: Joined)
    ensures forall k :: 0 <= k < |r.featureRequests| ==> 0 < |r.featureRequests[k]| <= MaxFeatureIds
    ensures |r.featureRequests| <= |albumIds|
    ensures forall k :: 0 <= k < |r.rows| ==> r.rows[k].track.Some?
    ensures |albumIds| == 0 ==> r == Joined([], [])
    ensures |albumIds| == 1 ==> r == AlbumJoin(api, albumIds[0])
  {
    if |albumIds| == 0 then Joined([], [])
    else
      var one := AlbumJoin(api, albumIds[0]);
      var rest := AlbumsJoin(api, albumIds[1..]);
      Joined(one.rows + rest.rows, one.featureRequests + rest.featureRequests)
  }

  /** The album loop follows album order: it distributes over concatenation
      of the album lists, rows and feature requests alike. */
  lemma {:induction false} AlbumsJoinAppend(api: Api, a: seq<string>, b: seq<string>)
    ensures AlbumsJoin(api, a + b).rows == AlbumsJoin(api, a).rows + AlbumsJoin(api, b).rows
    ensures AlbumsJoin(api, a + b).featureRequests == AlbumsJoin(api, a).featureRequests + AlbumsJoin(api, b).featureRequests
  {
    if |a| == 0 {
      assert a + b == b;
    } else {
      assert (a + b)[0] == a[0];
      assert (a + b)[1..] == a[1..] + b;
      AlbumsJoinAppend(api, a[1..], b);
    }
  }

  /** Every row of the album branch pairs a track listed by one of the
      selected albums whose reply had `'items'`. */
  lemma {:induction false} AlbumRowsFromListings(api: Api, albumIds: seq<string>, row: Row)
    requires row in AlbumsJoin(api, albumIds).rows
    ensures exists k :: 0 <= k < |albumIds| && api.albumTracks(albumIds[k]).Some? &&
              row.track.Some? && row.track.value in api.albumTracks(albumIds[k]).value
  {
    var one := AlbumJoin(api, albumIds[0]);
    if row in one.rows {
      var items := api.albumTracks(albumIds[0]).value;
      PairMembers(items, api.audioFeatures(Take(TrackIds(items), MaxFeatureIds)).GetOr([]), row);
      var j :| 0 <= j < |items| && row.track == Some(items[j]);
      assert row.track.value in api.albumTracks(albumIds[0]).value;
    } else {
      AlbumRowsFromListings(api, albumIds[1..], row);
      var k :| 0 <= k < |albumIds[1..]| && api.albumTracks(albumIds[1..][k]).Some? &&
               row.track.Some? && row.track.value in api.albumTracks(albumIds[1..][k]).value;
      assert albumIds[1..][k] == albumIds[k + 1];
    }
  }

  /** `get_tracks_and_audio_features(item_ids, search_type, token)`. */
  function GetTracksAndFeatures(api: Api, itemIds: seq<string>, searchType: string): (r: Joined)
    ensures searchType != "track" && searchType != "album" ==> r == Joined([], [])
    ensures searchType == "track" && api.tracks(itemIds).None? ==> r == Joined([], [])
    ensures searchType == "track" && api.tracks(itemIds).Some? ==>
              && r.featureRequests == [itemIds]
              && r.rows == Pair(api.tracks(itemIds).value, api.audioFeatures(itemIds).GetOr([]))
              && |r.rows| <= Min(|api.tracks(itemIds).value|, |api.audioFeatures(itemIds).GetOr([])|)
    ensures searchType == "album" ==> r == AlbumsJoin(api, itemIds)
    ensures searchType == "album" ==>
              forall k :: 0 <= k < |r.featureRequests| ==> 0 < |r.featureRequests[k]| <= MaxFeatureIds
    ensures forall k :: 0 <= k < |r.rows| ==> r.rows[k].track.Some?
  {
    if searchType == "track" then TrackJoin(api, itemIds)
    else if searchType == "album" then AlbumsJoin(api, itemIds)
    else Joined([], [])
  }
}
