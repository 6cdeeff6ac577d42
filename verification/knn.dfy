/** The list logic around the nearest-neighbour model: how large a
    neighbourhood is trained (`train_knn_model`), which neighbours survive as
    recommendations (`recommend_tracks`), and how recommended tracks become
    recommended albums (`recommend_albums_from_tracks`). The float numerics
    (scaling, averaging, distances) are not modelled; the neighbour indices
    are an input. */
module Knn {
  import opened Common
  import opened Spotify

  /** `NearestNeighbors` is asked for at most this many neighbours. */
  const MaxNeighbors: nat := 10

  /** The global `knn_model`: None, or fitted on `size` feature rows and
      answering with `neighbors` indices per query. */
  datatype KnnModel = Untrained | Trained(size: nat, neighbors: nat)

  /** How many features are not None (the rows of the feature matrix). */
  function CountPresent(fs: seq<Option<AudioFeatures>>): (n: nat)
    ensures n <= |fs|
    ensures n == 0 <==> forall k :: 0 <= k < |fs| ==> fs[k].None?
  {
    if |fs| == 0 then 0
    else
      var rest := CountPresent(fs[1..]);
      assert (forall k :: 0 <= k < |fs| ==> fs[k].None?) <==>
             fs[0].None? && forall k :: 0 <= k < |fs[1..]| ==> fs[1..][k].None? by {
        if forall k :: 0 <= k < |fs[1..]| ==> fs[1..][k].None? {
          forall k | 1 <= k < |fs| ensures fs[k].None? {
            assert fs[k] == fs[1..][k - 1];
          }
        }
      }
      (if fs[0].Some? then 1 else 0) + rest
  }

  /** The count distributes over concatenation; with the two clauses above
      fixing a one-element list, it is the number of present features. */
  lemma {:induction false} CountPresentAppend(a: seq<Option<AudioFeatures>>, b: seq<Option<AudioFeatures>>)
    ensures CountPresent(a + b) == CountPresent(a) + CountPresent(b)
  {
    if |a| == 0 {
      assert a + b == b;
    } else {
      assert (a + b)[0] == a[0];
      assert (a + b)[1..] == a[1..] + b;
      CountPresentAppend(a[1..], b);
    }
  }

  /** With no None feature, every feature is a row of the matrix. */
  lemma {:induction false} CountAllPresent(fs: seq<Option<AudioFeatures>>)
    requires forall k :: 0 <= k < |fs| ==> fs[k].Some?
    ensures CountPresent(fs) == |fs|
  {
    if |fs| > 0 {
      assert forall k :: 0 <= k < |fs[1..]| ==> fs[1..][k] == fs[k + 1];
      CountAllPresent(fs[1..]);
    }
  }

  /** `train_knn_model(audio_features)`: raises when no feature is present,
      otherwise fits with `min(10, n)` neighbours. */
  function TrainKnn(features: seq<Option<AudioFeatures>>): (r: Result<KnnModel, Error>)
    ensures r.Failure? <==> forall k :: 0 <= k < |features| ==> features[k].None?
    ensures r.Failure? ==> r.error == NoValidFeatures
    ensures r.Success? ==>
              && r.value.Trained?
              && r.value.size == CountPresent(features)
              && 1 <= r.value.neighbors <= MaxNeighbors
              && r.value.neighbors <= r.value.size
              && (r.value.neighbors == MaxNeighbors || r.value.neighbors == r.value.size)
  {
    var n := CountPresent(features);
    if n == 0 then Failure(NoValidFeatures)
    else Success(Trained(n, Min(MaxNeighbors, n)))
  }

  /** Whether a neighbour entry is recommended: it exists, has a track, and
      that track was not one of the selected items. */
  predicate Keep(entry: Option<Row>, selectedIds: seq<string>) {
    entry.Some? && entry.value.track.Some? && entry.value.track.value.id !in selectedIds
  }

  /** Every index names an entry of the pool. */
  predicate InRange(pool: seq<Option<Row>>, indices: seq<nat>) {
    forall k :: 0 <= k < |indices| ==> indices[k] < |pool|
  }

  /** The two comprehensions of `recommend_tracks`, in neighbour order. */
  function Filtered(pool: seq<Option<Row>>, indices: seq<nat>, selectedIds: seq<string>): (r: seq<Row>)
    requires InRange(pool, indices)
    ensures |r| <= |indices|
    ensures forall k :: 0 <= k < |r| ==> r[k].track.Some? && r[k].track.value.id !in selectedIds
    decreases |indices|
  {
    if |indices| == 0 then []
    else
      var entry := pool[indices[0]];
      (if Keep(entry, selectedIds) then [entry.value] else []) + Filtered(pool, indices[1..], selectedIds)
  }

  /** A row is recommended exactly when some neighbour index points at it and it passes `Keep`. */
  lemma {:induction false} FilteredMembers(pool: seq<Option<Row>>, indices: seq<nat>, selectedIds: seq<string>, row: Row)
    requires InRange(pool, indices)
    ensures row in Filtered(pool, indices, selectedIds) <==>
              exists k :: 0 <= k < |indices| && pool[indices[k]] == Some(row) && Keep(Some(row), selectedIds)
    decreases |indices|
  {
    if |indices| > 0 {
      FilteredMembers(pool, indices[1..], selectedIds, row);
      if exists k :: 0 <= k < |indices[1..]| && pool[indices[1..][k]] == Some(row) && Keep(Some(row), selectedIds) {
        var k :| 0 <= k < |indices[1..]| && pool[indices[1..][k]] == Some(row) && Keep(Some(row), selectedIds);
        assert indices[1..][k] == indices[k + 1];
      }
      if exists k :: 0 <= k < |indices| && pool[indices[k]] == Some(row) && Keep(Some(row), selectedIds) {
        var k :| 0 <= k < |indices| && pool[indices[k]] == Some(row) && Keep(Some(row), selectedIds);
        if k > 0 {
          assert indices[1..][k - 1] == indices[k];
        }
      }
    }
  }

  /** The filter keeps neighbour order: it distributes over concatenation of index lists. */
  lemma {:induction false} FilteredAppend(pool: seq<Option<Row>>, a: seq<nat>, b: seq<nat>, selectedIds: seq<string>)
    requires InRange(pool, a) && InRange(pool, b)
    ensures InRange(pool, a + b)
    ensures Filtered(pool, a + b, selectedIds) == Filtered(pool, a, selectedIds) + Filtered(pool, b, selectedIds)
    decreases |a|
  {
    assert forall k :: 0 <= k < |a + b| ==> (a + b)[k] == if k < |a| then a[k] else b[k - |a|];
    if |a| == 0 {
      assert a + b == b;
    } else {
      assert (a + b)[0] == a[0];
      assert (a + b)[1..] == a[1..] + b;
      assert InRange(pool, a[1..]) by {
        forall k | 0 <= k < |a[1..]| ensures a[1..][k] < |pool| {
          assert a[1..][k] == a[k + 1];
        }
      }
      FilteredAppend(pool, a[1..], b, selectedIds);
    }
  }

  /** `recommend_tracks(...)` with the model's neighbour indices as input: nothing
      when no model is trained; an IndexError when an index is outside the
      pool; otherwise the kept neighbours. */
  function RecommendTracks(model: KnnModel, pool: seq<Option<Row>>, indices: seq<nat>, selectedIds: seq<string>): (r: Result<seq<Row>, Error>)
    ensures model.Untrained? ==> r == Success([])
    ensures model.Trained? ==> (r.Failure? <==> exists k :: 0 <= k < |indices| && indices[k] >= |pool|)
    ensures r.Failure? ==> r.error == IndexOutOfRange
    ensures model.Trained? && InRange(pool, indices) ==> r == Success(Filtered(pool, indices, selectedIds))
    ensures r.Success? ==> |r.value| <= |indices|
    ensures r.Success? ==> forall k :: 0 <= k < |r.value| ==> r.value[k].track.Some? && r.value[k].track.value.id !in selectedIds
  {
    if model.Untrained? then Success([])
    else if InRange(pool, indices) then Success(Filtered(pool, indices, selectedIds))
    else Failure(IndexOutOfRange)
  }

  /** `track['track']['album']` can be read. */
  predicate HasAlbum(row: Row) {
    row.track.Some? && row.track.value.album.Some?
  }

  /** The loop of `recommend_albums_from_tracks` on rows that all have an album. */
  function Project(rows: seq<Row>, selectedAlbumIds: seq<string>): (r: seq<Album>)
    requires forall k :: 0 <= k < |rows| ==> HasAlbum(rows[k])
    ensures |r| <= |rows|
    ensures forall k :: 0 <= k < |r| ==> r[k].id !in selectedAlbumIds
    decreases |rows|
  {
    if |rows| == 0 then []
    else
      assert HasAlbum(rows[0]);
      var album := rows[0].track.value.album.value;
      (if album.id !in selectedAlbumIds then [album] else []) + Project(rows[1..], selectedAlbumIds)
  }

  /** An album is recommended exactly when some row's track belongs to it and it was not selected. */
  lemma {:induction false} ProjectMembers(rows: seq<Row>, selectedAlbumIds: seq<string>, album: Album)
    requires forall k :: 0 <= k < |rows| ==> HasAlbum(rows[k])
    ensures album in Project(rows, selectedAlbumIds) <==>
              album.id !in selectedAlbumIds && exists k :: 0 <= k < |rows| && rows[k].track.value.album == Some(album)
    decreases |rows|
  {
    if |rows| > 0 {
      ProjectMembers(rows[1..], selectedAlbumIds, album);
      if exists k :: 0 <= k < |rows[1..]| && rows[1..][k].track.value.album == Some(album) {
        var k :| 0 <= k < |rows[1..]| && rows[1..][k].track.value.album == Some(album);
        assert rows[k + 1] == rows[1..][k];
      }
      if exists k :: 0 <= k < |rows| && rows[k].track.value.album == Some(album) {
        var k :| 0 <= k < |rows| && rows[k].track.value.album == Some(album);
        if k > 0 {
          assert rows[1..][k - 1] == rows[k];
        }
      }
    }
  }

  /** The projection keeps track order: it distributes over concatenation. */
  lemma {:induction false} ProjectAppend(a: seq<Row>, b: seq<Row>, selectedAlbumIds: seq<string>)
    requires forall k :: 0 <= k < |a| ==> HasAlbum(a[k])
    requires forall k :: 0 <= k < |b| ==> HasAlbum(b[k])
    ensures forall k :: 0 <= k < |a + b| ==> HasAlbum((a + b)[k])
    ensures Project(a + b, selectedAlbumIds) == Project(a, selectedAlbumIds) + Project(b, selectedAlbumIds)
    decreases |a|
  {
    assert forall k :: 0 <= k < |a + b| ==> (a + b)[k] == if k < |a| then a[k] else b[k - |a|];
    if |a| == 0 {
      assert a + b == b;
    } else {
      assert (a + b)[0] == a[0];
      assert (a + b)[1..] == a[1..] + b;
      ProjectAppend(a[1..], b, selectedAlbumIds);
    }
  }

  /** Two tracks of the same unselected album recommend that album twice:
      duplicates are not removed. */
  lemma ProjectKeepsDuplicates(x: Track, y: Track, album: Album)
    requires x.album == Some(album) && y.album == Some(album)
    ensures Project([Row(Some(x), AudioFeatures(x.id)), Row(Some(y), AudioFeatures(y.id))], []) == [album, album]
  {
  }

  /** `recommend_albums_from_tracks(recommended_tracks, selected_album_ids)`:
      a KeyError when some row has no track or its track no album. */
  function AlbumsFromTracks(rows: seq<Row>, selectedAlbumIds: seq<string>): (r: Result<seq<Album>, Error>)
    ensures r.Failure? <==> exists k :: 0 <= k < |rows| && !HasAlbum(rows[k])
    ensures r.Failure? ==> r.error == MissingKey
    ensures r.Success? ==> (forall k :: 0 <= k < |rows| ==> HasAlbum(rows[k])) && r.value == Project(rows, selectedAlbumIds)
    ensures r.Success? ==> |r.value| <= |rows|
    ensures r.Success? ==> forall k :: 0 <= k < |r.value| ==> r.value[k].id !in selectedAlbumIds
  {
    if forall k :: 0 <= k < |rows| ==> HasAlbum(rows[k]) then Success(Project(rows, selectedAlbumIds))
    else Failure(MissingKey)
  }
}
