/** The `/recommend` handler: read the posted selection, reset the model,
    gather candidates from Spotify, train on them, and answer with the
    nearest candidates (tracks) or their albums. */
module RecommendRoute {
  import opened Common
  import opened Items
  import opened Spotify
  import SimilarFetch
  import FeatureJoin
  import Knn

  /** How many similar tracks are fetched as candidates. */
  const CandidateCount: nat := 150

  /** `[item['id'] for item in data.get('selected_items', [])]` */
  function ItemIds(body: RecommendBody): (r: seq<string>)
    ensures body.selectedItems.None? ==> r == []
    ensures body.selectedItems.Some? ==> r == Ids(body.selectedItems.value)
  {
    Ids(body.selectedItems.GetOr([]))
  }

  /** `data.get('search_type', 'track')` */
  function SearchTypeOf(body: RecommendBody): (r: string)
    ensures body.searchType.None? ==> r == "track"
    ensures body.searchType.Some? ==> r == body.searchType.value
  {
    body.searchType.GetOr("track")
  }

  /** The answer: whole candidate rows for tracks, album objects for albums. */
  datatype Recommendations = TrackRecs(rows: seq<Row>) | AlbumRecs(albums: seq<Album>)

  /** The global model after the call, and the answer or the error raised. */
  datatype Reply = Reply(model: Knn.KnnModel, result: Result<Recommendations, Error>)

  /** `[item['audio_features'] for item in combined_data]`; never None, since
      the combine loops drop None features. */
  function FeaturesOf(rows: seq<Row>): (r: seq<Option<AudioFeatures>>)
    ensures |r| == |rows|
    ensures forall k :: 0 <= k < |rows| ==> r[k] == Some(rows[k].features)
  {
    if |rows| == 0 then [] else [Some(rows[0].features)] + FeaturesOf(rows[1..])
  }

  /** `combined_data` as the pool `recommend_tracks` indexes into. */
  function Pool(rows: seq<Row>): (r: seq<Option<Row>>)
    ensures |r| == |rows|
    ensures forall k :: 0 <= k < |rows| ==> r[k] == Some(rows[k])
  {
    if |rows| == 0 then [] else [Some(rows[0])] + Pool(rows[1..])
  }

  /** `combined_data` once every Spotify reply is in: the selected items' own
      rows, then the rows of the similar tracks. Empty for an unknown kind,
      which never gets past the branch. */
  function Candidates(api: Api, body: RecommendBody): (r: seq<Row>)
    ensures SearchTypeOf(body) in {"track", "album"} ==>
              FeatureJoin.GetTracksAndFeatures(api, ItemIds(body), SearchTypeOf(body)).rows <= r
    ensures SearchTypeOf(body) == "track" ==>
              r == FeatureJoin.GetTracksAndFeatures(api, ItemIds(body), "track").rows
                   + FeatureJoin.GetTracksAndFeatures(api, TrackIds(SimilarFetch.FetchSimilarSongs(api, ItemIds(body), CandidateCount).songs), "track").rows
    ensures SearchTypeOf(body) == "album" ==>
              r == FeatureJoin.GetTracksAndFeatures(api, ItemIds(body), "album").rows
                   + FeatureJoin.GetTracksAndFeatures(api, TrackIds(SimilarFetch.FetchSimilarTracksFromAlbums(api, ItemIds(body), CandidateCount).tracks), "track").rows
    ensures SearchTypeOf(body) !in {"track", "album"} ==> r == []
  {
    var ids := ItemIds(body);
    var searchType := SearchTypeOf(body);
    var own := FeatureJoin.GetTracksAndFeatures(api, ids, searchType).rows;
    if searchType == "track" then
      var similar := SimilarFetch.FetchSimilarSongs(api, ids, CandidateCount).songs;
      own + FeatureJoin.GetTracksAndFeatures(api, TrackIds(similar), "track").rows
    else if searchType == "album" then
      var similar := SimilarFetch.FetchSimilarTracksFromAlbums(api, ids, CandidateCount).tracks;
      own + FeatureJoin.GetTracksAndFeatures(api, TrackIds(similar), "track").rows
    else []
  }

  /** What `kneighbors` answers for one query on a model fitted to `n` rows
      with `min(10, n)` neighbours: that many indices, each naming a row. */
  predicate FitsModel(indices: seq<nat>, n: nat) {
    |indices| == Min(Knn.MaxNeighbors, n) && forall k :: 0 <= k < |indices| ==> indices[k] < n
  }

  /** Train on the candidates and pick the kept neighbours; `indices` is the
      fitted model's `kneighbors` answer. Training fails exactly when there
      are no candidates; otherwise the answer has at most `n_neighbors` rows. */
  function TrainAndRank(rows: seq<Row>, indices: seq<nat>, selectedIds: seq<string>): (r: (Knn.KnnModel, Result<seq<Row>, Error>))
    requires FitsModel(indices, |rows|)
    ensures r.1.Success? <==> |rows| > 0
    ensures r.1.Failure? ==> r == (Knn.Untrained, Failure(NoValidFeatures))
    ensures r.1.Success? ==> r.0 == Knn.Trained(|rows|, Min(Knn.MaxNeighbors, |rows|))
    ensures r.1.Success? ==> Knn.InRange(Pool(rows), indices) && r.1.value == Knn.Filtered(Pool(rows), indices, selectedIds)
    ensures r.1.Success? ==> |r.1.value| <= r.0.neighbors
    ensures r.1.Success? ==> forall k :: 0 <= k < |r.1.value| ==> r.1.value[k].track.Some? && r.1.value[k].track.value.id !in selectedIds
  {
    Knn.CountAllPresent(FeaturesOf(rows));
    match Knn.TrainKnn(FeaturesOf(rows))
    case Failure(e) => (Knn.Untrained, Failure(e))
    case Success(model) => (model, Knn.RecommendTracks(model, Pool(rows), indices, selectedIds))
  }

  /** `recommend()`. The global model is set to None before anything else, so
      `prior` (the model an earlier call left behind) is never read. */
  function Recommend(prior: Knn.KnnModel, api: Api, indices: seq<nat>, body: RecommendBody): (r: Reply)
    requires FitsModel(indices, |Candidates(api, body)|)
    ensures api.token.None? ==> r == Reply(Knn.Untrained, Failure(TokenFailure))
    ensures api.token.Some? && SearchTypeOf(body) != "track" && SearchTypeOf(body) != "album" ==>
              r == Reply(Knn.Untrained, Failure(UnknownSearchType))
    ensures api.token.Some? && (SearchTypeOf(body) == "track" || SearchTypeOf(body) == "album") ==>
              (r.result == Failure(NoValidFeatures) <==> Candidates(api, body) == [])
    ensures r.result != Failure(IndexOutOfRange)
    ensures r.result.Success? ==>
              r.model == Knn.Trained(|Candidates(api, body)|, Min(Knn.MaxNeighbors, |Candidates(api, body)|))
    ensures api.token.Some? && SearchTypeOf(body) == "track" && Candidates(api, body) != [] ==> r.result.Success?
    ensures api.token.Some? && SearchTypeOf(body) == "album" && Candidates(api, body) != [] ==>
              && Knn.InRange(Pool(Candidates(api, body)), indices)
              && var tracks := Knn.Filtered(Pool(Candidates(api, body)), indices, ItemIds(body));
                 && (r.result.Failure? <==> exists k :: 0 <= k < |tracks| && !Knn.HasAlbum(tracks[k]))
                 && (r.result.Failure? ==> r.result.error == MissingKey)
    ensures r.result.Success? ==> r.model.Trained?
    ensures r.model.Untrained? || (1 <= r.model.neighbors <= Knn.MaxNeighbors && r.model.neighbors <= r.model.size)
    ensures r.result.Success? ==> Knn.InRange(Pool(Candidates(api, body)), indices)
    ensures r.result.Success? && SearchTypeOf(body) == "track" ==>
              && Knn.InRange(Pool(Candidates(api, body)), indices)
              && r.result.value == TrackRecs(Knn.Filtered(Pool(Candidates(api, body)), indices, ItemIds(body)))
    ensures r.result.Success? && SearchTypeOf(body) == "album" ==>
              && Knn.InRange(Pool(Candidates(api, body)), indices)
              && var tracks := Knn.Filtered(Pool(Candidates(api, body)), indices, ItemIds(body));
                 && (forall k :: 0 <= k < |tracks| ==> Knn.HasAlbum(tracks[k]))
                 && r.result.value == AlbumRecs(Knn.Project(tracks, ItemIds(body)))
    ensures r.result.Success? && SearchTypeOf(body) == "track" ==>
              && r.result.value.TrackRecs?
              && |r.result.value.rows| <= r.model.neighbors
              && forall k :: 0 <= k < |r.result.value.rows| ==>
                   r.result.value.rows[k].track.Some? && r.result.value.rows[k].track.value.id !in ItemIds(body)
    ensures r.result.Success? && SearchTypeOf(body) == "album" ==>
              && r.result.value.AlbumRecs?
              && |r.result.value.albums| <= r.model.neighbors
              && forall k :: 0 <= k < |r.result.value.albums| ==> r.result.value.albums[k].id !in ItemIds(body)
  {
    var model := Knn.Untrained;
    var searchType := SearchTypeOf(body);
    if api.token.None? then Reply(model, Failure(TokenFailure))
    else if searchType != "track" && searchType != "album" then Reply(model, Failure(UnknownSearchType))
    else
      var ids := ItemIds(body);
      var (trained, ranked) := TrainAndRank(Candidates(api, body), indices, ids);
      match ranked
      case Failure(e) => Reply(trained, Failure(e))
      case Success(recs) =>
        if searchType == "track" then Reply(trained, Success(TrackRecs(recs)))
        else
          match Knn.AlbumsFromTracks(recs, ids)
          case Failure(e) => Reply(trained, Failure(e))
          case Success(albums) => Reply(trained, Success(AlbumRecs(albums)))
  }

  /** Nothing survives from an earlier call: the reply does not depend on the model left behind. */
  lemma RecommendIgnoresPriorModel(p: Knn.KnnModel, q: Knn.KnnModel, api: Api, indices: seq<nat>, body: RecommendBody)
    requires FitsModel(indices, |Candidates(api, body)|)
    ensures Recommend(p, api, indices, body) == Recommend(q, api, indices, body)
  {
  }

  /** In the track branch every candidate row comes from the tracks endpoint;
      when it never answers with `'tracks'` the call fails with the training
      error and leaves no model. */
  lemma NoTracksNoModel(prior: Knn.KnnModel, api: Api, indices: seq<nat>, body: RecommendBody)
    requires api.token.Some? && SearchTypeOf(body) == "track"
    requires forall ids :: api.tracks(ids).None?
    requires FitsModel(indices, |Candidates(api, body)|)
    ensures Recommend(prior, api, indices, body) == Reply(Knn.Untrained, Failure(NoValidFeatures))
  {
  }
}
