/** The contract between the page and the recommender: what the page posts is
    what the handler reads. */
module Wire {
  import opened Common
  import opened Items
  import Search
  import Spotify
  import Knn
  import RecommendRoute

  /** The handler reads back exactly the selection's ids, in order, and one of
      the two kinds it serves, so a page request never hits the
      unknown-kind error. */
  lemma PageBodyIsUnderstood(s: Search.SearchState, api: Spotify.Api, indices: seq<nat>, prior: Knn.KnnModel)
    requires RecommendRoute.FitsModel(indices, |RecommendRoute.Candidates(api, Search.RequestBody(s))|)
    ensures RecommendRoute.ItemIds(Search.RequestBody(s)) == Ids(s.selected)
    ensures RecommendRoute.SearchTypeOf(Search.RequestBody(s)) in {"track", "album"}
    ensures RecommendRoute.Recommend(prior, api, indices, Search.RequestBody(s)).result != Failure(Spotify.UnknownSearchType)
  {
  }
}
