/** The data the recommender service reads from Spotify, and the Spotify Web
    API itself as a set of functions from request to parsed reply. Each reply
    is reduced to the one key the service reads; `None` means the key is
    missing (Spotify answered with an error object). */
module Spotify {
  import opened Common

  /** An album object; only its id is read. */
  datatype Album = Album(id: string)

  /** A track object. Full track objects carry their album; the simplified
      ones an album's track listing returns may not. */
  datatype Track = Track(id: string, album: Option<Album>)

  /** An audio-features object, opaque to everything but the kNN numerics. */
  datatype AudioFeatures = AudioFeatures(id: string)

  /** One `combined_data` entry: `{'track': …, 'audio_features': …}`.
      `track` is `None` when the entry has no `'track'` key. */
  datatype Row = Row(track: Option<Track>, features: AudioFeatures)

  /** `GET /recommendations?seed_tracks=…&limit=…` */
  datatype RecsRequest = RecsRequest(seeds: seq<string>, limit: nat)

  datatype Api = Api(
    token: Option<string>,                                        // 'access_token' of the token reply
    tracks: seq<string> -> Option<seq<Track>>,                    // GET /tracks?ids=…        -> 'tracks'
    audioFeatures: seq<string> -> Option<seq<Option<AudioFeatures>>>, // GET /audio-features?ids=… -> 'audio_features'
    albumTracks: string -> Option<seq<Track>>,                    // GET /albums/{id}/tracks  -> 'items'
    recommendations: RecsRequest -> Option<seq<Track>>)           // GET /recommendations     -> 'tracks'

  /** Why a `/recommend` call fails instead of answering. */
  datatype Error =
    | TokenFailure        // no access token: "Failed to fetch Spotify access token"
    | NoValidFeatures     // ValueError from train_knn_model
    | IndexOutOfRange     // a neighbour index outside combined_data
    | MissingKey          // KeyError reading track['track']['album']
    | UnknownSearchType   // search_type neither 'track' nor 'album': no recommendations bound

  /** `[t['id'] for t in tracks]` */
  function TrackIds(ts: seq<Track>): (r: seq<string>)
    ensures |r| == |ts|
    ensures forall k :: 0 <= k < |ts| ==> r[k] == ts[k].id
  {
    MapSeq(ts, (t: Track) => t.id)
  }
}
