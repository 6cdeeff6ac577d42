# Muse search and recommendation logic, in Dafny

Muse is a small web application: a React page searches Spotify for tracks or
albums, lets the user select at least ten items, and posts them to a Flask
service that builds a nearest-neighbour model over Spotify audio features and
answers with recommended tracks or albums. This project models the list and
state logic of both halves as pure functions over immutable values and proves
what they guarantee. Every Spotify reply, the access token and the neighbour
indices of the kNN model are parameters.

Modules, following the program's structure:

- `Common`: `Option`, `Result`, `Min`, Python-style `Take` and `Flatten`.
- `Items`: the two kinds (`track`, `album`), a search item, the body posted to `/recommend`.
- `Selection`: `toggleSelectItem`'s selection rules (src/components/Search.js).
- `Debounce`: the 500 ms debounce of the search box as a discrete-time timer.
- `Search`: the page state (`query`, `debouncedQuery`, `searchType`, `results`,
  `selectedItems`, `recommendations`, `searchCompleted`), every transition, an
  event-driven `Step`/`Run`, and the invariants of reachable states.
- `TypeToggle`: the Song/Album buttons of src/components/Toggle.js.
- `Spotify`: the backend's view of Spotify data and the Web API as functions.
- `SimilarFetch`: `fetch_similar_songs` and `fetch_similar_tracks_from_albums`.
- `FeatureJoin`: `get_tracks_and_audio_features`.
- `Knn`: `train_knn_model` (sizes only), `recommend_tracks` (filtering only),
  `recommend_albums_from_tracks`.
- `RecommendRoute`: the `/recommend` handler end to end.
- `Wire`: what the page posts is what the handler reads.

Facts about the code that shape the model:

- Restart (src/components/Search.js:87-93) sets `query` to `""` and clears
  results, selection, recommendations and `searchCompleted`. It keeps
  `searchType` and does not touch `debouncedQuery`; the debounce timer sets
  that to `""` 500 ms later (`Search.RestartSettlesToInitial`).
- The page has no request-in-flight flag. A recommendation request is one
  sequential step that clears the old list first.
- The kind check (src/components/Search.js:46-49) looks only at the first
  selected item, never at the clicked item's own kind. A selection stays of
  one kind when every clicked item is of the active kind (`Search.RunKeepsGood`);
  a click of the other kind can mix them (`Selection.MixedWhenClickedKindDiffers`).
- backend/recommender.py is modelled as well as the page.
- A search request that throws is not caught; the results stay as they were.

## Model

| member | source | states |
|---|---|---|
| Selection.RemoveId | src/components/Search.js:59 | the result holds exactly the entries whose id differs from the given one, and is no longer than the input |
| Selection.RemoveIdAppend | src/components/Search.js:59 | removal distributes over concatenation, so the remaining entries keep their relative order |
| Selection.RemoveIdAbsent | src/components/Search.js:59 | removing an id that is not present returns the selection unchanged |
| Selection.RemoveIdDistinct | src/components/Search.js:57-59 | on a selection with distinct ids, removal keeps them distinct and removes exactly one entry when the id is present |
| Selection.Toggle | src/components/Search.js:44-65 | selection of the other kind than the active one: result is exactly `[item]`; otherwise a present id is removed (the result is `RemoveId` of it: no entry keeps the id and every other entry stays) and an absent item is appended at the end; distinct ids stay distinct |
| Selection.ToggleTwiceRestores | src/components/Search.js:57-62 | clicking an absent item of the active kind twice returns the original selection |
| Selection.ToggleKeepsType | src/components/Search.js:49-62 | if the selection and the clicked item are of the active kind, so is the result |
| Selection.MixedWhenClickedKindDiffers | src/components/Search.js:49-62 | with a track selected and tracks active, clicking an album yields a mixed selection, because the clicked item's kind is never checked |
| Selection.MismatchIgnoresMembership | src/components/Search.js:49-54 | on a kind mismatch the result is `[item]` even if the item was already selected |
| Debounce.SetQuery | src/components/Search.js:15-23 | a changed query cancels the pending timer and arms a fresh 500 ms one; an unchanged value leaves the timer alone |
| Debounce.Advance | src/components/Search.js:16-18 | the timer fires exactly when the elapsed time reaches what was left; it emits the query current at that moment, and the debounced query becomes that value; a shorter pause only counts the time left down by its length |
| Debounce.BurstEmitsOnce | src/components/Search.js:15-23 | edits less than 500 ms apart, then a pause of 500 ms or more: the timer fires exactly once, carrying the final value |
| Debounce.PausesAdd | src/components/Search.js:16-18 | two pauses in which the timer does not fire leave it exactly as one pause of their combined length |
| Debounce.PausesCountDown | src/components/Search.js:16-18 | pauses totalling less than the time left emit nothing and leave the timer armed with the time left minus their sum |
| Debounce.ChangeThenShortPausesAreSilent | src/components/Search.js:15-23 | after a change of the query, any run of pauses totalling less than 500 ms emits nothing |
| Search.Initial | src/components/Search.js:6-12 | the mount state satisfies the invariant, with an empty selection, kind track, not completed |
| Search.DeriveResults | src/components/Search.js:28-37 | results are empty for an empty debounced query; otherwise `tracks.items` for tracks or `albums.items` for albums; empty when that field is absent |
| Search.ApplySearch | src/components/Search.js:26-41 | only the results change; an empty query clears them without a request; a failed request changes nothing |
| Search.ClickItem | src/components/Search.js:44-65 | the selection becomes `Selection.Toggle` of the click and nothing else changes; when the alert is raised the selection is exactly the clicked item; it keeps distinct ids, and it keeps a single kind when the clicked item is of the active kind |
| Search.FlipSearchType | src/components/Search.js:109-112 | the kind becomes the other one, the selection is empty, nothing else changes |
| Search.SentBody | src/components/Search.js:189-199 | a recommendation request is sent exactly when the button is shown (not completed, at least 10 selected), carrying the selection and the kind |
| Search.GetRecommendations | src/components/Search.js:68-84 | success: recommendations are the reply (empty for a null reply), completed is set, the selection is emptied; failure: only the recommendations are cleared; no earlier recommendation survives |
| Search.Restart | src/components/Search.js:87-93 | query, results, selection and recommendations are emptied and completed is cleared; the kind is kept |
| Search.RestartSettlesToInitial | src/components/Search.js:87-93 | one debounce window after a restart the state equals the mount state, except for the kind |
| Search.StepKeepsGood | src/components/Search.js:44-112 | every event keeps the invariant (valid timer, distinct ids, all selected of the active kind) when a clicked item is of the active kind |
| Search.RunKeepsGood | src/components/Search.js:44-112 | every state reached by such events satisfies the invariant, so the selection never mixes kinds |
| Search.RunKeepsDistinctIds | src/components/Search.js:54-62 | selected ids stay pairwise distinct in every reachable state, whatever is clicked |
| TypeToggle.HandleSearchType | src/components/Toggle.js:8-11 | the kind becomes exactly the one passed, the selection is emptied, nothing else changes |
| TypeToggle.ButtonType | src/components/Toggle.js:17-29 | the Song button passes `"track"` and the Album button `"album"` |
| TypeToggle.PressOtherIsFlip | src/components/Toggle.js:8-11 | pressing the other kind's button has the same effect as the checkbox |
| TypeToggle.PressSameClears | src/components/Toggle.js:8-11 | pressing the active kind's button still clears the selection and changes nothing else |
| SimilarFetch.Chunks | backend/recommender.py:78-79 | there are `ceil(n / 5)` chunks |
| SimilarFetch.ChunkAt | backend/recommender.py:78-79 | chunk k is the slice of the seeds from index 5k, up to five long |
| SimilarFetch.ChunksPartition | backend/recommender.py:78-79 | the chunks concatenated are the seeds, and each holds one to five of them |
| SimilarFetch.CollectedAppend | backend/recommender.py:84-85 | the tracks gathered by consecutive requests are the concatenation of their replies, in request order |
| SimilarFetch.FetchFrom | backend/recommender.py:78-91 | the requests are the leading chunks in order with a fixed limit; the first chunk, if any, is always requested; the gathered list is the accumulated replies; no request follows once the count reaches the total; either all chunks were requested or the total was reached |
| SimilarFetch.FetchSimilarSongs | backend/recommender.py:73-93 | the result is the first `min(total, gathered)` gathered tracks; requests are the leading chunks, each with `limit = min(50, total)`; with any seeds at least one request is made, even for a total of 0; requests stop once the total is reached |
| SimilarFetch.FetchSimilarSongsAllChunks | backend/recommender.py:90-93 | when fewer than the total were gathered, the result is all replies concatenated |
| SimilarFetch.SeedsOf | backend/recommender.py:42-49 | an album whose reply has no `items` contributes nothing; otherwise exactly its first `min(5, n)` track ids, in listing order |
| SimilarFetch.AlbumSeeds | backend/recommender.py:42-51 | a single album contributes exactly its `SeedsOf`; at most five seeds per album, each one of the first five track ids of an album whose reply had items |
| SimilarFetch.AlbumSeedsAppend | backend/recommender.py:42-49 | seeds follow album order |
| SimilarFetch.FetchSimilarTracksFromAlbums | backend/recommender.py:35-71 | no recommendations request and no tracks when no seeds were found; otherwise one request with limit `total_tracks` carrying the first `min(5, seeds found)` seeds, answered by its `tracks` or nothing |
| SimilarFetch.FirstAlbumSuppliesSeeds | backend/recommender.py:49-59 | if the first album lists five or more tracks, the five seeds sent are its first five track ids |
| FeatureJoin.Pair | backend/recommender.py:115-120 | at most as many rows as the shorter of tracks and features; every row has a track |
| FeatureJoin.PairMembers | backend/recommender.py:115-120 | a row is produced exactly for each zipped position whose feature is not None |
| FeatureJoin.PairAppend | backend/recommender.py:115-120 | pairing distributes over concatenation, so rows follow input order |
| FeatureJoin.PairNoneDropped | backend/recommender.py:115-120 | with no None feature, the output is as long as the shorter list |
| FeatureJoin.TrackJoin | backend/recommender.py:101-121 | without `tracks` nothing and no features request; otherwise one features request for all ids, and the rows are `Pair` of the tracks with that reply |
| FeatureJoin.AlbumJoin | backend/recommender.py:125-145 | an album without `items`, or with an empty listing, adds nothing and sends no request; otherwise exactly one features request for its first 100 track ids, and the rows are its listing paired with that reply |
| FeatureJoin.AlbumsJoin | backend/recommender.py:124-145 | no albums give nothing; one album gives exactly `AlbumJoin` of it; at most one features request per album, each with 1 to 100 ids; every row has a track |
| FeatureJoin.AlbumsJoinAppend | backend/recommender.py:125-145 | the album loop distributes over concatenation, so rows and requests follow album order |
| FeatureJoin.AlbumRowsFromListings | backend/recommender.py:124-145 | every row of the album branch pairs a track listed by one of the selected albums whose reply had items |
| FeatureJoin.GetTracksAndFeatures | backend/recommender.py:95-147 | unknown kind: nothing; track branch without `tracks`: nothing and no features request; otherwise one features request for all ids and the rows are `Pair` of the tracks with that reply; the album branch is exactly the album loop |
| Knn.CountPresent | backend/recommender.py:149-152 | the count of non-None features is zero exactly when all are None, and at most the length |
| Knn.CountPresentAppend | backend/recommender.py:150 | the count distributes over concatenation, so it is the number of non-None features |
| Knn.CountAllPresent | backend/recommender.py:149-154 | with no None feature, every feature becomes a row of the matrix |
| Knn.TrainKnn | backend/recommender.py:158-166 | fails exactly when no feature is present; otherwise trained on the present count n with `min(10, n)` neighbours, between 1 and 10 and at most n |
| Knn.Filtered | backend/recommender.py:177-181 | at most one row per neighbour index; every row has a track whose id is not selected |
| Knn.FilteredMembers | backend/recommender.py:177-181 | a row is kept exactly when a neighbour index points at it, it has a track, and that track's id is not selected |
| Knn.FilteredAppend | backend/recommender.py:177-181 | the filter distributes over concatenated index lists, so the kept rows follow neighbour order |
| Knn.RecommendTracks | backend/recommender.py:168-182 | nothing without a trained model; an IndexError exactly when some neighbour index is outside the pool; otherwise exactly `Filtered` of the pool by the indices: at most one row per index, none with a selected track id |
| Knn.Project | backend/recommender.py:184-192 | at most one album per track, none of them selected |
| Knn.ProjectMembers | backend/recommender.py:184-192 | an album is returned exactly when it is unselected and some track belongs to it |
| Knn.ProjectAppend | backend/recommender.py:184-192 | the projection distributes over concatenation, so albums follow track order |
| Knn.ProjectKeepsDuplicates | backend/recommender.py:187-190 | two tracks of one unselected album yield that album twice |
| Knn.AlbumsFromTracks | backend/recommender.py:184-192 | a KeyError exactly when some track lacks an album; otherwise exactly `Project` of the tracks: at most one album per track, none selected |
| RecommendRoute.ItemIds | backend/recommender.py:201-204 | the ids of the posted items in order, or none when the key is missing |
| RecommendRoute.SearchTypeOf | backend/recommender.py:202 | the posted kind, or `"track"` when the key is missing |
| RecommendRoute.FeaturesOf | backend/recommender.py:213 | one present feature per candidate row, in order |
| RecommendRoute.Pool | backend/recommender.py:214 | one present entry per candidate row, in order |
| RecommendRoute.Candidates | backend/recommender.py:199-219 | track kind: the selected tracks' rows followed by the rows of the tracks `fetch_similar_songs` returns for them (150 wanted); album kind: the selected albums' rows followed by the rows of the tracks `fetch_similar_tracks_from_albums` returns; any other kind: none |
| RecommendRoute.TrainAndRank | backend/recommender.py:158-182 | with neighbour indices as the fitted model returns them: training fails (no model) exactly when there are no candidates; otherwise the model has `min(10, n)` neighbours over n rows, no index is out of range, and the answer is exactly `Knn.Filtered` of the candidates by the indices, at most that many tracks, none selected |
| RecommendRoute.Recommend | backend/recommender.py:194-228 | token failure and unknown kind are errors with no model; for a served kind the training error happens exactly when there are no candidates; an index error never happens; with candidates the track branch always answers, and the album branch fails (KeyError) exactly when a kept track lacks an album; a track answer is exactly `Knn.Filtered` of the candidates by the indices, an album answer exactly `Knn.Project` of that; an answer comes with the model trained in this call, `min(10, n)` neighbours over the n candidates, and holds at most that many entries, none selected |
| RecommendRoute.RecommendIgnoresPriorModel | backend/recommender.py:196-198 | the reply does not depend on the model left by an earlier call |
| RecommendRoute.NoTracksNoModel | backend/recommender.py:209-213 | in the track branch, if the tracks endpoint never answers, the call fails with the training error and leaves no model |
| SimilarFetch.CollectedNone | backend/recommender.py:84-88 | when no reply carries `tracks`, the requests gather nothing |
| SimilarFetch.NoRepliesNoSongs | backend/recommender.py:78-93 | when the recommendations endpoint never answers with `tracks`, `fetch_similar_songs` returns no songs |
| Wire.PageBodyIsUnderstood | src/components/Search.js:73-76 | the handler reads back the selection's ids in order and a kind it serves, so a page request never gets the unknown-kind error |

## Left out

- HTTP and tokens: every axios and requests call is a function of the `Spotify.Api` value or an outcome parameter. This covers the token proxy in backend/index.js and the wrappers in src/services/spotify.js. Only whether a token was obtained is kept.
- Float numerics: `StandardScaler`, `np.mean` and `NearestNeighbors` are foreign float code. The neighbour indices `kneighbors` returns are an input, required to be as many as the fitted model's `n_neighbors` and each below the number of fitted rows; the model keeps only its sizes.
- Rendering, styling, image and name fallbacks, and DarkModeToggle.js have no behaviour beyond display. Controls being on screen is modelled only as `Search.Enabled`.
- The `alert` on a kind mismatch is browser I/O. It is modelled as the predicate `Search.Alerts`, under which `Search.ClickItem` resets the selection to the clicked item.
- Asynchronous races are left out because transitions are modelled as sequential events. A stale search reply that overwrites a newer one is therefore not modelled. A recommendation request and its reply form one step.
- Flask and Express wiring (routing, CORS, `jsonify`, environment variables, a body that is not JSON) is left out. `request.json` is always an object with the two keys optional.
- `Items.Item` keeps only `id` and `type`. The page's kind normalisation (`selectedType`) is then the identity. Spotify search only ever returns those two types, and the page only ever sets those two kinds.
- The model has no fetch effect that fires on its own. A completed search is the event `SearchDone`, applied for the current debounced query and kind.
- `Toggle.js` is not rendered by the page (src/App.js renders only the search page). `TypeToggle` models it as a standalone transition.
- RecommendRoute.FitsModel: `kneighbors` also returns distinct indices ordered by distance; the model does not require either, so its promises hold for any in-range index list.
- Knn.RecommendTracks: neighbour indices are non-negative. Python's negative indexing is not modelled, since `kneighbors` never returns negative indices.
- SimilarFetch.FetchSimilarSongs: `total_songs` is a natural number, and the only caller passes 150.
- Knn.AlbumsFromTracks: a track whose `track` value is null, not missing, is not distinguished from a missing key. Both raise in Python, with different exception types.
