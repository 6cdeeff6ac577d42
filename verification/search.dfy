/** The search page's state and its transitions: typing (debounced),
    search results arriving, clicking an item, switching the kind, asking for
    recommendations and restarting. Each transition is a pure function from
    the old state to the new one; network replies are parameters. */
module Search {
  import opened Common
  import opened Items
  import Selection
  import Debounce

  /** `data.tracks` / `data.albums` of a Spotify search reply: the page object
      may be missing, and so may its `items`. */
  datatype Page = Page(items: Option<seq<Item>>)
  datatype SearchResponse = SearchResponse(tracks: Option<Page>, albums: Option<Page>)

  /** One entry of the recommender's reply; the page only reads its track id. */
  datatype Recommendation = Recommendation(trackId: string)

  /** The page's `useState` hooks; `query` and `debouncedQuery` live in the timer. */
  datatype SearchState = SearchState(
    timer: Debounce.Timer,
    searchType: SearchType,
    results: seq<Item>,
    selected: seq<Item>,
    recommendations: seq<Recommendation>,
    searchCompleted: bool)

  /** The recommendation button appears only with at least this many items selected. */
  const MinSelection: nat := 10

  /** The state at mount. */
  function Initial(): (s: SearchState)
    ensures Good(s) && s.selected == [] && s.searchType == Track && !s.searchCompleted
  {
    SearchState(Debounce.Start(), Track, [], [], [], false)
  }

  /** The items of a page, or none when the page or its items are missing. */
  function PageItems(p: Option<Page>): seq<Item> {
    match p
    case Some(Page(Some(xs))) => xs
    case _ => []
  }

  /** The results the fetch effect sets for a reply `data`. */
  function DeriveResults(debouncedQuery: string, searchType: SearchType, data: SearchResponse): (r: seq<Item>)
    ensures r != [] ==> debouncedQuery != ""
    ensures debouncedQuery != "" && searchType == Track && data.tracks.Some? && data.tracks.value.items.Some? ==>
              r == data.tracks.value.items.value
    ensures debouncedQuery != "" && searchType == Album && data.albums.Some? && data.albums.value.items.Some? ==>
              r == data.albums.value.items.value
    ensures searchType == Track && (data.tracks.None? || data.tracks.value.items.None?) ==> r == []
    ensures searchType == Album && (data.albums.None? || data.albums.value.items.None?) ==> r == []
  {
    if debouncedQuery == "" then []
    else match searchType
      case Track => PageItems(data.tracks)
      case Album => PageItems(data.albums)
  }

  /** The fetch effect completing for the current debounced query and kind.
      An empty query clears the results without a request; `None` is a
      request that threw, which the effect does not catch, so nothing changes. */
  function ApplySearch(s: SearchState, response: Option<SearchResponse>): (r: SearchState)
    ensures r.(results := s.results) == s
    ensures s.timer.debounced == "" ==> r.results == []
    ensures s.timer.debounced != "" && response.None? ==> r == s
    ensures s.timer.debounced != "" && response.Some? ==>
              r.results == DeriveResults(s.timer.debounced, s.searchType, response.value)
  {
    if s.timer.debounced == "" then s.(results := [])
    else match response
      case None => s
      case Some(data) => s.(results := DeriveResults(s.timer.debounced, s.searchType, data))
  }

  /** `toggleSelectItem(item)`: only the selection changes. */
  function ClickItem(s: SearchState, item: Item): (r: SearchState)
    ensures r.(selected := s.selected) == s
    ensures r.selected == Selection.Toggle(s.selected, s.searchType, item)
    ensures Alerts(s) ==> r.selected == [item]
    ensures DistinctIds(s.selected) ==> DistinctIds(r.selected)
    ensures AllOfType(s.selected, s.searchType) && item.kind == s.searchType ==> AllOfType(r.selected, s.searchType)
  {
    assert AllOfType(s.selected, s.searchType) && item.kind == s.searchType ==>
             AllOfType(Selection.Toggle(s.selected, s.searchType, item), s.searchType) by {
      if AllOfType(s.selected, s.searchType) && item.kind == s.searchType {
        Selection.ToggleKeepsType(s.selected, s.searchType, item);
      }
    }
    s.(selected := Selection.Toggle(s.selected, s.searchType, item))
  }

  /** Whether a click now raises the "cannot mix songs and albums" alert. */
  predicate Alerts(s: SearchState) {
    Selection.Mismatch(s.selected, s.searchType)
  }

  /** The Songs/Albums checkbox: the other kind, and an empty selection. */
  function FlipSearchType(s: SearchState): (r: SearchState)
    ensures r.searchType != s.searchType
    ensures r.selected == []
    ensures r.(searchType := s.searchType, selected := s.selected) == s
  {
    s.(searchType := Other(s.searchType), selected := [])
  }

  /** The "Generate Recommendations" button is rendered. */
  predicate CanGenerate(s: SearchState) {
    !s.searchCompleted && |s.selected| >= MinSelection
  }

  /** The body posted to `/recommend`. */
  function RequestBody(s: SearchState): RecommendBody {
    RecommendBody(Some(s.selected), Some(TypeName(s.searchType)))
  }

  /** The first step of `getRecommendations`: old recommendations are cleared
      before the request goes out. */
  function BeginRecommendations(s: SearchState): SearchState {
    s.(recommendations := [])
  }

  /** The request settling. `None`: the post failed and is only logged.
      `Some(data)`: it succeeded with body `data` (`None` for a null body). */
  function FinishRecommendations(s: SearchState, outcome: Option<Option<seq<Recommendation>>>): SearchState {
    match outcome
    case None => s
    case Some(data) => s.(recommendations := data.GetOr([]), searchCompleted := true, selected := [])
  }

  /** `getRecommendations` as one sequential step (the code has no in-flight flag). */
  function GetRecommendations(s: SearchState, outcome: Option<Option<seq<Recommendation>>>): (r: SearchState)
    ensures outcome.Some? ==> r.recommendations == outcome.value.GetOr([]) && r.searchCompleted && r.selected == []
    ensures outcome.Some? ==>
              r.(recommendations := s.recommendations, searchCompleted := s.searchCompleted, selected := s.selected) == s
    ensures outcome.None? ==> r == s.(recommendations := [])
    // follows from the two clauses on `r.recommendations` above; stated for the reader
    ensures forall x :: x in r.recommendations ==> outcome.Some? && x in outcome.value.GetOr([])
  {
    FinishRecommendations(BeginRecommendations(s), outcome)
  }

  /** `restartProcess`: query, results, selection and recommendations are
      emptied and the page leaves the completed view; the kind is kept, and
      the debounced query is left to the timer. */
  function Restart(s: SearchState): (r: SearchState)
    ensures r.searchType == s.searchType
    ensures r.timer.query == "" && r.timer.debounced == s.timer.debounced
    ensures r.results == [] && r.selected == [] && r.recommendations == [] && !r.searchCompleted
  {
    s.(timer := Debounce.SetQuery(s.timer, ""), results := [], selected := [],
       recommendations := [], searchCompleted := false)
  }

  /** Let one debounce window pass. */
  function Settle(s: SearchState): SearchState {
    s.(timer := Debounce.Advance(s.timer, Debounce.Delay).timer)
  }

  /** One debounce window after a restart the page is back at its mount
      state, except that the kind chosen last is kept. */
  lemma RestartSettlesToInitial(s: SearchState)
    requires Debounce.Valid(s.timer)
    ensures Settle(Restart(s)) == Initial().(searchType := s.searchType)
  {
  }

  /** What the user (or the network, or the clock) can do to the page. */
  datatype Event =
    | Edit(value: string)
    | Elapse(ms: nat)
    | SearchDone(response: Option<SearchResponse>)
    | Click(item: Item)
    | FlipType
    | Generate(outcome: Option<Option<seq<Recommendation>>>)
    | RestartClicked

  /** Whether the control for the event is on screen: the search box, results,
      and checkbox only before recommendations are shown, the button only with
      enough items selected, the restart button only after. */
  predicate Enabled(s: SearchState, e: Event) {
    match e
    case Edit(_) => !s.searchCompleted
    case Click(_) => !s.searchCompleted
    case FlipType => !s.searchCompleted
    case Generate(_) => CanGenerate(s)
    case RestartClicked => s.searchCompleted
    case Elapse(_) => true
    case SearchDone(_) => true
  }

  function Step(s: SearchState, e: Event): SearchState {
    if !Enabled(s, e) then s
    else match e
      case Edit(q) => s.(timer := Debounce.SetQuery(s.timer, q))
      case Elapse(ms) => s.(timer := Debounce.Advance(s.timer, ms).timer)
      case SearchDone(response) => ApplySearch(s, response)
      case Click(item) => ClickItem(s, item)
      case FlipType => FlipSearchType(s)
      case Generate(outcome) => GetRecommendations(s, outcome)
      case RestartClicked => Restart(s)
  }

  /** The body the event posts to the recommender, if any. */
  function SentBody(s: SearchState, e: Event): (r: Option<RecommendBody>)
    ensures r.Some? <==> e.Generate? && !s.searchCompleted && |s.selected| >= MinSelection
    ensures r.Some? ==> r.value.selectedItems == Some(s.selected) && r.value.searchType == Some(TypeName(s.searchType))
  {
    if e.Generate? && Enabled(s, e) then Some(RequestBody(s)) else None
  }

  function Run(s: SearchState, es: seq<Event>): SearchState
    decreases |es|
  {
    if |es| == 0 then s else Run(Step(s, es[0]), es[1..])
  }

  /** The invariant of reachable states: the timer is well formed, and the
      selection holds distinct ids, all of the active kind. */
  predicate Good(s: SearchState) {
    Debounce.Valid(s.timer) && AllOfType(s.selected, s.searchType) && DistinctIds(s.selected)
  }

  /** The hypothesis the single-kind invariant rests on: a clicked item is of
      the active kind. The code itself never checks it. */
  predicate ClickOfActiveKind(s: SearchState, e: Event) {
    e.Click? ==> e.item.kind == s.searchType
  }

  predicate ClicksOfActiveKind(s: SearchState, es: seq<Event>)
    decreases |es|
  {
    |es| == 0 || (ClickOfActiveKind(s, es[0]) && ClicksOfActiveKind(Step(s, es[0]), es[1..]))
  }

  lemma StepKeepsGood(s: SearchState, e: Event)
    requires Good(s) && ClickOfActiveKind(s, e)
    ensures Good(Step(s, e))
  {
  }

  /** Every state reached by clicks of the active kind satisfies the invariant;
      in particular the selection never mixes kinds. */
  lemma {:induction false} RunKeepsGood(s: SearchState, es: seq<Event>)
    requires Good(s) && ClicksOfActiveKind(s, es)
    ensures Good(Run(s, es))
    ensures Uniform(Run(s, es).selected)
    decreases |es|
  {
    if |es| > 0 {
      StepKeepsGood(s, es[0]);
      RunKeepsGood(Step(s, es[0]), es[1..]);
    } else {
      assert Good(s);
    }
  }

  /** Distinct ids hold in every reachable state, with no hypothesis on clicks. */
  lemma {:induction false} RunKeepsDistinctIds(s: SearchState, es: seq<Event>)
    requires DistinctIds(s.selected)
    ensures DistinctIds(Run(s, es).selected)
    decreases |es|
  {
    if |es| > 0 {
      RunKeepsDistinctIds(Step(s, es[0]), es[1..]);
    }
  }
}
