/** The search items the page shows and selects, and the JSON body it posts
    to the recommender. */
module Items {
  import opened Common

  /** The two item kinds the page searches for; the source spells them
      `"track"` and `"album"`. */
  datatype SearchType = Track | Album

  /** The kind the Songs/Albums checkbox switches to. */
  function Other(t: SearchType): (r: SearchType)
    ensures r != t
  {
    match t
    case Track => Album
    case Album => Track
  }

  /** The string the source uses for a kind (the `type` of a Spotify item, the `search_type` it posts). */
  function TypeName(t: SearchType): (r: string)
    ensures r == "track" || r == "album"
  {
    match t
    case Track => "track"
    case Album => "album"
  }

  /** A Spotify search result; only the fields the selection logic reads
      (display fields such as name and artwork are left out). */
  datatype Item = Item(id: string, kind: SearchType)

  /** The body of `POST /recommend`; either key may be missing from the JSON. */
  datatype RecommendBody = RecommendBody(selectedItems: Option<seq<Item>>, searchType: Option<string>)

  /** `[item['id'] for item in items]` */
  function Ids(s: seq<Item>): (r: seq<string>)
    ensures |r| == |s|
    ensures forall k :: 0 <= k < |s| ==> r[k] == s[k].id
  {
    MapSeq(s, (x: Item) => x.id)
  }

  /** `items.find(i => i.id === id)` succeeds. */
  predicate HasId(s: seq<Item>, id: string) {
    exists k :: 0 <= k < |s| && s[k].id == id
  }

  /** No identifier occurs twice. */
  predicate DistinctIds(s: seq<Item>) {
    forall i, j :: 0 <= i < j < |s| ==> s[i].id != s[j].id
  }

  /** Every item is of kind `t`. */
  predicate AllOfType(s: seq<Item>, t: SearchType) {
    forall k :: 0 <= k < |s| ==> s[k].kind == t
  }

  /** All items share one kind. */
  predicate Uniform(s: seq<Item>) {
    forall i, j :: 0 <= i < |s| && 0 <= j < |s| ==> s[i].kind == s[j].kind
  }
}
