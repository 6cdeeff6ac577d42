/** The alternative kind switch: two buttons, Song and Album, each of which
    sets the kind it names and clears the selection. */
module TypeToggle {
  import opened Items
  import Search

  /** `handleSearchType(type)`: the kind becomes exactly `t`, the selection is
      emptied, and nothing else in the page state changes. */
  function HandleSearchType(s: Search.SearchState, t: SearchType): (r: Search.SearchState)
    ensures r.searchType == t
    ensures r.selected == []
    ensures r.(searchType := s.searchType, selected := s.selected) == s
  {
    s.(searchType := t, selected := [])
  }

  /** The two buttons the component renders. */
  datatype Button = SongButton | AlbumButton

  /** The kind each button passes: the only two values ever passed. */
  function ButtonType(b: Button): (t: SearchType)
    ensures TypeName(t) == (if b == SongButton then "track" else "album")
  {
    match b
    case SongButton => Track
    case AlbumButton => Album
  }

  function Press(s: Search.SearchState, b: Button): Search.SearchState {
    HandleSearchType(s, ButtonType(b))
  }

  /** Pressing the button of the other kind does what the checkbox does. */
  lemma PressOtherIsFlip(s: Search.SearchState, b: Button)
    requires ButtonType(b) != s.searchType
    ensures Press(s, b) == Search.FlipSearchType(s)
  {
  }

  /** Pressing the button of the active kind still clears the selection. */
  lemma PressSameClears(s: Search.SearchState, b: Button)
    requires ButtonType(b) == s.searchType
    ensures Press(s, b) == s.(selected := [])
  {
  }
}
