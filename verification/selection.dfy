/** The selection rules of the search page's `toggleSelectItem`: add or
    remove an item, or start over when the selection's first item is of the
    other kind. */
module Selection {
  import opened Items

  /** `selected.filter(i => i.id !== id)`: every entry with that id goes,
      the rest stay. */
  function RemoveId(s: seq<Item>, id: string): (r: seq<Item>)
    ensures |r| <= |s|
    ensures forall x :: x in r <==> x in s && x.id != id
  {
    if |s| == 0 then []
    else if s[0].id == id then RemoveId(s[1..], id)
    else [s[0]] + RemoveId(s[1..], id)
  }

  /** The warning case: the selection is non-empty and its FIRST item is not of
      the active kind. The clicked item's own kind is never looked at. */
  predicate Mismatch(selected: seq<Item>, searchType: SearchType) {
    |selected| > 0 && selected[0].kind != searchType
  }

  /** The new selection after clicking `item` while `searchType` is active. */
  function Toggle(selected: seq<Item>, searchType: SearchType, item: Item): (r: seq<Item>)
    ensures Mismatch(selected, searchType) ==> r == [item]
    ensures !Mismatch(selected, searchType) && HasId(selected, item.id) ==>
              && r == RemoveId(selected, item.id)
              // the next two follow from RemoveId's contract; stated here for the reader
              && !HasId(r, item.id)
              && forall x :: x in r <==> x in selected && x.id != item.id
    ensures !Mismatch(selected, searchType) && !HasId(selected, item.id) ==>
              |r| == |selected| + 1 && r[..|selected|] == selected && r[|selected|] == item
    ensures DistinctIds(selected) ==> DistinctIds(r)
  {
    if Mismatch(selected, searchType) then [item]
    else if HasId(selected, item.id) then
      assert DistinctIds(selected) ==> DistinctIds(RemoveId(selected, item.id)) by {
        if DistinctIds(selected) {
          RemoveIdDistinct(selected, item.id);
        }
      }
      RemoveId(selected, item.id)
    else
      assert forall k :: 0 <= k < |selected| ==> selected[k].id != item.id;
      selected + [item]
  }

  /** Removal is order-preserving: it distributes over concatenation. */
  lemma {:induction false} RemoveIdAppend(a: seq<Item>, b: seq<Item>, id: string)
    ensures RemoveId(a + b, id) == RemoveId(a, id) + RemoveId(b, id)
  {
    if |a| == 0 {
      assert a + b == b;
    } else {
      assert (a + b)[0] == a[0];
      assert (a + b)[1..] == a[1..] + b;
      RemoveIdAppend(a[1..], b, id);
    }
  }

  /** Removing an id that is not there changes nothing: the others keep their order. */
  lemma {:induction false} RemoveIdAbsent(s: seq<Item>, id: string)
    requires !HasId(s, id)
    ensures RemoveId(s, id) == s
  {
    if |s| > 0 {
      assert s[0].id != id;
      assert !HasId(s[1..], id) by {
        forall k | 0 <= k < |s[1..]| ensures s[1..][k].id != id {
          assert s[1..][k] == s[k + 1];
        }
      }
      RemoveIdAbsent(s[1..], id);
      assert s == [s[0]] + s[1..];
    }
  }

  /** On a selection with distinct ids, removal keeps them distinct and
      removes exactly one entry when the id is present. */
  lemma {:induction false} RemoveIdDistinct(s: seq<Item>, id: string)
    requires DistinctIds(s)
    ensures DistinctIds(RemoveId(s, id))
    ensures HasId(s, id) ==> |RemoveId(s, id)| == |s| - 1
  {
    var r := RemoveId(s, id);
    if |s| > 0 {
      assert DistinctIds(s[1..]) by {
        forall i, j | 0 <= i < j < |s[1..]| ensures s[1..][i].id != s[1..][j].id {
          assert s[1..][i] == s[i + 1] && s[1..][j] == s[j + 1];
        }
      }
      RemoveIdDistinct(s[1..], id);
      var t := RemoveId(s[1..], id);
      if s[0].id == id {
        assert !HasId(s[1..], id) by {
          forall k | 0 <= k < |s[1..]| ensures s[1..][k].id != id {
            assert s[1..][k] == s[k + 1];
          }
        }
        RemoveIdAbsent(s[1..], id);
      } else {
        assert r == [s[0]] + t;
        forall k | 0 <= k < |t| ensures t[k].id != s[0].id {
          assert t[k] in t;
          assert t[k] in s[1..];
          var m :| 0 <= m < |s[1..]| && s[1..][m] == t[k];
          assert s[m + 1] == t[k];
        }
        assert DistinctIds(r) by {
          forall i, j | 0 <= i < j < |r| ensures r[i].id != r[j].id {
            if i == 0 {
              assert r[j] == t[j - 1];
            } else {
              assert r[i] == t[i - 1] && r[j] == t[j - 1];
            }
          }
        }
        if HasId(s, id) {
          var m :| 0 <= m < |s| && s[m].id == id;
          assert m > 0;
          assert s[1..][m - 1].id == id;
        }
      }
    }
  }

  /** Toggling an absent item of the active kind twice gives back the selection. */
  lemma ToggleTwiceRestores(selected: seq<Item>, searchType: SearchType, item: Item)
    requires AllOfType(selected, searchType) && item.kind == searchType
    requires !HasId(selected, item.id)
    ensures Toggle(Toggle(selected, searchType, item), searchType, item) == selected
  {
    var once := Toggle(selected, searchType, item);
    assert once == selected + [item];
    assert !Mismatch(once, searchType);
    assert once[|selected|].id == item.id;
    RemoveIdAppend(selected, [item], item.id);
    RemoveIdAbsent(selected, item.id);
    assert RemoveId([item], item.id) == [];
  }

  /** Under the hypothesis that the clicked item is of the active kind, a
      selection of that kind stays of that kind. */
  lemma ToggleKeepsType(selected: seq<Item>, searchType: SearchType, item: Item)
    requires AllOfType(selected, searchType) && item.kind == searchType
    ensures AllOfType(Toggle(selected, searchType, item), searchType)
  {
  }

  /** Without that hypothesis the single-kind invariant fails: a track is
      selected, tracks are active, and clicking an album appends it. */
  lemma MixedWhenClickedKindDiffers()
    ensures !Uniform(Toggle([Item("t", Track)], Track, Item("a", Album)))
  {
  }

  /** A mismatch resets to the clicked item even when it was already selected. */
  lemma MismatchIgnoresMembership(selected: seq<Item>, searchType: SearchType, item: Item)
    requires Mismatch(selected, searchType) && item in selected
    ensures Toggle(selected, searchType, item) == [item]
  {
  }
}
