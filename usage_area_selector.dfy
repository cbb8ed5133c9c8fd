/**
 * Selecting usage areas (src/components/UsageAreaSelector.tsx). Toggling computes a fresh
 * list from the current selection; areas are identified by id, not by value.
 */
module UsageAreaSelector {

  import opened Catalog

  /** isSelected: some selected area carries the same id as `area`. */
  predicate IsSelected(selected: seq<UsageArea>, area: UsageArea)
  {
    exists i :: 0 <= i < |selected| && selected[i].id == area.id
  }

  /** No two selected areas share an id. */
  ghost predicate DistinctIds(selected: seq<UsageArea>)
  {
    forall i, j :: 0 <= i < j < |selected| ==> selected[i].id != selected[j].id
  }

  /** `selectedAreas.filter(selected => selected.id !== id)`. */
  function WithoutId(selected: seq<UsageArea>, id: string): (r: seq<UsageArea>)
    ensures |r| <= |selected|
    ensures (forall i :: 0 <= i < |selected| ==> selected[i].id != id) ==> r == selected
    ensures (exists i :: 0 <= i < |selected| && selected[i].id == id) ==> |r| < |selected|
  {
    if |selected| == 0 then []
    else if selected[0].id == id then WithoutId(selected[1..], id)
    else [selected[0]] + WithoutId(selected[1..], id)
  }

  /** The filter keeps exactly the areas whose id differs. */
  lemma {:induction false} WithoutIdMembers(selected: seq<UsageArea>, id: string)
    ensures forall a :: a in WithoutId(selected, id) <==> a in selected && a.id != id
    decreases |selected|
  {
    if |selected| > 0 {
      WithoutIdMembers(selected[1..], id);
      assert selected == [selected[0]] + selected[1..];
    }
  }

  /** toggleArea: drop every area with this id if one is selected, otherwise append it. */
  function ToggleArea(selected: seq<UsageArea>, area: UsageArea): (r: seq<UsageArea>)
    ensures IsSelected(selected, area) ==> r == WithoutId(selected, area.id)
    ensures IsSelected(selected, area) ==> !IsSelected(r, area) && |r| < |selected|
    ensures !IsSelected(selected, area) ==> r == selected + [area] && IsSelected(r, area)
    ensures forall a: UsageArea :: a.id != area.id ==> (a in r <==> a in selected)
  {
    if IsSelected(selected, area) then
      WithoutIdMembers(selected, area.id);
      WithoutId(selected, area.id)
    else
      var added := selected + [area];
      assert added[|selected|] == area;
      added
  }

  /** Filtering by id keeps the relative order: it distributes over concatenation. */
  lemma {:induction false} WithoutIdAppend(u: seq<UsageArea>, v: seq<UsageArea>, id: string)
    ensures WithoutId(u + v, id) == WithoutId(u, id) + WithoutId(v, id)
    decreases |u|
  {
    if |u| == 0 {
      assert u + v == v;
    } else {
      assert (u + v)[0] == u[0];
      assert (u + v)[1..] == u[1..] + v;
      WithoutIdAppend(u[1..], v, id);
    }
  }

  /** Toggling an unselected area on and off again restores the selection exactly. */
  lemma ToggleTwiceRestores(selected: seq<UsageArea>, area: UsageArea)
    requires !IsSelected(selected, area)
    ensures ToggleArea(ToggleArea(selected, area), area) == selected
  {
    var added := selected + [area];
    assert added[|selected|].id == area.id;
    WithoutIdAppend(selected, [area], area.id);
    assert WithoutId([area], area.id) == [];
  }

  /** Selection is by id: a different area value with the same id toggles the same entries. */
  lemma SelectionById(selected: seq<UsageArea>, area: UsageArea, other: UsageArea)
    requires area.id == other.id
    ensures IsSelected(selected, area) == IsSelected(selected, other)
    ensures IsSelected(selected, area) ==> ToggleArea(selected, area) == ToggleArea(selected, other)
  {
  }

  /** A duplicate-free list: its tail is duplicate-free and avoids the head's id. */
  lemma DistinctTail(selected: seq<UsageArea>)
    requires |selected| > 0 && DistinctIds(selected)
    ensures DistinctIds(selected[1..])
    ensures forall a :: a in selected[1..] ==> a.id != selected[0].id
  {
    var tail := selected[1..];
    forall i, j | 0 <= i < j < |tail| ensures tail[i].id != tail[j].id {
      assert tail[i] == selected[i + 1] && tail[j] == selected[j + 1];
    }
    forall a | a in tail ensures a.id != selected[0].id {
      var k :| 0 <= k < |tail| && tail[k] == a;
      assert selected[k + 1] == a;
    }
  }

  /** An area whose id is new, put in front of a duplicate-free list, keeps it duplicate-free. */
  lemma DistinctCons(area: UsageArea, rest: seq<UsageArea>)
    requires DistinctIds(rest)
    requires forall a :: a in rest ==> a.id != area.id
    ensures DistinctIds([area] + rest)
  {
    var r := [area] + rest;
    forall i, j | 0 <= i < j < |r| ensures r[i].id != r[j].id {
      assert r[j] == rest[j - 1];
      if i > 0 {
        assert r[i] == rest[i - 1];
      }
    }
  }

  /** Filtering by id keeps ids distinct. */
  lemma {:induction false} WithoutIdKeepsDistinct(selected: seq<UsageArea>, id: string)
    requires DistinctIds(selected)
    ensures DistinctIds(WithoutId(selected, id))
    decreases |selected|
  {
    if |selected| > 0 {
      var tail := selected[1..];
      DistinctTail(selected);
      WithoutIdKeepsDistinct(tail, id);
      if selected[0].id != id {
        WithoutIdMembers(tail, id);
        DistinctCons(selected[0], WithoutId(tail, id));
      }
    }
  }

  /** A selection with distinct ids stays so under toggling. */
  lemma ToggleKeepsDistinct(selected: seq<UsageArea>, area: UsageArea)
    requires DistinctIds(selected)
    ensures DistinctIds(ToggleArea(selected, area))
  {
    if IsSelected(selected, area) {
      WithoutIdKeepsDistinct(selected, area.id);
    } else {
      var r := selected + [area];
      forall i, j | 0 <= i < j < |r| ensures r[i].id != r[j].id {
        if j == |selected| {
          assert r[i] == selected[i];
        }
      }
    }
  }
}
