/** The row-selection toggle both list pages use: clicking a row adds its id
    at the end of the selection, or removes every occurrence of it. */
module Selection {
  import Collections

  predicate NoDuplicates(xs: seq<string>) {
    forall i, j :: 0 <= i < j < |xs| ==> xs[i] != xs[j]
  }

  /** `prev.filter(x => x !== id)` */
  function Without(xs: seq<string>, id: string): (r: seq<string>)
    ensures |r| <= |xs|
    ensures forall x :: x in r <==> x in xs && x != id
    ensures id !in xs ==> r == xs
  {
    if xs == [] then []
    else
      assert xs == [xs[0]] + xs[1..];
      (if xs[0] == id then [] else [xs[0]]) + Without(xs[1..], id)
  }

  /** An id is its own key. */
  function Identity(id: string): string {
    id
  }

  /** `Without` is the delete merge of the slices with the id as its own key
      and a single id to delete. */
  lemma {:induction false} WithoutIsWithoutKeys(xs: seq<string>, id: string)
    ensures Without(xs, id) == Collections.WithoutKeys(xs, Identity, [id])
  {
    if xs != [] {
      WithoutIsWithoutKeys(xs[1..], id);
      assert Identity(xs[0]) in [id] <==> xs[0] == id;
    }
  }

  /** The ids that stay keep their order. */
  lemma WithoutKeepsOrder(xs: seq<string>, id: string)
    ensures Collections.IsSubseq(Without(xs, id), xs)
  {
    WithoutIsWithoutKeys(xs, id);
    Collections.WithoutKeysKeepsOrder(xs, Identity, [id]);
  }

  /** Removing an id keeps the others in order, so no duplicate appears. */
  lemma {:induction false} WithoutKeepsNoDuplicates(xs: seq<string>, id: string)
    requires NoDuplicates(xs)
    ensures NoDuplicates(Without(xs, id))
  {
    if xs != [] {
      assert NoDuplicates(xs[1..]);
      WithoutKeepsNoDuplicates(xs[1..], id);
      var rest := Without(xs[1..], id);
      if xs[0] != id {
        assert xs[0] !in xs[1..];
        assert xs[0] !in rest;
        assert Without(xs, id) == [xs[0]] + rest;
      }
    }
  }

  /** `handleSelect(id)` */
  function Toggle(selected: seq<string>, id: string): (r: seq<string>)
    ensures id in selected ==> id !in r && forall x :: x != id ==> (x in r <==> x in selected)
    ensures id !in selected ==> r == selected + [id]
  {
    if id in selected then Without(selected, id) else selected + [id]
  }

  /** The selection never holds an id twice. */
  lemma ToggleKeepsNoDuplicates(selected: seq<string>, id: string)
    requires NoDuplicates(selected)
    ensures NoDuplicates(Toggle(selected, id))
  {
    if id in selected {
      WithoutKeepsNoDuplicates(selected, id);
    }
  }

  /** Toggling an id that is not selected, then toggling it again, gives the
      selection back. */
  lemma ToggleTwiceRestores(selected: seq<string>, id: string)
    requires id !in selected
    ensures Toggle(Toggle(selected, id), id) == selected
  {
    var once := selected + [id];
    assert once[..|selected|] == selected;
    WithoutAppended(selected, id);
  }

  lemma {:induction false} WithoutAppended(xs: seq<string>, id: string)
    requires id !in xs
    ensures Without(xs + [id], id) == xs
  {
    if xs == [] {
      assert [] + [id] == [id];
      assert [id][1..] == [];
    } else {
      assert (xs + [id])[0] == xs[0] && (xs + [id])[1..] == xs[1..] + [id];
      WithoutAppended(xs[1..], id);
      assert xs == [xs[0]] + xs[1..];
    }
  }

  /** Toggling a selected id twice keeps the same ids, with that one moved to
      the end. */
  lemma ToggleTwiceMovesToEnd(selected: seq<string>, id: string)
    requires id in selected
    ensures Toggle(Toggle(selected, id), id) == Without(selected, id) + [id]
  {
  }
}
