/** The gallery page of the web client: the stored plates, the view of them
    the user sees (searched and sorted), and deletion of one plate or all of
    them through a confirmation dialog. */
module Gallery {
  import opened Records
  import opened Text
  import opened WebStorage

  datatype SortOrder = Newest | Oldest | Alphabetical

  /** The search predicate: the lower-cased plate text contains the
      lower-cased search term. */
  predicate Matches(p: PlateResult, term: string) {
    Contains(LowerString(p.numberplate), LowerString(term))
  }

  /** `plates.filter(plate => Matches(plate, term))`. */
  function Filtered(xs: seq<PlateResult>, term: string): (r: seq<PlateResult>)
    ensures |r| <= |xs|
    ensures forall x :: x in r <==> x in xs && Matches(x, term)
  {
    if xs == [] then []
    else if Matches(xs[0], term) then [xs[0]] + Filtered(xs[1..], term)
    else Filtered(xs[1..], term)
  }

  /** The filter works piecewise, so the plates it keeps stay in their
      original relative order. */
  lemma {:induction false} FilteredConcat(a: seq<PlateResult>, b: seq<PlateResult>, term: string)
    ensures Filtered(a + b, term) == Filtered(a, term) + Filtered(b, term)
    decreases |a|
  {
    if a == [] {
      assert a + b == b;
    } else {
      assert (a + b)[1..] == a[1..] + b;
      FilteredConcat(a[1..], b, term);
    }
  }

  /** An empty search term keeps every plate, so skipping the filter for it
      (as the page does) changes nothing. */
  lemma {:induction false} FilteredEmptyTerm(xs: seq<PlateResult>)
    ensures Filtered(xs, "") == xs
    decreases |xs|
  {
    if xs != [] {
      assert LowerString("") == "";
      ContainsEmpty(LowerString(xs[0].numberplate));
      FilteredEmptyTerm(xs[1..]);
    }
  }

  /** `a` may stand before `b` in the view sorted by `order`: the
      comparator of that order does not put `b` first. */
  predicate Precedes(order: SortOrder, a: PlateResult, b: PlateResult) {
    match order
    case Newest => a.timestamp >= b.timestamp
    case Oldest => a.timestamp <= b.timestamp
    case Alphabetical => LexLe(a.numberplate, b.numberplate)
  }

  lemma PrecedesTotal(order: SortOrder, a: PlateResult, b: PlateResult)
    ensures Precedes(order, a, b) || Precedes(order, b, a)
  {
    if order == Alphabetical {
      LexLeTotal(a.numberplate, b.numberplate);
    }
  }

  lemma PrecedesTransitive(order: SortOrder, a: PlateResult, b: PlateResult, c: PlateResult)
    requires Precedes(order, a, b) && Precedes(order, b, c)
    ensures Precedes(order, a, c)
  {
    if order == Alphabetical {
      LexLeTransitive(a.numberplate, b.numberplate, c.numberplate);
    }
  }

  ghost predicate Sorted(s: seq<PlateResult>, order: SortOrder) {
    forall i, j :: 0 <= i < j < |s| ==> Precedes(order, s[i], s[j])
  }

  /** `view` is what the page may show for these plates, this search term
      and this order: exactly the matching plates, each as often as stored,
      arranged by the order. */
  ghost predicate IsViewOf(view: seq<PlateResult>, plates: seq<PlateResult>, term: string, order: SortOrder) {
    multiset(view) == multiset(Filtered(plates, term)) && Sorted(view, order)
  }

  /** `result.sort(comparator)` in place, as an insertion sort by adjacent
      swaps. */
  method SortPlates(a: array<PlateResult>, order: SortOrder)
    modifies a
    ensures Sorted(a[..], order)
    ensures multiset(a[..]) == multiset(old(a[..]))
  {
    var i := 0;
    while i < a.Length
      invariant 0 <= i <= a.Length
      invariant forall x, y :: 0 <= x < y < i ==> Precedes(order, a[x], a[y])
      invariant multiset(a[..]) == multiset(old(a[..]))
    {
      InsertLast(a, i, order);
      i := i + 1;
    }
    assert a[..] == a[..a.Length];
  }

  /** Sinks `a[i]` into the sorted prefix `a[..i]`, so that `a[..i + 1]` is
      sorted; nothing past `i` moves. */
  method InsertLast(a: array<PlateResult>, i: nat, order: SortOrder)
    requires i < a.Length
    requires forall x, y :: 0 <= x < y < i ==> Precedes(order, a[x], a[y])
    modifies a
    ensures forall x, y :: 0 <= x < y <= i ==> Precedes(order, a[x], a[y])
    ensures forall k :: i < k < a.Length ==> a[k] == old(a[k])
    ensures multiset(a[..]) == multiset(old(a[..]))
  {
    var j := i;
    while j > 0 && !Precedes(order, a[j - 1], a[j])
      invariant 0 <= j <= i
      invariant forall k :: i < k < a.Length ==> a[k] == old(a[k])
      invariant forall x, y :: 0 <= x < y <= i && x != j && y != j ==> Precedes(order, a[x], a[y])
      invariant forall x, y :: 0 <= x < j < y <= i ==> Precedes(order, a[x], a[y])
      invariant forall y :: j < y <= i ==> Precedes(order, a[j], a[y])
      invariant multiset(a[..]) == multiset(old(a[..]))
    {
      PrecedesTotal(order, a[j - 1], a[j]);
      a[j - 1], a[j] := a[j], a[j - 1];
      j := j - 1;
    }
    forall x | 0 <= x < j ensures Precedes(order, a[x], a[j]) {
      if x < j - 1 {
        PrecedesTransitive(order, a[x], a[j - 1], a[j]);
      }
    }
  }

  /** The filter and sort effect: filter a copy of the plates (only for a
      non-empty term), then sort that copy in place. */
  method ComputeView(plates: seq<PlateResult>, term: string, order: SortOrder) returns (view: seq<PlateResult>)
    ensures IsViewOf(view, plates, term, order)
    ensures forall x :: x in view <==> x in plates && Matches(x, term)
    ensures |view| == |Filtered(plates, term)|
  {
    var result := plates;
    if term != "" {
      result := Filtered(plates, term);
    } else {
      FilteredEmptyTerm(plates);
    }
    var copy := new PlateResult[|result|](i requires 0 <= i < |result| => result[i]);
    assert copy[..] == result;
    SortPlates(copy, order);
    view := copy[..];
    forall x ensures x in view <==> x in Filtered(plates, term) {
      assert x in view <==> x in multiset(view);
      assert x in Filtered(plates, term) <==> x in multiset(Filtered(plates, term));
    }
    assert |view| == |multiset(view)|;
  }

  /** The dialog's selection that stands for "clear all" rather than a plate
      id. */
  const AllPlates := "all"

  class GalleryPage {
    var plates: seq<PlateResult>
    var filteredPlates: seq<PlateResult>
    var searchTerm: string
    var deleteDialogOpen: bool
    var plateToDelete: Option<string>
    var sortOrder: SortOrder
    var noPlatesFound: bool
    const store: LocalStorage

    /** The shown list is always the view of the current plates, term and
        order: every handler that changes one of them reruns the effect. */
    ghost predicate Valid()
      reads this
    {
      IsViewOf(filteredPlates, plates, searchTerm, sortOrder)
    }

    constructor (store: LocalStorage)
      ensures Valid() && this.store == store
      ensures plates == [] && filteredPlates == [] && searchTerm == ""
      ensures !deleteDialogOpen && plateToDelete == None
      ensures sortOrder == Newest && !noPlatesFound
    {
      this.store := store;
      plates, filteredPlates, searchTerm := [], [], "";
      deleteDialogOpen, plateToDelete := false, None;
      sortOrder, noPlatesFound := Newest, false;
    }

    /** The filter and sort effect. */
    method Refresh()
      modifies this`filteredPlates
      ensures Valid()
    {
      filteredPlates := ComputeView(plates, searchTerm, sortOrder);
    }

    /** The mount effect: take the stored list when the key is present;
        `noPlatesFound` holds exactly when the key is absent or the list
        empty. */
    method Load()
      modifies this`plates, this`noPlatesFound, this`filteredPlates
      ensures Valid()
      ensures plates == if store.plates.Some? then store.plates.value else old(plates)
      ensures noPlatesFound <==> store.plates.None? || store.plates.value == []
    {
      var savedPlates := store.plates;
      if savedPlates.Some? {
        plates := savedPlates.value;
        noPlatesFound := |savedPlates.value| == 0;
      } else {
        noPlatesFound := true;
      }
      Refresh();
    }

    method HandleSearchChange(term: string)
      modifies this`searchTerm, this`filteredPlates
      ensures searchTerm == term && Valid()
    {
      searchTerm := term;
      Refresh();
    }

    method HandleSortChange(order: SortOrder)
      modifies this`sortOrder, this`filteredPlates
      ensures sortOrder == order && Valid()
    {
      sortOrder := order;
      Refresh();
    }

    method OpenDeleteDialog(id: string)
      modifies this`plateToDelete, this`deleteDialogOpen
      ensures plateToDelete == Some(id) && deleteDialogOpen
    {
      plateToDelete := Some(id);
      deleteDialogOpen := true;
    }

    method CloseDeleteDialog()
      modifies this`plateToDelete, this`deleteDialogOpen
      ensures plateToDelete == None && !deleteDialogOpen
    {
      plateToDelete := None;
      deleteDialogOpen := false;
    }

    /** The "Clear All Plates" button: selects the `'all'` sentinel. */
    method RequestClearAll()
      modifies this`plateToDelete, this`deleteDialogOpen
      ensures plateToDelete == Some(AllPlates) && deleteDialogOpen
    {
      plateToDelete := Some(AllPlates);
      deleteDialogOpen := true;
    }

    /** `deletePlate`: with a selected id, drops every plate carrying it,
        persists exactly that list, flags an empty result and closes the
        dialog; with no selection (or an empty id) it does nothing. */
    method DeletePlate()
      requires Valid()
      modifies this`plates, this`noPlatesFound, this`plateToDelete, this`deleteDialogOpen,
        this`filteredPlates, store`plates
      ensures Valid()
      ensures Truthy(old(plateToDelete)) ==>
        && plates == WithoutId(old(plates), old(plateToDelete).value)
        && store.plates == Some(plates)
        && (noPlatesFound <==> plates == [])
        && plateToDelete == None && !deleteDialogOpen
      ensures !Truthy(old(plateToDelete)) ==>
        && plates == old(plates) && filteredPlates == old(filteredPlates)
        && store.plates == old(store.plates) && noPlatesFound == old(noPlatesFound)
        && plateToDelete == old(plateToDelete) && deleteDialogOpen == old(deleteDialogOpen)
    {
      if Truthy(plateToDelete) {
        var updatedPlates := WithoutId(plates, plateToDelete.value);
        plates := updatedPlates;
        store.SetPlates(updatedPlates);
        noPlatesFound := |updatedPlates| == 0;
        CloseDeleteDialog();
        Refresh();
      }
    }

    /** `clearAllPlates`: empties the list, removes the stored key and shows
        the empty state; the dialog is left as it is. */
    method ClearAllPlates()
      modifies this`plates, this`noPlatesFound, this`filteredPlates, store`plates
      ensures Valid()
      ensures plates == [] && filteredPlates == [] && store.plates == None && noPlatesFound
    {
      plates := [];
      store.ClearAllPlates();
      noPlatesFound := true;
      Refresh();
    }

    /** The dialog's confirm button: the `'all'` sentinel clears everything,
        any other selection deletes that plate. A plate whose id were the
        text "all" could therefore not be deleted on its own. */
    method ConfirmDialog()
      requires Valid()
      modifies this`plates, this`noPlatesFound, this`plateToDelete, this`deleteDialogOpen,
        this`filteredPlates, store`plates
      ensures Valid()
      ensures old(plateToDelete) == Some(AllPlates) ==>
        && plates == [] && filteredPlates == [] && store.plates == None && noPlatesFound
        && plateToDelete == old(plateToDelete) && deleteDialogOpen == old(deleteDialogOpen)
      ensures old(plateToDelete) != Some(AllPlates) && Truthy(old(plateToDelete)) ==>
        && plates == WithoutId(old(plates), old(plateToDelete).value)
        && store.plates == Some(plates)
        && (noPlatesFound <==> plates == [])
        && plateToDelete == None && !deleteDialogOpen
      ensures !Truthy(old(plateToDelete)) ==>
        && plates == old(plates) && filteredPlates == old(filteredPlates)
        && store.plates == old(store.plates) && noPlatesFound == old(noPlatesFound)
        && plateToDelete == old(plateToDelete) && deleteDialogOpen == old(deleteDialogOpen)
    {
      if plateToDelete == Some(AllPlates) {
        ClearAllPlates();
      } else {
        DeletePlate();
      }
    }
  }

  /** Sorting alphabetically puts "AA11" before "ZZ99", whatever order they
      were stored in. */
  lemma AlphabeticalExample(zz: PlateResult, aa: PlateResult, view: seq<PlateResult>)
    requires zz.numberplate == "ZZ99" && aa.numberplate == "AA11"
    requires IsViewOf(view, [zz, aa], "", Alphabetical)
    ensures view == [aa, zz]
  {
    FilteredEmptyTerm([zz, aa]);
    assert multiset(view) == multiset{zz, aa};
    assert |view| == 2;
    assert view[0] in multiset(view) && view[1] in multiset(view);
    assert !LexLe(zz.numberplate, aa.numberplate);
  }
}
