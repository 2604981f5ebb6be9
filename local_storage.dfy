/** The web client's persisted state: the browser's local storage, restricted
    to the two keys the client uses, 'plates' (a JSON list of `PlateResult`)
    and 'apiEndpoint' (the recognition service's base URL). The list
    helpers `savePlateToLocalStorage`, `getPlatesFromLocalStorage`,
    `deletePlateFromLocalStorage` and `clearAllPlatesFromLocalStorage` are
    the methods of `LocalStorage`. JSON encoding is taken to round-trip
    exactly, so a key holds the decoded value itself. */
module WebStorage {
  import opened Records

  /** `plates.filter(plate => plate.id !== id)`. */
  function WithoutId(xs: seq<PlateResult>, id: string): (r: seq<PlateResult>)
    ensures |r| <= |xs|
    ensures forall x :: x in r <==> x in xs && x.id != id
  {
    if xs == [] then []
    else if xs[0].id == id then WithoutId(xs[1..], id)
    else [xs[0]] + WithoutId(xs[1..], id)
  }

  /** The filter works piecewise, so the entries it keeps stay in their
      original relative order. */
  lemma {:induction false} WithoutIdConcat(a: seq<PlateResult>, b: seq<PlateResult>, id: string)
    ensures WithoutId(a + b, id) == WithoutId(a, id) + WithoutId(b, id)
    decreases |a|
  {
    if a != [] {
      assert (a + b)[1..] == a[1..] + b;
      WithoutIdConcat(a[1..], b, id);
    } else {
      assert a + b == b;
    }
  }

  /** Deleting an id nobody carries returns the list unchanged. */
  lemma {:induction false} WithoutIdAbsent(xs: seq<PlateResult>, id: string)
    requires forall k :: 0 <= k < |xs| ==> xs[k].id != id
    ensures WithoutId(xs, id) == xs
    decreases |xs|
  {
    if xs != [] {
      WithoutIdAbsent(xs[1..], id);
    }
  }

  /** Deleting the same id twice is the same as deleting it once. */
  lemma {:induction false} WithoutIdIdempotent(xs: seq<PlateResult>, id: string)
    ensures WithoutId(WithoutId(xs, id), id) == WithoutId(xs, id)
  {
    var once := WithoutId(xs, id);
    forall k | 0 <= k < |once| ensures once[k].id != id {
      assert once[k] in once;
    }
    WithoutIdAbsent(once, id);
  }

  class LocalStorage {
    /** The 'plates' key: None when the key is absent. */
    var plates: Option<seq<PlateResult>>
    /** The 'apiEndpoint' key: None when the key is absent. */
    var apiEndpoint: Option<string>

    constructor (plates: Option<seq<PlateResult>>, apiEndpoint: Option<string>)
      ensures this.plates == plates && this.apiEndpoint == apiEndpoint
    {
      this.plates := plates;
      this.apiEndpoint := apiEndpoint;
    }

    /** `getPlatesFromLocalStorage`: the stored list, or the empty list when
        the key is absent. */
    method GetPlates() returns (r: seq<PlateResult>)
      ensures plates.Some? ==> r == plates.value
      ensures plates.None? ==> r == []
    {
      r := if plates.Some? then plates.value else [];
    }

    /** `savePlateToLocalStorage(p)`: appends exactly `p` at the end of the
        stored list, an absent key counting as the empty list. */
    method SavePlate(p: PlateResult)
      modifies this`plates
      ensures plates.Some?
      ensures plates.value == old(plates).GetOr([]) + [p]
    {
      var current := GetPlates();
      current := current + [p];
      plates := Some(current);
    }

    /** `deletePlateFromLocalStorage(id)`: with nothing stored, returns false
        and writes nothing; otherwise writes back the list without the
        entries carrying `id` and returns true, whether or not any matched. */
    method DeletePlate(id: string) returns (deleted: bool)
      modifies this`plates
      ensures deleted == old(plates).Some?
      ensures !deleted ==> plates == old(plates)
      ensures deleted ==> plates == Some(WithoutId(old(plates).value, id))
    {
      if plates.None? {
        return false;
      }
      plates := Some(WithoutId(plates.value, id));
      deleted := true;
    }

    /** `clearAllPlatesFromLocalStorage`: removes the 'plates' key. */
    method ClearAllPlates()
      modifies this`plates
      ensures plates == None
    {
      plates := None;
    }

    /** `localStorage.setItem('plates', JSON.stringify(xs))`. */
    method SetPlates(xs: seq<PlateResult>)
      modifies this`plates
      ensures plates == Some(xs)
    {
      plates := Some(xs);
    }

    /** `localStorage.setItem('apiEndpoint', url)`. */
    method SetApiEndpoint(url: string)
      modifies this`apiEndpoint
      ensures apiEndpoint == Some(url)
    {
      apiEndpoint := Some(url);
    }
  }
}
