/** The mobile client's result store (`StorageService`): one list of
    `NumberplateEntry` kept under the 'numberplates' key of the device's
    asynchronous key-value storage. JSON encoding of the list is taken to
    round-trip exactly, so the key holds the list itself. */
module MobileStorage {
  import opened Records

  /** `findIndex(plate => plate.id === id)`: the first position holding `id`,
      or None where the source gets -1. */
  function FindIndex(xs: seq<NumberplateEntry>, id: string): (r: Option<nat>)
    ensures r.Some? ==> r.value < |xs| && xs[r.value].id == id
    ensures r.Some? ==> forall k :: 0 <= k < r.value ==> xs[k].id != id
    ensures r.None? ==> forall k :: 0 <= k < |xs| ==> xs[k].id != id
  {
    if xs == [] then None
    else if xs[0].id == id then Some(0)
    else match FindIndex(xs[1..], id)
      case None => None
      case Some(k) => Some(k + 1)
  }

  /** True when position `k` is the first one whose id is `id`. */
  predicate FirstWithId(xs: seq<NumberplateEntry>, id: string, k: nat)
    requires k < |xs|
  {
    xs[k].id == id && forall j :: 0 <= j < k ==> xs[j].id != id
  }

  /** The list after `updateNumberplate(u)`: the first entry with `u`'s id is
      replaced by `u`; every other position keeps its entry. */
  function Updated(xs: seq<NumberplateEntry>, u: NumberplateEntry): (r: seq<NumberplateEntry>)
    ensures |r| == |xs|
    ensures forall k :: 0 <= k < |xs| ==> r[k] == if FirstWithId(xs, u.id, k) then u else xs[k]
  {
    match FindIndex(xs, u.id)
    case None => xs
    case Some(k) => xs[k := u]
  }

  /** Updating twice with the same entry is the same as updating once. */
  lemma UpdatedIdempotent(xs: seq<NumberplateEntry>, u: NumberplateEntry)
    ensures Updated(Updated(xs, u), u) == Updated(xs, u)
  {
  }

  /** How an update ended: no entry matched (nothing is written), the list
      was written back, or the write failed and the error was rethrown. */
  datatype WriteResult = NotFound | Written | WriteFailed

  class StorageService {
    /** The 'numberplates' key: None until the list has first been written. */
    var stored: Option<seq<NumberplateEntry>>

    constructor (initial: Option<seq<NumberplateEntry>>)
      ensures stored == initial
    {
      stored := initial;
    }

    /** `getNumberplates`: the stored list, or the empty list when nothing is
        stored or when reading (or decoding) fails (`readOk` false). */
    method GetNumberplates(readOk: bool) returns (r: seq<NumberplateEntry>)
      ensures readOk && stored.Some? ==> r == stored.value
      ensures !readOk || stored.None? ==> r == []
    {
      if readOk && stored.Some? {
        r := stored.value;
      } else {
        r := [];
      }
    }

    /** `saveNumberplates(xs)`: on success the key holds exactly `xs`; a failed
        write (`writeOk` false) leaves the key as it was and is reported. */
    method SaveNumberplates(xs: seq<NumberplateEntry>, writeOk: bool) returns (saved: bool)
      modifies this
      ensures saved == writeOk
      ensures stored == if writeOk then Some(xs) else old(stored)
    {
      if writeOk {
        stored := Some(xs);
      }
      saved := writeOk;
    }

    /** `addNumberplate(e)`: load, push `e`, save. A failed read loads the
        empty list, so the key is then overwritten with `[e]`. */
    method AddNumberplate(e: NumberplateEntry, readOk: bool, writeOk: bool) returns (saved: bool)
      modifies this
      ensures saved == writeOk
      ensures writeOk ==> stored == Some((if readOk then old(stored).GetOr([]) else []) + [e])
      ensures !writeOk ==> stored == old(stored)
    {
      var numberplates := GetNumberplates(readOk);
      numberplates := numberplates + [e];
      saved := SaveNumberplates(numberplates, writeOk);
    }

    /** `updateNumberplate(u)`: load, replace the first entry with `u`'s id,
        and write back only when such an entry exists. */
    method UpdateNumberplate(u: NumberplateEntry, readOk: bool, writeOk: bool) returns (result: WriteResult)
      modifies this
      ensures var loaded := if readOk then old(stored).GetOr([]) else [];
        && (result == NotFound <==> forall k :: 0 <= k < |loaded| ==> loaded[k].id != u.id)
        && (result == Written ==> stored == Some(Updated(loaded, u)))
        && (result != Written ==> stored == old(stored))
        && (result != NotFound ==> (result == Written <==> writeOk))
    {
      var numberplates := GetNumberplates(readOk);
      var index := FindIndex(numberplates, u.id);
      if index.Some? {
        numberplates := numberplates[index.value := u];
        var saved := SaveNumberplates(numberplates, writeOk);
        result := if saved then Written else WriteFailed;
      } else {
        result := NotFound;
      }
    }
  }
}
