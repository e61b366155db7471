/** The photo list of the record form (`RecordFormInputs`): picking appends
    the chosen images, removing deletes one position with `splice`, and the
    add button shows while fewer than five images are listed. */
module RecordInputs {
  const MaxImages: nat := 5

  /** What the image library returns. */
  datatype PickResult = Canceled | Picked(uris: seq<string>)

  /** `pickImage`: without media-library permission, or when the picker is
      cancelled, the list stays; otherwise the picked URIs are appended in
      their order, with no deduplication and no cap on the total. */
  function AfterPick(uris: seq<string>, granted: bool, result: PickResult): (r: seq<string>)
    ensures !granted || result.Canceled? ==> r == uris
    ensures granted && result.Picked? ==>
              |r| == |uris| + |result.uris| && r[..|uris|] == uris && r[|uris|..] == result.uris
  {
    if !granted then uris
    else match result
      case Canceled => uris
      case Picked(picked) => uris + picked
  }

  /** The add button is rendered while the list holds fewer than five. */
  predicate ShowAddButton(uris: seq<string>) {
    |uris| < MaxImages
  }

  /** The five-image limit applies to one picker session only: four listed
      images plus a pick of five give nine, and the button disappears. */
  lemma PickIsNotCappedInTotal()
    ensures var four := ["a", "b", "c", "d"];
            var after := AfterPick(four, true, Picked(["e", "f", "g", "h", "i"]));
            ShowAddButton(four) && |after| == 9 && !ShowAddButton(after)
  {
  }

  /** The position `Array.prototype.splice(index, 1)` starts at: a negative
      index counts from the end, and both are clamped to the length. */
  function SpliceStart(n: nat, index: int): (k: nat)
    ensures k <= n
    ensures 0 <= index < n ==> k == index
    ensures index < 0 && 0 <= n + index ==> k == n + index
    ensures n + index < 0 ==> k == 0
    ensures index >= n ==> k == n
  {
    if index < 0 then (if n + index < 0 then 0 else n + index)
    else if index > n then n else index
  }

  /** The list after `splice(index, 1)`: the one element at the start
      position is gone, or nothing changes when the start is the end. */
  function Spliced(s: seq<string>, index: int): (r: seq<string>)
    ensures SpliceStart(|s|, index) == |s| ==> r == s
    ensures var k := SpliceStart(|s|, index);
            k < |s| ==> |r| == |s| - 1 && r[..k] == s[..k] && r[k..] == s[k + 1..]
  {
    var k := SpliceStart(|s|, index);
    if k < |s| then s[..k] + s[k + 1..] else s
  }

  /** `removeImage`: copy the list, splice one element out of the copy in
      place, and return the copy. */
  method RemoveImage(uris: seq<string>, index: int) returns (r: seq<string>)
    ensures r == Spliced(uris, index)
  {
    var n := |uris|;
    var copy := new string[n](i requires 0 <= i < n => uris[i]);
    var k := SpliceStart(n, index);
    if k == n {
      return copy[..];
    }
    var i := k;
    while i < n - 1
      invariant k <= i <= n - 1
      invariant copy[..k] == uris[..k]
      invariant forall j :: k <= j < i ==> copy[j] == uris[j + 1]
      invariant forall j :: i <= j < n ==> copy[j] == uris[j]
    {
      copy[i] := copy[i + 1];
      i := i + 1;
    }
    r := copy[..n - 1];
    assert r == uris[..k] + uris[k + 1..] by {
      assert forall j :: 0 <= j < k ==> r[j] == uris[..k][j];
      assert forall j :: k <= j < n - 1 ==> r[j] == uris[k + 1..][j - k];
    }
  }

  /** Removing the thumbnail at position `i` drops exactly that image and
      keeps the others in order. */
  lemma RemoveRenderedIndex(uris: seq<string>, i: int)
    requires 0 <= i < |uris|
    ensures var r := Spliced(uris, i);
            |r| == |uris| - 1 &&
            (forall j :: 0 <= j < i ==> r[j] == uris[j]) &&
            (forall j :: i <= j < |r| ==> r[j] == uris[j + 1])
  {
  }

  /** A position outside the list from both ends, or the length itself,
      changes nothing. */
  lemma RemoveOutOfRange(uris: seq<string>, index: int)
    requires index >= |uris|
    ensures Spliced(uris, index) == uris
  {
  }
}
