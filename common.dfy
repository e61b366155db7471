/** Small shared vocabulary: optional values, JavaScript truthiness of the
    loosely typed document fields, Firestore's `arrayUnion`, and the
    order-preserving subsequence relation used by the filters. */
module Common {

  datatype Option<+T> = None | Some(value: T)

  /** `x` is truthy in JavaScript: present and not the empty string. */
  predicate Truthy(x: Option<string>) {
    x.Some? && x.value != ""
  }

  /** `x || fallback` for an optional string. */
  function StrOr(x: Option<string>, fallback: string): (r: string)
    ensures Truthy(x) ==> r == x.value
    ensures !Truthy(x) ==> r == fallback
  {
    if Truthy(x) then x.value else fallback
  }

  /** `x || null` for an optional string: the empty string becomes null. */
  function NonEmpty(x: Option<string>): (r: Option<string>)
    ensures r.Some? <==> Truthy(x)
    ensures r.Some? ==> r == x
  {
    if Truthy(x) then x else None
  }

  /** `x || fallback` for an optional number: absent and 0 are falsy. */
  function NumOr(x: Option<int>, fallback: int): (r: int)
    ensures x.Some? && x.value != 0 ==> r == x.value
    ensures x.None? || x.value == 0 ==> r == fallback
  {
    if x.Some? && x.value != 0 then x.value else fallback
  }

  /** `x ?? fallback`: only an absent value is replaced. */
  function NumOrElse(x: Option<int>, fallback: int): (r: int)
    ensures x.Some? ==> r == x.value
    ensures x.None? ==> r == fallback
  {
    if x.Some? then x.value else fallback
  }

  /** Firestore's `arrayUnion(x)` on an array field that may be absent:
      the element is added at the end unless it is already there. */
  function ArrayUnion(arr: Option<seq<string>>, x: string): (r: seq<string>)
    ensures x in r
    ensures arr.Some? ==> forall y :: y in arr.value ==> y in r
    ensures forall y :: y in r ==> y == x || (arr.Some? && y in arr.value)
    ensures arr.Some? && x in arr.value ==> r == arr.value
    ensures arr.Some? && x !in arr.value ==> r == arr.value + [x]
  {
    var old_ := if arr.Some? then arr.value else [];
    if x in old_ then old_ else old_ + [x]
  }

  lemma ArrayUnionIdempotent(arr: Option<seq<string>>, x: string)
    ensures ArrayUnion(Some(ArrayUnion(arr, x)), x) == ArrayUnion(arr, x)
  {
  }

  /** `sub` is `s` with some elements dropped and the rest in their order. */
  predicate IsSubsequence<T(==)>(sub: seq<T>, s: seq<T>)
    decreases |s|
  {
    if sub == [] then true
    else if s == [] then false
    else if sub[0] == s[0] then IsSubsequence(sub[1..], s[1..])
    else IsSubsequence(sub, s[1..])
  }

  /** Dropping the first element of a subsequence keeps it a subsequence. */
  lemma {:induction false} SubsequenceDropFirst<T>(sub: seq<T>, s: seq<T>)
    requires sub != []
    requires IsSubsequence(sub, s)
    ensures IsSubsequence(sub[1..], s)
    decreases |s|, 1
  {
    if sub[0] == s[0] {
      SubsequenceOfTail(sub[1..], s);
    } else {
      SubsequenceDropFirst(sub, s[1..]);
      SubsequenceOfTail(sub[1..], s);
    }
  }

  /** A subsequence of the tail is a subsequence of the whole. */
  lemma {:induction false} SubsequenceOfTail<T>(sub: seq<T>, s: seq<T>)
    requires s != []
    requires IsSubsequence(sub, s[1..])
    ensures IsSubsequence(sub, s)
    decreases |s|, 0
  {
    if sub != [] && sub[0] == s[0] {
      SubsequenceDropFirst(sub, s[1..]);
    }
  }
}
