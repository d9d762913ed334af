/** The two array operations the source relies on: `findIndex` and `splice(i, 1)`. */
module Seqs {

  /** The index of the first element of `s` that satisfies `matches`, or -1 when none does. */
  function FirstIndex<T>(s: seq<T>, matches: T -> bool): (i: int)
    ensures -1 <= i < |s|
    ensures i == -1 <==> forall k :: 0 <= k < |s| ==> !matches(s[k])
    ensures 0 <= i ==> matches(s[i]) && forall k :: 0 <= k < i ==> !matches(s[k])
  {
    if |s| == 0 then -1
    else if matches(s[0]) then 0
    else
      var j := FirstIndex(s[1..], matches);
      if j == -1 then -1 else j + 1
  }

  /** `s` with the element at `i` removed; the others keep their order. */
  function RemoveAt<T>(s: seq<T>, i: nat): (r: seq<T>)
    requires i < |s|
    ensures |r| == |s| - 1
    ensures forall k :: 0 <= k < i ==> r[k] == s[k]
    ensures forall k :: i <= k < |r| ==> r[k] == s[k + 1]
  {
    s[..i] + s[i + 1..]
  }

  /** Two sequences whose elements agree on `matches` have the same first match. */
  lemma FirstIndexAgrees<T>(s: seq<T>, t: seq<T>, matches: T -> bool)
    requires |s| == |t|
    requires forall k :: 0 <= k < |s| ==> matches(s[k]) == matches(t[k])
    ensures FirstIndex(s, matches) == FirstIndex(t, matches)
  {
  }
}
