/** The two list updates the editor performs on its cube array. */
module Sequences {

  /** `const copy = [...s]; copy[i] = x`: a copy of `s` with entry `i` replaced. */
  function ReplaceAt<T>(s: seq<T>, i: nat, x: T): (r: seq<T>)
    requires i < |s|
    ensures |r| == |s| && r[i] == x
    ensures forall j :: 0 <= j < |s| && j != i ==> r[j] == s[j]
  {
    s[i := x]
  }

  /**
   * `s.filter((_, idx) => idx !== k)`, walking `s` whose first element has
   * index `from` in the array being filtered.
   */
  function FilterIndex<T>(s: seq<T>, k: nat, from: nat): seq<T>
    decreases |s|
  {
    if s == [] then []
    else (if from == k then [] else [s[0]]) + FilterIndex(s[1..], k, from + 1)
  }

  /** When index `k` falls inside the walked part, exactly that element is dropped. */
  lemma {:induction false} FilterIndexDropsOne<T>(s: seq<T>, k: nat, from: nat)
    requires from <= k < from + |s|
    ensures FilterIndex(s, k, from) == s[..k - from] + s[k - from + 1..]
    decreases |s|
  {
    if from == k {
      FilterIndexKeepsAll(s[1..], k, from + 1);
    } else {
      FilterIndexDropsOne(s[1..], k, from + 1);
      assert s[..k - from] == [s[0]] + s[1..][..k - from - 1];
      assert s[k - from + 1..] == s[1..][k - from..];
    }
  }

  /** When index `k` falls outside the walked part, nothing is dropped. */
  lemma {:induction false} FilterIndexKeepsAll<T>(s: seq<T>, k: nat, from: nat)
    requires k < from || from + |s| <= k
    ensures FilterIndex(s, k, from) == s
    decreases |s|
  {
    if s != [] {
      FilterIndexKeepsAll(s[1..], k, from + 1);
      assert s == [s[0]] + s[1..];
    }
  }

  /** The delete filter over a whole array: remove the element at index `k`, if any. */
  function RemoveAt<T>(s: seq<T>, k: nat): (r: seq<T>)
    ensures k < |s| ==> r == s[..k] + s[k + 1..]
    ensures k < |s| ==> |r| == |s| - 1
    ensures k < |s| ==> forall j :: 0 <= j < k ==> r[j] == s[j]
    ensures k < |s| ==> forall j :: k <= j < |r| ==> r[j] == s[j + 1]
    ensures |s| <= k ==> r == s
  {
    if k < |s| then
      FilterIndexDropsOne(s, k, 0);
      FilterIndex(s, k, 0)
    else
      FilterIndexKeepsAll(s, k, 0);
      FilterIndex(s, k, 0)
  }
}
