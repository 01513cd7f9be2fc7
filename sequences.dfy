/** `List<T>.Remove` and the index search it performs, on sequences. */
module Sequences {

  /** `IndexOf`: the index of the first `x` in `s`, or `|s|` when there is none. */
  function FirstIndex<T(==)>(s: seq<T>, x: T): (k: nat)
    ensures k <= |s|
    ensures k < |s| ==> s[k] == x
    ensures forall i :: 0 <= i < k ==> s[i] != x
    ensures k < |s| <==> x in s
  {
    if s == [] then 0 else if s[0] == x then 0 else 1 + FirstIndex(s[1..], x)
  }

  /** `RemoveAt(k)`: the elements before `k` stay put, and those after it move down by one. */
  function RemoveAt<T>(s: seq<T>, k: nat): (r: seq<T>)
    requires k < |s|
    ensures |r| == |s| - 1
    ensures forall i :: 0 <= i < |r| ==> r[i] == if i < k then s[i] else s[i + 1]
  {
    s[..k] + s[k + 1..]
  }

  /**
   * `List<T>.Remove(x)`, which is `IndexOf` followed by `RemoveAt`: the
   * first element equal to `x` is cut out and the rest keep their order;
   * when `x` is absent nothing changes.
   */
  function RemoveFirst<T(==)>(s: seq<T>, x: T): (r: seq<T>)
    ensures x !in s ==> r == s
    ensures x in s ==> |r| == |s| - 1
    ensures x in s ==> forall i :: 0 <= i < |r| ==> r[i] == if i < FirstIndex(s, x) then s[i] else s[i + 1]
  {
    var k := FirstIndex(s, x);
    if k < |s| then RemoveAt(s, k) else s
  }

  /** Removal takes away exactly one copy of `x` when there is one, and nothing else. */
  lemma RemoveFirstMultiset<T>(s: seq<T>, x: T)
    ensures multiset(RemoveFirst(s, x)) == multiset(s) - multiset{x}
  {
    var k := FirstIndex(s, x);
    if k < |s| {
      assert s == s[..k] + [x] + s[k + 1..];
      assert RemoveFirst(s, x) == s[..k] + s[k + 1..];
      calc {
        multiset(s);
        multiset(s[..k] + [x] + s[k + 1..]);
        multiset(s[..k]) + multiset{x} + multiset(s[k + 1..]);
        multiset(RemoveFirst(s, x)) + multiset{x};
      }
    } else {
      assert x !in multiset(s);
    }
  }
}
