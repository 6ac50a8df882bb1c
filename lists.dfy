/** The operations of .NET's `List<T>` that the panels use, on sequences. */
module Lists {

  /** `List.IndexOf`: the first position of `x`, or -1 when `x` is absent. */
  function IndexOf<T(==)>(s: seq<T>, x: T): (r: int)
    ensures -1 <= r < |s|
    ensures r == -1 <==> x !in s
    ensures 0 <= r ==> s[r] == x && x !in s[..r]
  {
    if s == [] then -1
    else if s[0] == x then 0
    else
      var k := IndexOf(s[1..], x);
      if k < 0 then -1 else k + 1
  }

  /** Appending `x` does not move an earlier occurrence, and puts a new one last. */
  lemma {:induction false} IndexOfAppend<T>(s: seq<T>, x: T)
    ensures x in s ==> IndexOf(s + [x], x) == IndexOf(s, x)
    ensures x !in s ==> IndexOf(s + [x], x) == |s|
  {
    if s != [] && s[0] != x {
      assert (s + [x])[1..] == s[1..] + [x];
      IndexOfAppend(s[1..], x);
    }
  }

  /** The position of an occurrence with none before it is the index `IndexOf` finds. */
  lemma IndexOfAt<T>(s: seq<T>, x: T, k: nat)
    requires k < |s| && s[k] == x && x !in s[..k]
    ensures IndexOf(s, x) == k
  {
    assert x in s;
  }

  /** `List.Remove`: drops the first occurrence of `x`, if any. */
  function RemoveFirst<T(==)>(s: seq<T>, x: T): (r: seq<T>)
    ensures x !in s ==> r == s
    ensures x in s ==> |r| == |s| - 1 && multiset(r) == multiset(s) - multiset{x}
  {
    var k := IndexOf(s, x);
    if k < 0 then s
    else
      assert s == s[..k] + [s[k]] + s[k + 1..];
      s[..k] + s[k + 1..]
  }

  /** Removal keeps the order of what is left: everything before the removed element stays in place. */
  lemma RemoveFirstKeepsPrefix<T>(s: seq<T>, x: T)
    requires x in s
    ensures var k := IndexOf(s, x); RemoveFirst(s, x)[..k] == s[..k] && RemoveFirst(s, x)[k..] == s[k + 1..]
  {
  }

  /** No element occurs twice. */
  predicate Distinct<T(==)>(s: seq<T>) {
    forall i, j :: 0 <= i < j < |s| ==> s[i] != s[j]
  }
}
