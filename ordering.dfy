/**
 * The orderings the query layer applies: `order_by('-field')` (a sort by a
 * key, largest first), slicing `[:n]`, and reading an append-only table
 * newest-first.
 */
module Ordering {

  /** Largest key first. */
  predicate NonIncreasing<T>(s: seq<T>, key: T -> int) {
    forall i, j | 0 <= i < j < |s| :: key(s[i]) >= key(s[j])
  }

  function Insert<T(==)>(x: T, s: seq<T>, key: T -> int): (r: seq<T>)
    requires NonIncreasing(s, key)
    ensures NonIncreasing(r, key)
    ensures multiset(r) == multiset(s) + multiset{x}
    ensures forall i | 0 <= i < |r| :: r[i] == x || r[i] in s
  {
    if s == [] then [x]
    else if key(x) >= key(s[0]) then [x] + s
    else
      assert s == [s[0]] + s[1..];
      [s[0]] + Insert(x, s[1..], key)
  }

  /** `order_by(-key)`: the rows sorted by key, largest first. */
  function SortDesc<T(==)>(s: seq<T>, key: T -> int): (r: seq<T>)
    ensures NonIncreasing(r, key)
    ensures multiset(r) == multiset(s)
  {
    if s == [] then []
    else
      assert s == [s[0]] + s[1..];
      Insert(s[0], SortDesc(s[1..], key), key)
  }

  /** The slice `s[:n]`. */
  function Take<T>(s: seq<T>, n: nat): (r: seq<T>)
    ensures |r| == if |s| < n then |s| else n
    ensures r == s[..|r|]
  {
    if |s| < n then s else s[..n]
  }

  /** A prefix and the rest make up the whole, as multisets. */
  lemma PrefixRest<T>(s: seq<T>, k: nat)
    requires k <= |s|
    ensures multiset(s[..k]) <= multiset(s)
    ensures multiset(s) - multiset(s[..k]) == multiset(s[k..])
  {
    assert s == s[..k] + s[k..];
  }

  /** A prefix of a sequence sorted largest first is sorted too. */
  lemma PrefixSorted<T>(s: seq<T>, k: nat, key: T -> int)
    requires NonIncreasing(s, key) && k <= |s|
    ensures NonIncreasing(s[..k], key)
  {
    forall i, j | 0 <= i < j < k
      ensures key(s[..k][i]) >= key(s[..k][j])
    {
      assert s[..k][i] == s[i] && s[..k][j] == s[j];
    }
  }

  /** In a sequence sorted largest first, nothing after the first k has a larger key than any of them. */
  lemma PrefixIsTop<T>(s: seq<T>, k: nat, key: T -> int)
    requires NonIncreasing(s, key) && k <= |s|
    ensures forall x, i | x in multiset(s) - multiset(s[..k]) && 0 <= i < k :: key(x) <= key(s[i])
  {
    PrefixRest(s, k);
    forall x, i | x in multiset(s) - multiset(s[..k]) && 0 <= i < k
      ensures key(x) <= key(s[i])
    {
      assert x in s[k..];
      var j :| k <= j < |s| && s[j] == x;
    }
  }

  /** The rows of an append-only table, most recently appended first. */
  function Reverse<T>(s: seq<T>): (r: seq<T>)
    ensures |r| == |s|
    ensures forall i | 0 <= i < |s| :: r[i] == s[|s| - 1 - i]
  {
    if s == [] then [] else [s[|s| - 1]] + Reverse(s[..|s| - 1])
  }
}
