/**
 * Grouping a query snapshot by a string key, as the operator console and the admin panel do
 * when they fold documents into a dictionary keyed by user e-mail: which elements each key
 * collects, and in which order the keys first appear (the iteration order of the dictionary).
 */
module Grouping {

  /** The elements of s whose key is k, in the order of s (a `where(field, '==', k)` query). */
  function Matching<T>(s: seq<T>, key: T -> string, k: string): (r: seq<T>)
    ensures |r| <= |s|
  {
    if |s| == 0 then []
    else Matching(s[..|s| - 1], key, k) + (if key(s[|s| - 1]) == k then [s[|s| - 1]] else [])
  }

  /** The group of k holds exactly the elements of s whose key is k. */
  lemma {:induction false} MatchingMembers<T>(s: seq<T>, key: T -> string, k: string)
    ensures forall x :: x in Matching(s, key, k) <==> x in s && key(x) == k
  {
    if |s| > 0 {
      assert s == s[..|s| - 1] + [s[|s| - 1]];
      MatchingMembers(s[..|s| - 1], key, k);
    }
  }

  /** Extending a snapshot by one element extends exactly the group of that element's key. */
  lemma MatchingSnoc<T>(s: seq<T>, x: T, key: T -> string, k: string)
    ensures Matching(s + [x], key, k) == Matching(s, key, k) + (if key(x) == k then [x] else [])
  {
    assert (s + [x])[..|s|] == s;
  }

  predicate Distinct(ks: seq<string>)
  {
    forall i, j :: 0 <= i < j < |ks| ==> ks[i] != ks[j]
  }

  /** The distinct keys of s, in the order of their first appearance. */
  function KeysInOrder<T>(s: seq<T>, key: T -> string): (r: seq<string>)
    ensures Distinct(r)
  {
    if |s| == 0 then []
    else
      var p := KeysInOrder(s[..|s| - 1], key);
      var k := key(s[|s| - 1]);
      if k in p then p else p + [k]
  }

  /** The keys listed are exactly the keys of the elements of s. */
  lemma {:induction false} KeysInOrderMembers<T>(s: seq<T>, key: T -> string)
    ensures forall k :: k in KeysInOrder(s, key) <==> exists i :: 0 <= i < |s| && key(s[i]) == k
  {
    if |s| > 0 {
      KeysInOrderMembers(s[..|s| - 1], key);
      assert forall i :: 0 <= i < |s| - 1 ==> s[..|s| - 1][i] == s[i];
    }
  }

  /** A key that no element has collects nothing. */
  lemma {:induction false} NoMatchOutsideKeys<T>(s: seq<T>, key: T -> string, k: string)
    requires k !in KeysInOrder(s, key)
    ensures Matching(s, key, k) == []
  {
    if |s| > 0 {
      NoMatchOutsideKeys(s[..|s| - 1], key, k);
    }
  }

  lemma KeysInOrderSnoc<T>(s: seq<T>, x: T, key: T -> string)
    ensures KeysInOrder(s + [x], key) ==
      if key(x) in KeysInOrder(s, key) then KeysInOrder(s, key) else KeysInOrder(s, key) + [key(x)]
  {
    assert (s + [x])[..|s|] == s;
  }
}
