/**
 * The list collection that holds an Ad's children: an ordered sequence of object
 * identities. Membership is strict identity (`in_array` with `===`), `$c[] = $x`
 * appends at the end, and removing an element deletes its first occurrence only
 * (`array_search` followed by `unset`), leaving the order of the rest intact.
 */
module ArrayCollection {

  /** No identity occurs twice in the collection. */
  predicate NoDuplicates<T(==)>(s: seq<T>) {
    forall i, j :: 0 <= i < j < |s| ==> s[i] != s[j]
  }

  /** Position of the first occurrence of `x`: what a strict `array_search` finds. */
  function IndexOf<T(==)>(s: seq<T>, x: T): (i: nat)
    requires x in s
    ensures i < |s| && s[i] == x
    ensures forall j :: 0 <= j < i ==> s[j] != x
  {
    if s[0] == x then 0 else 1 + IndexOf(s[1..], x)
  }

  /** `removeElement`: delete the first occurrence of `x`, if there is one. */
  function RemoveElement<T(==)>(s: seq<T>, x: T): (r: seq<T>)
    ensures x !in s ==> r == s
    ensures x in s ==> |r| == |s| - 1
    ensures x in s ==> r == s[..IndexOf(s, x)] + s[IndexOf(s, x) + 1..]
    ensures multiset(r) == multiset(s) - multiset{x}
  {
    if x in s then
      var i := IndexOf(s, x);
      assert s == s[..i] + [s[i]] + s[i+1..];
      s[..i] + s[i+1..]
    else
      assert multiset(s)[x] == 0;
      s
  }

  /** Appending an identity the collection does not hold keeps it duplicate-free. */
  lemma AppendNoDuplicates<T>(s: seq<T>, x: T)
    requires NoDuplicates(s) && x !in s
    ensures NoDuplicates(s + [x])
  {
    var t := s + [x];
    forall i, j | 0 <= i < j < |t|
      ensures t[i] != t[j]
    {
      if j == |s| {
        assert t[i] == s[i];
      }
    }
  }

  /**
   * On a duplicate-free collection, removing `x` removes every trace of it,
   * keeps the collection duplicate-free and leaves the other members in place.
   */
  lemma RemoveElementNoDuplicates<T>(s: seq<T>, x: T)
    requires NoDuplicates(s)
    ensures NoDuplicates(RemoveElement(s, x))
    ensures x !in RemoveElement(s, x)
    ensures forall y :: y in s && y != x ==> y in RemoveElement(s, x)
  {
    if x in s {
      var i := IndexOf(s, x);
      assert RemoveElement(s, x) == s[..i] + s[i+1..];
    }
  }

  /** Removing what was just appended to a collection that lacked it restores the collection. */
  lemma RemoveAppended<T>(s: seq<T>, x: T)
    requires x !in s
    ensures RemoveElement(s + [x], x) == s
  {
    var t := s + [x];
    var i := IndexOf(t, x);
    assert t[|s|] == x;
    assert i == |s|;
    assert t[..i] == s;
  }
}
