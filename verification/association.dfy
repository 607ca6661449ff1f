/**
 * A bidirectional one-to-many association seen from its inverse (owner) side.
 * The owner keeps an ordered collection of children; each child keeps a
 * nullable reference to its owner (the owning side of the mapping). `Attach`
 * and `Detach` are the shared shape of the Ad's add and remove methods for
 * images, bookings and comments.
 */
module Association {
  import opened Options
  import opened ArrayCollection

  /**
   * `items` is the owner's collection; `owner` maps each child to its owner
   * reference. The map is shared by all owners; a child absent from it has a
   * null reference.
   */
  datatype OneToMany<C, O> = OneToMany(items: seq<C>, owner: map<C, Option<O>>)

  /** The owner reference a child currently holds (null when never set). */
  function OwnerOf<C, O>(owner: map<C, Option<O>>, c: C): Option<O> {
    if c in owner then owner[c] else None
  }

  /** Every child in the collection refers back to `self`. */
  predicate PointsBack<C, O(==)>(rel: OneToMany<C, O>, self: O) {
    forall c :: c in rel.items ==> OwnerOf(rel.owner, c) == Some(self)
  }

  /** The consistency the add and remove methods are meant to keep. */
  predicate WellFormed<C(==), O(==)>(rel: OneToMany<C, O>, self: O) {
    NoDuplicates(rel.items) && PointsBack(rel, self)
  }

  /**
   * `add*`: when the child is not yet in the collection it is appended and its
   * owner reference is set to `self`; otherwise nothing changes at all.
   */
  function Attach<C(==,!new), O>(rel: OneToMany<C, O>, self: O, c: C): (r: OneToMany<C, O>)
    ensures c in r.items
    ensures c in rel.items ==> r == rel
    ensures c !in rel.items ==> r.items == rel.items + [c] && OwnerOf(r.owner, c) == Some(self)
    ensures forall d :: d != c ==> OwnerOf(r.owner, d) == OwnerOf(rel.owner, d)
  {
    if c !in rel.items then
      OneToMany(rel.items + [c], rel.owner[c := Some(self)])
    else
      rel
  }

  /**
   * `remove*`: when the child is in the collection it is removed, and its owner
   * reference is cleared only if it still designates `self`; a child that is
   * not in the collection changes nothing.
   */
  function Detach<C(==,!new), O(==)>(rel: OneToMany<C, O>, self: O, c: C): (r: OneToMany<C, O>)
    ensures c !in rel.items ==> r == rel
    ensures c in rel.items ==> multiset(r.items) == multiset(rel.items) - multiset{c}
    ensures c in rel.items ==> r.items == RemoveElement(rel.items, c)
    ensures c in rel.items && OwnerOf(rel.owner, c) == Some(self) ==> OwnerOf(r.owner, c) == None
    ensures OwnerOf(rel.owner, c) != Some(self) ==> r.owner == rel.owner
    ensures forall d :: d != c ==> OwnerOf(r.owner, d) == OwnerOf(rel.owner, d)
  {
    if c in rel.items then
      var items := RemoveElement(rel.items, c);
      if OwnerOf(rel.owner, c) == Some(self) then
        OneToMany(items, rel.owner[c := None])
      else
        OneToMany(items, rel.owner)
    else
      rel
  }

  /** Attaching keeps the association well formed and leaves the child linked to `self`. */
  lemma AttachWellFormed<C(!new), O>(rel: OneToMany<C, O>, self: O, c: C)
    requires WellFormed(rel, self)
    ensures WellFormed(Attach(rel, self, c), self)
    ensures OwnerOf(Attach(rel, self, c).owner, c) == Some(self)
  {
    if c !in rel.items {
      AppendNoDuplicates(rel.items, c);
    }
  }

  /**
   * Detaching keeps the association well formed; the child leaves the
   * collection, every other child stays, and the child's reference is cleared.
   */
  lemma DetachWellFormed<C(!new), O>(rel: OneToMany<C, O>, self: O, c: C)
    requires WellFormed(rel, self)
    ensures WellFormed(Detach(rel, self, c), self)
    ensures c !in Detach(rel, self, c).items
    ensures forall d :: d in rel.items && d != c ==> d in Detach(rel, self, c).items
    ensures c in rel.items ==> OwnerOf(Detach(rel, self, c).owner, c) == None
  {
    RemoveElementNoDuplicates(rel.items, c);
    var r := Detach(rel, self, c);
    if c in rel.items {
      assert r.items == RemoveElement(rel.items, c);
      forall d | d in r.items
        ensures OwnerOf(r.owner, d) == Some(self)
      {
        assert multiset(r.items)[d] > 0;
        assert d in rel.items;
      }
    }
  }

  /** A repeated add is idempotent. */
  lemma AttachIdempotent<C(!new), O>(rel: OneToMany<C, O>, self: O, c: C)
    ensures Attach(Attach(rel, self, c), self, c) == Attach(rel, self, c)
  {
  }

  /**
   * Adding a child the owner lacked and then removing it restores the
   * collection exactly; the child is left with a null reference.
   */
  lemma DetachAttach<C(!new), O>(rel: OneToMany<C, O>, self: O, c: C)
    requires c !in rel.items
    ensures Detach(Attach(rel, self, c), self, c).items == rel.items
    ensures OwnerOf(Detach(Attach(rel, self, c), self, c).owner, c) == None
  {
    RemoveAppended(rel.items, c);
  }

  /**
   * Another owner removing a child never disturbs this owner's consistency:
   * the reference is cleared only when it designates the remover.
   */
  lemma DetachElsewhereKeepsPointsBack<C(!new), O>(mine: seq<C>, other: OneToMany<C, O>, self: O, remover: O, c: C)
    requires self != remover
    requires PointsBack(OneToMany(mine, other.owner), self)
    ensures PointsBack(OneToMany(mine, Detach(other, remover, c).owner), self)
  {
  }

  /**
   * Another owner adding a child this owner holds, and that it lacked, takes the
   * child's reference away: consistency is kept per owner, not across owners.
   */
  lemma AttachElsewhereBreaksPointsBack<C(!new), O>(mine: seq<C>, other: OneToMany<C, O>, self: O, adder: O, c: C)
    requires self != adder
    requires c in mine && c !in other.items
    ensures !PointsBack(OneToMany(mine, Attach(other, adder, c).owner), self)
  {
    assert OwnerOf(Attach(other, adder, c).owner, c) == Some(adder);
  }
}
