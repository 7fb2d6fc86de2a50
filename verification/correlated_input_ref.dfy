/** A reference from inside a subquery to a column of an enclosing relation: the column's
    index and type, how many subquery levels up the relation is (`depth`), and the id of
    the Apply operator it belongs to, which the planner fills in later through a shared
    reference (a `RefCell`, so the only field that changes after construction).

    Equality compares all four parts, while hashing uses only the first three: equal
    references hash equally, and references that differ only in the id collide. */
module CorrelatedInputRefs {
  import opened Common

  /** `CorrelatedId`; 0 means not yet assigned. */
  type CorrelatedId = u32

  const UNINITIALIZED_ID: CorrelatedId := 0

  /** What `hash` feeds to the hasher, in order: index, data type, depth. */
  datatype HashKey = HashKey(index: nat, dataType: DataType, depth: nat)

  class CorrelatedInputRef {
    const index: nat
    const dataType: DataType
    const depth: nat
    var correlatedId: CorrelatedId

    /** `new`: the id starts uninitialized. */
    constructor (index: nat, dataType: DataType, depth: nat)
      ensures Index() == index && ReturnType() == dataType && Depth() == depth
      ensures GetCorrelatedId() == UNINITIALIZED_ID
    {
      this.index := index;
      this.dataType := dataType;
      this.depth := depth;
      correlatedId := UNINITIALIZED_ID;
    }

    function Index(): nat
    {
      index
    }

    function Depth(): nat
    {
      depth
    }

    /** `Expr::return_type`. */
    function ReturnType(): DataType
    {
      dataType
    }

    function GetCorrelatedId(): CorrelatedId
      reads this
    {
      correlatedId
    }

    /** `set_correlated_id`: replaces the id. Index, type and depth are `const`, so no
        call can change them. */
    method SetCorrelatedId(id: CorrelatedId)
      modifies this
      ensures GetCorrelatedId() == id
    {
      correlatedId := id;
    }

    /** The derived `Clone`: a new reference with its own id cell holding the same id. */
    method Clone() returns (c: CorrelatedInputRef)
      ensures fresh(c)
      ensures c.Index() == Index() && c.ReturnType() == ReturnType() && c.Depth() == Depth()
      ensures c.GetCorrelatedId() == GetCorrelatedId()
    {
      c := new CorrelatedInputRef(index, dataType, depth);
      c.correlatedId := correlatedId;
    }

    /** `PartialEq::eq`: index, data type, depth and the current id all agree, that is,
        the hashed fields agree and so do the ids. */
    predicate Equals(other: CorrelatedInputRef)
      reads this, other
      ensures Equals(other) <==> Key() == other.Key() && GetCorrelatedId() == other.GetCorrelatedId()
    {
      && index == other.index
      && dataType == other.dataType
      && depth == other.depth
      && correlatedId == other.correlatedId
    }

    /** The fields `hash` writes; the id is not one of them. */
    function Key(): (k: HashKey)
      ensures k.index == Index() && k.dataType == ReturnType() && k.depth == Depth()
    {
      HashKey(index, dataType, depth)
    }

    /** `Hash::hash` with any hasher, seen as a function of the fields it is fed. */
    function Hash<H>(hasher: HashKey -> H): H
    {
      hasher(Key())
    }
  }

  /** Equal references hash equally, whatever the hasher: the `Eq`/`Hash` contract. */
  lemma EqualImpliesSameHash<H>(a: CorrelatedInputRef, b: CorrelatedInputRef, hasher: HashKey -> H)
    requires a.Equals(b)
    ensures a.Hash(hasher) == b.Hash(hasher)
  {
  }

  /** The hash does not see the id: two references that differ only there are unequal
      but collide under every hasher. */
  lemma HashIgnoresCorrelatedId<H>(a: CorrelatedInputRef, b: CorrelatedInputRef, hasher: HashKey -> H)
    requires a.Index() == b.Index() && a.ReturnType() == b.ReturnType() && a.Depth() == b.Depth()
    requires a.GetCorrelatedId() != b.GetCorrelatedId()
    ensures !a.Equals(b)
    ensures a.Hash(hasher) == b.Hash(hasher)
  {
  }

  /** Equality is an equivalence, as the `Eq` marker promises. */
  lemma EqualsIsEquivalence(a: CorrelatedInputRef, b: CorrelatedInputRef, c: CorrelatedInputRef)
    ensures a.Equals(a)
    ensures a.Equals(b) ==> b.Equals(a)
    ensures a.Equals(b) && b.Equals(c) ==> a.Equals(c)
  {
  }
}
