/**
 * The composite key of a resolve target: the target enum's type id together with the world-unique id
 * of the task-set owner that declared it (Scripts/Runtime/Entities/TaskDriver/TaskSet/TaskData/
 * Resolving/ResolveTargetID.cs). Equality is field-wise; the hash combines the owner's hash with the
 * type id reinterpreted as a signed 32-bit integer.
 */
module ResolveTargetIDs {
  import opened Ids

  const TWO_TO_THE_32: int := 0x1_0000_0000
  const TWO_TO_THE_31: int := 0x8000_0000

  newtype uint32 = x: int | 0 <= x < 0x1_0000_0000

  datatype ResolveTargetID = ResolveTargetID(typeID: uint32, taskSetOwnerID: TaskSetOwnerID)

  /** The constructor stores exactly the two given values. */
  function Create(typeID: uint32, taskSetOwnerID: TaskSetOwnerID): (r: ResolveTargetID)
    ensures r.typeID == typeID && r.taskSetOwnerID == taskSetOwnerID
  {
    ResolveTargetID(typeID, taskSetOwnerID)
  }

  /** operator ==: both fields equal, which is exactly value equality of the key. */
  function OpEquality(lhs: ResolveTargetID, rhs: ResolveTargetID): (r: bool)
    ensures r <==> lhs == rhs
  {
    lhs.typeID == rhs.typeID && lhs.taskSetOwnerID == rhs.taskSetOwnerID
  }

  /** operator !=: the negation of ==. */
  function OpInequality(lhs: ResolveTargetID, rhs: ResolveTargetID): (r: bool)
    ensures r <==> lhs != rhs
    ensures r <==> !OpEquality(lhs, rhs)
  {
    !OpEquality(lhs, rhs)
  }

  /** IEquatable.Equals: defers to ==. */
  function Equals(self: ResolveTargetID, other: ResolveTargetID): (r: bool)
    ensures r <==> self == other
    ensures r == OpEquality(self, other)
  {
    OpEquality(self, other)
  }

  /** A value passed as `object`: null, a boxed ResolveTargetID, or a value of some other type. */
  datatype BoxedObject = Null | BoxedResolveTargetID(id: ResolveTargetID) | Other(typeName: string)

  /** Equals(object): true only for a boxed ResolveTargetID equal to this one. */
  function EqualsObject(self: ResolveTargetID, compare: BoxedObject): (r: bool)
    ensures r <==> compare == BoxedResolveTargetID(self)
    ensures !compare.BoxedResolveTargetID? ==> !r
  {
    match compare
    case BoxedResolveTargetID(id) => Equals(self, id)
    case _ => false
  }

  /** The unchecked cast (int)TypeID: the same 32 bits read as a two's-complement integer. */
  function ToInt32(u: uint32): (r: int)
    ensures -TWO_TO_THE_31 <= r < TWO_TO_THE_31
    ensures (r - u as int) % TWO_TO_THE_32 == 0
    ensures u as int < TWO_TO_THE_31 ==> r == u as int
  {
    if u as int < TWO_TO_THE_31 then u as int else u as int - TWO_TO_THE_32
  }

  /**
   * GetHashCode. The owner id's own hash and HashCodeUtil.GetHashCode are not part of this model;
   * they are the parameters `ownerHash` and `combine`.
   */
  function GetHashCode(self: ResolveTargetID, ownerHash: TaskSetOwnerID -> int, combine: (int, int) -> int): int
  {
    combine(ownerHash(self.taskSetOwnerID), ToInt32(self.typeID))
  }

  /** Distinct type ids never collide in the value handed to the hash combiner. */
  lemma ToInt32Injective(a: uint32, b: uint32)
    ensures ToInt32(a) == ToInt32(b) <==> a == b
  {
  }

  /** Keys that compare equal hash equally, whatever the owner hash and combiner are. */
  lemma EqualKeysHashEqually(a: ResolveTargetID, b: ResolveTargetID, ownerHash: TaskSetOwnerID -> int, combine: (int, int) -> int)
    requires OpEquality(a, b)
    ensures GetHashCode(a, ownerHash, combine) == GetHashCode(b, ownerHash, combine)
  {
  }

  /** == is an equivalence relation. */
  lemma EqualityIsEquivalence(a: ResolveTargetID, b: ResolveTargetID, c: ResolveTargetID)
    ensures OpEquality(a, a)
    ensures OpEquality(a, b) ==> OpEquality(b, a)
    ensures OpEquality(a, b) && OpEquality(b, c) ==> OpEquality(a, c)
  {
  }

  /** All three equality members agree with each other. */
  lemma EqualityMembersAgree(a: ResolveTargetID, b: ResolveTargetID)
    ensures Equals(a, b) == OpEquality(a, b) == EqualsObject(a, BoxedResolveTargetID(b)) == !OpInequality(a, b)
  {
  }
}
