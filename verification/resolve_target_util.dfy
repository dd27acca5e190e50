/**
 * The configuration-time check that a resolve-target enumeration is backed by one byte
 * (Scripts/Runtime/Entities/Tasks/Util/ResolveTargetUtil.cs). Reflection is replaced by a type
 * descriptor; every check is compiled in only when ENABLE_UNITY_COLLECTIONS_CHECKS is defined,
 * which is the `checks` parameter here.
 */
module ResolveTargetUtil {
  import opened Wrappers

  /** The integral types an enum can be backed by. */
  datatype IntegralType = Byte | SByte | Int16 | UInt16 | Int32 | UInt32 | Int64 | UInt64

  /** What reflection reports about a type: Type.IsEnum, Enum.GetUnderlyingType, UnsafeUtility.SizeOf. */
  datatype TypeDescriptor = TypeDescriptor(isEnum: bool, underlying: IntegralType, size: int)

  /** UnsafeUtility.SizeOf<byte>() */
  const SIZE_OF_BYTE: int := 1

  /** The property the checks protect: the tag type is represented by exactly one byte. */
  predicate IsByteSized(t: TypeDescriptor)
  {
    t.underlying == Byte && t.size == SIZE_OF_BYTE
  }

  /** The size in bytes of each integral type. */
  function SizeOf(it: IntegralType): int
  {
    match it
    case Byte => 1
    case SByte => 1
    case Int16 => 2
    case UInt16 => 2
    case Int32 => 4
    case UInt32 => 4
    case Int64 => 8
    case UInt64 => 8
  }

  /**
   * Debug_EnsureEnumIsSizedProperly: the underlying type is checked first, then the size.
   * It passes exactly when the checks are compiled out or the type is one-byte sized.
   */
  function EnsureEnumIsSizedProperly(checks: bool, t: TypeDescriptor): (r: Outcome<Exception>)
    ensures r.Pass? <==> !checks || IsByteSized(t)
    ensures checks && t.underlying != Byte ==> r == Fail(InvalidOperation(UnderlyingTypeNotByte))
    ensures checks && t.underlying == Byte && t.size != SIZE_OF_BYTE ==> r == Fail(InvalidOperation(SizeNotByte))
  {
    if !checks then Pass
    else if t.underlying != Byte then Fail(InvalidOperation(UnderlyingTypeNotByte))
    else if t.size != SIZE_OF_BYTE then Fail(InvalidOperation(SizeNotByte))
    else Pass
  }

  /**
   * The generic overload Debug_EnsureEnumValidity<TResolveTarget>: the type parameter is constrained
   * to Enum, so only the sizing checks run.
   */
  function EnsureEnumValidityGeneric(checks: bool, t: TypeDescriptor): (r: Outcome<Exception>)
    requires t.isEnum
    ensures r.Pass? <==> !checks || IsByteSized(t)
    ensures r.Fail? ==> r.error.InvalidOperation? && r.error.check != ResolveTargetNotAnEnum
  {
    EnsureEnumIsSizedProperly(checks, t)
  }

  /**
   * The object overload Debug_EnsureEnumValidity(object): a null value fails on GetType, a non-enum
   * is rejected, and only then do the sizing checks run. `value` is the boxed value's runtime type,
   * None for null.
   */
  function EnsureEnumValidity(checks: bool, value: Option<TypeDescriptor>): (r: Outcome<Exception>)
    ensures r.Pass? <==> !checks || (value.Some? && value.value.isEnum && IsByteSized(value.value))
    ensures checks && value.None? ==> r == Fail(NullReference)
    ensures checks && value.Some? && !value.value.isEnum ==> r == Fail(InvalidOperation(ResolveTargetNotAnEnum))
  {
    if !checks then Pass
    else if value.None? then Fail(NullReference)
    else if !value.value.isEnum then Fail(InvalidOperation(ResolveTargetNotAnEnum))
    else EnsureEnumIsSizedProperly(checks, value.value)
  }

  /** On enum types the two overloads agree; they differ only on null and non-enum values, which the generic one cannot receive. */
  lemma OverloadsAgreeOnEnums(checks: bool, t: TypeDescriptor)
    requires t.isEnum
    ensures EnsureEnumValidity(checks, Some(t)) == EnsureEnumValidityGeneric(checks, t)
  {
  }

  /** For a real enum, whose size is that of its underlying type, the size check never fires after the underlying-type check passed. */
  lemma SizeCheckFollowsFromUnderlyingType(t: TypeDescriptor)
    requires t.isEnum && t.size == SizeOf(t.underlying)
    ensures EnsureEnumIsSizedProperly(true, t) != Fail(InvalidOperation(SizeNotByte))
    ensures EnsureEnumIsSizedProperly(true, t).Pass? <==> t.underlying == Byte
  {
  }
}
