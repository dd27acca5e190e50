/** Failure-carrying values for the exceptions the scheduler's configuration layer throws. */
module Wrappers {

  datatype Option<+T> = None | Some(value: T)

  datatype Result<+T, +E> = Success(value: T) | Failure(error: E)

  datatype Outcome<+E> = Pass | Fail(error: E)

  /** The debug checks of the configuration layer; each one throws an InvalidOperationException. */
  datatype Check =
    | ResolveTargetNotAnEnum        // ResolveTargetUtil: the value's type is not an enum
    | UnderlyingTypeNotByte         // ResolveTargetUtil: the enum is not backed by byte
    | SizeNotByte                   // ResolveTargetUtil: the enum's size differs from sizeof(byte)
    | AlreadyHardened               // AbstractTaskDriver.Debug_EnsureNotHardened
    | NotHardened                   // AbstractTaskDriver.Debug_EnsureHardened
    | DuplicateMigrationPath        // AbstractTaskDriver.Debug_EnsureNoDuplicateMigrationData
    | ConfigurationComplete         // AbstractTaskWorkConfig.AddDataWrapper after the configuration phase
    | WrongTaskDriverSystem         // AbstractTaskDriverSystem: the driver belongs to another system
    | TaskDriverAlreadyRegistered   // AbstractTaskDriverSystem: the driver is already in the list
    | DuplicateCancelRequest        // ConsolidateCancelRequestsJob.Debug_EnsureNoDuplicates

  datatype Exception =
    | InvalidOperation(check: Check)  // System.InvalidOperationException thrown by a debug check
    | DuplicateKey                    // System.ArgumentException from Dictionary.Add on a present key
    | NullReference                   // System.NullReferenceException
    | NotSupported                    // System.NotSupportedException
}

/** Identities shared across the task-driver tree, data streams and resolve targets. */
module Ids {

  /** World-unique identity of a task-set owner (a task driver or its system); a 32-bit hash. */
  datatype TaskSetOwnerID = TaskSetOwnerID(value: int)

  /** World-unique identity of the data behind a data stream (an active array). */
  datatype DataTargetID = DataTargetID(value: int)

  /** A runtime System.Type, kept opaque: only its identity matters here. */
  datatype TypeKey = TypeKey(name: string)

  /** DeferredNativeArrayScheduleInfo: the scheduling information of one deferred array, known by that array. */
  datatype DeferredScheduleInfo = DeferredScheduleInfo(array: DataTargetID)
}
