# Task-driver configuration and bookkeeping, in Dafny

This project models the configuration and bookkeeping layer of the per-frame task scheduler in
anvil-ecs-dots (`Anvil.Unity.DOTS.Entities`), then proves properties of that model. It covers:

- **Task drivers** (`AbstractTaskDriver`), which form a tree of sub-drivers. The model covers the three
  hardening-time walks over that tree: `Harden`, `GenerateWorldUniqueID` and `AddToMigrationLookup`.
- **The task-driver system** (`AbstractTaskDriverSystem`). It registers drivers and chains the five
  update phases.
- **The task work configuration** (`AbstractTaskWorkConfig`). It accumulates data wrappers until its
  configuration phase completes.
- **The cancel-request stream** (`CancelRequestDataStream`) and its once-a-frame consolidation job.
- **The job configurations** that reserve access to data streams: `AbstractUpdatableJobConfig` and
  `UpdateJobConfig`. This includes the update job's schedule info, `UpdateTaskStreamScheduleInfo`.
- **The resolve-target enum checks** (`ResolveTargetUtil`) and the resolve-target key
  (`ResolveTargetID`).
- **The entity-proxy data stream** (`EntityProxyDataStream`). It routes each acquire and release to
  the pending buffer, to the active array or to the pending-cancel array.
- **The component-type dependency helpers** (`ComponentTypeDependencyExtension`).

## How the source is modelled

Code that changes objects in place is modelled as Dafny classes. A task driver is a `class` that
holds its sub-drivers in a `seq`, with a ghost footprint `Repr`.

The three walks over the driver tree are `method`s with `while` loops. Each is proved equal to a
value-level function over the tree's `Snapshot()`:
- `RunHarden` for `Harden`;
- `RunIds` for `GenerateWorldUniqueID`;
- `RunMigration` for `AddToMigrationLookup`.

The tree-wide properties are then proved on those functions in `TaskDriverSpecs`: the bottom-up
cancellable-data flag, duplicate detection, and the order of calls.

Some behaviour is compiled in only under a symbol. Checks that depend on `ENABLE_UNITY_COLLECTIONS_CHECKS`
or `ANVIL_DEBUG_SAFETY_EXPENSIVE` take a `checks` or `expensiveChecks` boolean. A thrown exception is a
`Fail`/`Failure` value of `Outcome` or `Result`.

Code outside the modelled files is represented in one of two ways:
- **As a parameter.** This covers the task-flow graph's population of mappings, the path hash
  `GetBurstHashCode32`, the owner id's `ToString`, the system's own `GenerateWorldUniqueID`, the
  dependency manager, and `CalculateReaderWriterDependency.Add`.
- **As a recorded call.** The call is appended to a sequence on the object it is made on: access
  controllers, the base job configuration, and the `TaskSet`/system calls made during hardening.

A `JobHandle` is modelled as the term that records how the handle was made. Contracts can therefore
say which handles a job depends on.

Two behaviours of the code are worth stating outright:
- **Siblings with the same type and suffix.** Two such sub-drivers of one parent fail ID generation
  with `Dictionary.Add`'s duplicate-key exception (`SiblingsWithSameNameCollideOnIds`). The
  duplicate-path check exists only in the migration walk (`SiblingsWithSameNameCollideOnMigration`).
- **Hardening order.** The parent is marked hardened first. Its sub-drivers then harden, and only
  after them do the parent's system and task set harden (`RunHardenSpec`,
  `SubtreeHardenedBeforeParent`).

## Model

| member | source | states |
|---|---|---|
| TaskDrivers.TaskDriver.constructor | Scripts/Runtime/Entities/TaskDriver/AbstractTaskDriver.cs:125-133 | A null context identifier is stored as the empty string. A new driver has no parent, no sub-drivers, no id yet, is not hardened and is a one-node tree. |
| TaskDrivers.TaskDriver.AddSubTaskDriver | Scripts/Runtime/Entities/TaskDriver/AbstractTaskDriver.cs:190-198 | The sub-driver must have no parent. Afterwards its parent is this driver, it is appended to the sub-driver list, it is returned, and the tree stays well formed. |
| TaskDrivers.TaskDriver.WorldUniqueID | Scripts/Runtime/Entities/TaskDriver/AbstractTaskDriver.cs:65-73 | It is read only once the id has been generated, and it returns that id. |
| TaskDrivers.TaskDriver.HasCancellableData | Scripts/Runtime/Entities/TaskDriver/AbstractTaskDriver.cs:95-102 | With the checks, reading it before hardening fails with the not-hardened error. Otherwise it returns the flag. |
| TaskDrivers.TaskDriver.Harden | Scripts/Runtime/Entities/TaskDriver/AbstractTaskDriver.cs:293-314 | The new tree, the outcome and the calls made are exactly what RunHarden gives for the tree before the call. |
| TaskDrivers.TaskDriver.HardenSubTaskDrivers | Scripts/Runtime/Entities/TaskDriver/AbstractTaskDriver.cs:299-302 | The foreach over the sub-drivers equals RunHardenChildren over all of them. It stops at the first failure. |
| TaskDrivers.TaskDriver.HardenSubTaskDriver | Scripts/Runtime/Entities/TaskDriver/AbstractTaskDriver.cs:301 | One more iteration extends the run by the i-th sub-driver's own Harden, and no other sub-driver changes. |
| TaskDrivers.TaskDriver.SubTaskDriverFlags | Scripts/Runtime/Entities/TaskDriver/AbstractTaskDriver.cs:313 | The Any over the sub-drivers' flags holds exactly when some sub-driver's snapshot carries the flag. |
| TaskDrivers.TaskDriver.GenerateWorldUniqueID | Scripts/Runtime/Entities/TaskDriver/AbstractTaskDriver.cs:278-291 | The ids assigned, the owner lookup, the outcome and the calls are what RunIds gives. The hashed path is the parent id's text (empty at top level), "/", the type name and the suffix. The system's own id generation is the `systemIds` step, run after the sub-drivers. When that step only adds entries, no entry is replaced. On success the drivers' ids in pre-order were pairwise distinct and absent, and each is entered for its own driver. |
| TaskDrivers.TaskDriver.GenerateSubTaskDriverIds | Scripts/Runtime/Entities/TaskDriver/AbstractTaskDriver.cs:285-288 | The foreach equals RunChildIds. Each sub-driver takes this driver's id as its parent part and adds to the lookup built so far. |
| TaskDrivers.TaskDriver.GenerateSubTaskDriverId | Scripts/Runtime/Entities/TaskDriver/AbstractTaskDriver.cs:287 | One iteration extends the run by the i-th sub-driver's GenerateWorldUniqueID. |
| TaskDrivers.TaskDriver.AddToMigrationLookup | Scripts/Runtime/Entities/TaskDriver/AbstractTaskDriver.cs:330-358 | The lookup, the outcome and the task-set calls are what RunMigration gives. MigrationEntered holds of them, with the guarantees listed under RunMigrationSpec. |
| TaskDrivers.TaskDriver.AddSubTaskDriversToMigrationLookup | Scripts/Runtime/Entities/TaskDriver/AbstractTaskDriver.cs:354-357 | The foreach equals RunChildMigration under the driver's own path. |
| TaskDrivers.TaskDriver.AddSubTaskDriverToMigrationLookup | Scripts/Runtime/Entities/TaskDriver/AbstractTaskDriver.cs:356 | One iteration extends the run by the i-th sub-driver's walk. |
| TaskDriverSpecs.RunHardenSpec | Scripts/Runtime/Entities/TaskDriver/AbstractTaskDriver.cs:293-314 | With the checks, Harden fails with the already-hardened error exactly when some driver of the tree was already hardened. Otherwise the tree becomes Hardened(t) and the calls are HardenCalls(t). |
| TaskDriverSpecs.RunHardenChildren | Scripts/Runtime/Entities/TaskDriver/AbstractTaskDriver.cs:299-302 | Running the first k sub-drivers leaves the later sub-drivers untouched. |
| TaskDriverSpecs.RunHardenChildrenSpec | Scripts/Runtime/Entities/TaskDriver/AbstractTaskDriver.cs:299-302 | The sub-drivers' hardening fails exactly when one of them fails. Otherwise each sub-driver becomes its Hardened tree and the calls are theirs, in order. |
| TaskDriverSpecs.HardenedState | Scripts/Runtime/Entities/TaskDriver/AbstractTaskDriver.cs:296-313 | After hardening every node is hardened. Every node's flag is its explicit cancellation count > 0, or its system's flag, or any sub-driver's flag. The root's flag is Cancellable(t). |
| TaskDriverSpecs.AnyFlaggedIff | Scripts/Runtime/Entities/TaskDriver/AbstractTaskDriver.cs:313 | The Any over sub-drivers holds exactly when some sub-driver carries the flag. |
| TaskDriverSpecs.CancellableIffSomeNode | Scripts/Runtime/Entities/TaskDriver/AbstractTaskDriver.cs:311-313 | A driver ends up cancellable exactly when some driver in its subtree has cancellable data of its own. |
| TaskDriverSpecs.DescendantMakesCancellable | Scripts/Runtime/Entities/TaskDriver/AbstractTaskDriver.cs:311-313 | One cancellable descendant makes every ancestor up to the root cancellable. |
| TaskDriverSpecs.HardenReachesEveryTaskSet | Scripts/Runtime/Entities/TaskDriver/AbstractTaskDriver.cs:298-308 | Hardening hardens the task set of every driver of the tree and of no other driver. |
| TaskDriverSpecs.SubtreeHardenedBeforeParent | Scripts/Runtime/Entities/TaskDriver/AbstractTaskDriver.cs:298-308 | Every call made while a sub-driver hardens comes before the parent hardens its system and before it hardens its own task set. |
| TaskDriverSpecs.RunIdsSpec | Scripts/Runtime/Entities/TaskDriver/AbstractTaskDriver.cs:278-291 | This holds whatever the system's own step does, provided it only adds entries. No entry is replaced. On success the drivers' ids in pre-order were pairwise distinct and absent beforehand, and each now maps to its own driver. If the system step only ever fails with Dictionary.Add's error, so does the walk. If the system step never fails and adds only keys from a reserved set, then distinct, absent driver ids outside that set make the walk pass, and it adds nothing beyond them and that set. |
| TaskDriverSpecs.RunChildIds | Scripts/Runtime/Entities/TaskDriver/AbstractTaskDriver.cs:285-288 | Running the first k sub-drivers leaves the later sub-drivers untouched. |
| TaskDriverSpecs.RunChildIdsSpec | Scripts/Runtime/Entities/TaskDriver/AbstractTaskDriver.cs:285-288 | The same guarantees hold over the first k sub-drivers, for their ids in pre-order. |
| TaskDriverSpecs.SiblingsWithSameNameCollideOnIds | Scripts/Runtime/Entities/TaskDriver/AbstractTaskDriver.cs:281-283 | Two sub-drivers of one parent with the same type and context identifier hash the same path, so ID generation fails whatever the system step does. The failure is the duplicate-key error whenever the system step only fails that way. |
| TaskDriverSpecs.RunIdsWithSilentSystem | Scripts/Runtime/Entities/TaskDriver/AbstractTaskDriver.cs:278-291 | When the system step leaves the lookup as it is, ID generation passes exactly when the drivers' ids in pre-order are pairwise distinct and none was present. Otherwise it fails with the duplicate-key error. On success exactly those ids are added, each for its own driver. |
| TaskDriverSpecs.RunMigrationSpec | Scripts/Runtime/Entities/TaskDriver/AbstractTaskDriver.cs:330-358 | No entry is replaced. The walk passes exactly when the drivers' paths in pre-order are pairwise distinct and none was present. Otherwise it fails with the duplicate-path error: the debug check's with the checks compiled in, Dictionary.Add's otherwise. On success each driver path maps to that driver's id, or to default(TaskSetOwnerID) if none was generated. The keys added are exactly the driver paths and the system paths. The first offer of each absent system path is entered with that system's WorldUniqueID, and that system's task set is asked to enter its data under it. A system task set is asked only once per path, and only for an offered path that was absent. Every driver path handed to a task set extends the parent's path. |
| TaskDriverSpecs.RunChildMigrationSpec | Scripts/Runtime/Entities/TaskDriver/AbstractTaskDriver.cs:354-357 | The same guarantees hold over the first k sub-drivers, under the driver's own path. |
| TaskDriverSpecs.SiblingsWithSameNameCollideOnMigration | Scripts/Runtime/Entities/TaskDriver/AbstractTaskDriver.cs:336-341 | Two same-named siblings produce the same path, so the walk fails with the duplicate-path error. The debug check's error is used when the checks are compiled in, Dictionary.Add's otherwise. |
| TaskDriverSpecs.DriverAndSystemPathsDiffer | Scripts/Runtime/Entities/TaskDriver/AbstractTaskDriver.cs:339-347 | A driver path ends in "-" and a system path in the "m" of "-System", so the two never coincide. A system entry therefore never blocks a driver path. |
| TaskDriverSpecs.MigrationEntries | Scripts/Runtime/Entities/TaskDriver/AbstractTaskDriver.cs:338-341 | Every driver path the walk enters ends in "-". |
| TaskDriverSpecs.SystemEntries | Scripts/Runtime/Entities/TaskDriver/AbstractTaskDriver.cs:346-351 | Every system path the walk offers ends in "m". |
| TaskDriverSystems.TaskDriverSystem.constructor | Scripts/Runtime/Entities/Tasks/AbstractTaskDriverSystem.cs:41-46 | A new system has empty driver and update-job lists and an empty, undisposed task-data lookup. |
| TaskDriverSystems.TaskDriverSystem.Keyed | Scripts/Runtime/Entities/Tasks/AbstractTaskDriverSystem.cs:19-22 | The generic system's task data is created fresh and is the only entry of the lookup. |
| TaskDriverSystems.TaskDriverSystem.OnDestroy | Scripts/Runtime/Entities/Tasks/AbstractTaskDriverSystem.cs:48-58 | The lookup is disposed and both lists are emptied. The drivers themselves are not disposed. |
| TaskDriverSystems.TaskDriverSystem.ConfigureUpdateJob | Scripts/Runtime/Entities/Tasks/AbstractTaskDriverSystem.cs:60-65 | Exactly one new configuration, bound to this system and to the delegate, is appended and returned. |
| TaskDriverSystems.TaskDriverSystem.CreateTaskData | Scripts/Runtime/Entities/Tasks/AbstractTaskDriverSystem.cs:69-76 | New virtual data is appended to the lookup and returned. |
| TaskDriverSystems.TaskDriverSystem.RegisterTaskDriver | Scripts/Runtime/Entities/Tasks/AbstractTaskDriverSystem.cs:78-126 | With the checks, a driver of another system is rejected, and so is a driver that is already registered. Otherwise the driver is appended. With the checks, registration keeps the list free of repeats. |
| TaskDriverSystems.TaskDriverSystem.UpdateTaskDriverSystem | Scripts/Runtime/Entities/Tasks/AbstractTaskDriverSystem.cs:89-112 | The returned handle is the five phases chained in source order, the first depending on the given handle. |
| TaskDriverSystems.UnchainChain | Scripts/Runtime/Entities/Tasks/AbstractTaskDriverSystem.cs:89-112 | A chain of scheduled jobs can be read back job by job, in order, down to the handle it started from. |
| TaskWorkConfigs.UsageOf | Scripts/Runtime/Entities/Tasks/Data/AbstractTaskWorkConfig.cs:64-106 | Each InternalRequireData* method reports its own usage: Add, Iterate, Update or ResultsDestination. The mapping holds in both directions. |
| TaskWorkConfigs.UsageOfInjective | Scripts/Runtime/Entities/Tasks/Data/AbstractTaskWorkConfig.cs:64-106 | Distinct wrapper kinds report distinct usages. |
| TaskWorkConfigs.TaskWorkConfig.constructor | Scripts/Runtime/Entities/Tasks/Data/AbstractTaskWorkConfig.cs:42-50 | A new configuration is Configuring and holds no wrappers. |
| TaskWorkConfigs.TaskWorkConfig.AddDataWrapper | Scripts/Runtime/Entities/Tasks/Data/AbstractTaskWorkConfig.cs:52-62 | With the checks, adding after the configuration phase fails and nothing is appended. Otherwise the wrapper is appended to both the work data and the configuration. |
| TaskWorkConfigs.TaskWorkConfig.InternalRequireData | Scripts/Runtime/Entities/Tasks/Data/AbstractTaskWorkConfig.cs:64-106 | Exactly one wrapper is added. With the checks, exactly the matching usage is reported. On failure nothing changes. |
| TaskWorkConfigs.TaskWorkConfig.Debug_SetConfigurationStateComplete | Scripts/Runtime/Entities/Tasks/Data/AbstractTaskWorkConfig.cs:112-116 | With the checks the state becomes Executing and never returns to Configuring. Without the checks it is a no-op. |
| ResolveTargetUtil.EnsureEnumIsSizedProperly | Scripts/Runtime/Entities/Tasks/Util/ResolveTargetUtil.cs:34-49 | It passes exactly when the enum is one-byte sized. The underlying-type error takes precedence over the size error. |
| ResolveTargetUtil.EnsureEnumValidityGeneric | Scripts/Runtime/Entities/Tasks/Util/ResolveTargetUtil.cs:15-20 | For an enum type only the sizing check runs. It passes exactly when the enum is one-byte sized. |
| ResolveTargetUtil.EnsureEnumValidity | Scripts/Runtime/Entities/Tasks/Util/ResolveTargetUtil.cs:22-32 | null fails with the null-reference error and a non-enum with the not-an-enum error. Otherwise it passes exactly when the enum is one-byte sized. |
| ResolveTargetUtil.OverloadsAgreeOnEnums | Scripts/Runtime/Entities/Tasks/Util/ResolveTargetUtil.cs:15-32 | On enum types the two overloads give the same outcome. |
| ResolveTargetUtil.SizeCheckFollowsFromUnderlyingType | Scripts/Runtime/Entities/Tasks/Util/ResolveTargetUtil.cs:34-49 | For a real enum the size check never fires once the underlying-type check has passed. |
| ResolveTargetIDs.Create | Scripts/Runtime/Entities/TaskDriver/TaskSet/TaskData/Resolving/ResolveTargetID.cs:23-27 | The key stores exactly the given type id and owner id. |
| ResolveTargetIDs.OpEquality | Scripts/Runtime/Entities/TaskDriver/TaskSet/TaskData/Resolving/ResolveTargetID.cs:10-13 | `==` holds exactly when the two keys are the same value. |
| ResolveTargetIDs.OpInequality | Scripts/Runtime/Entities/TaskDriver/TaskSet/TaskData/Resolving/ResolveTargetID.cs:15-18 | `!=` is the negation of `==`. |
| ResolveTargetIDs.Equals | Scripts/Runtime/Entities/TaskDriver/TaskSet/TaskData/Resolving/ResolveTargetID.cs:29-32 | Equals agrees with `==`. |
| ResolveTargetIDs.EqualsObject | Scripts/Runtime/Entities/TaskDriver/TaskSet/TaskData/Resolving/ResolveTargetID.cs:34-37 | Equals(object) is true only for a boxed key equal to this one. It is false for null and for other types. |
| ResolveTargetIDs.ToInt32 | Scripts/Runtime/Entities/TaskDriver/TaskSet/TaskData/Resolving/ResolveTargetID.cs:41 | The unchecked cast keeps the 32 bits: the result is in the signed range and congruent to the input modulo 2^32. |
| ResolveTargetIDs.ToInt32Injective | Scripts/Runtime/Entities/TaskDriver/TaskSet/TaskData/Resolving/ResolveTargetID.cs:39-42 | Distinct type ids reach the hash combiner as distinct values. |
| ResolveTargetIDs.EqualKeysHashEqually | Scripts/Runtime/Entities/TaskDriver/TaskSet/TaskData/Resolving/ResolveTargetID.cs:10-42 | Keys equal under `==` have equal hash codes, whatever the owner hash and the combiner are. |
| ResolveTargetIDs.GetHashCode | Scripts/Runtime/Entities/TaskDriver/TaskSet/TaskData/Resolving/ResolveTargetID.cs:39-42 | The owner's hash is combined with the type id read as a signed 32-bit integer. Its property is EqualKeysHashEqually: keys equal under `==` hash equally. |
| ResolveTargetIDs.EqualityIsEquivalence | Scripts/Runtime/Entities/TaskDriver/TaskSet/TaskData/Resolving/ResolveTargetID.cs:10-13 | `==` is reflexive, symmetric and transitive. |
| ResolveTargetIDs.EqualityMembersAgree | Scripts/Runtime/Entities/TaskDriver/TaskSet/TaskData/Resolving/ResolveTargetID.cs:10-37 | `==`, `!=`, Equals and Equals(object) all agree. |
| CancelRequests.TryAddAllSpec | Scripts/Runtime/Entities/TaskSystem/TaskStream/DataStream/Cancelling/CancelRequestDataStream.cs:81-88 | After TryAdd of every id, the keys are the old keys plus the ids. Entries that were present keep their values, and new entries hold the added value. |
| CancelRequests.ConsolidatedLookup | Scripts/Runtime/Entities/TaskSystem/TaskStream/DataStream/Cancelling/CancelRequestDataStream.cs:80-88 | The consolidated lookup maps exactly the pending ids to 1, whatever repeats among them. |
| CancelRequests.FirstDuplicateSpec | Scripts/Runtime/Entities/TaskSystem/TaskStream/DataStream/Cancelling/CancelRequestDataStream.cs:97-104 | A first repeated id exists exactly when the pending ids are not distinct. It repeats an earlier id, and the ids before it are distinct. |
| CancelRequests.ConsolidateCancelRequestsJob.constructor | Scripts/Runtime/Entities/TaskSystem/TaskStream/DataStream/Cancelling/CancelRequestDataStream.cs:69-76 | The job holds the given pending stream, lookup and progress lookup. |
| CancelRequests.ConsolidateCancelRequestsJob.Execute | Scripts/Runtime/Entities/TaskSystem/TaskStream/DataStream/Cancelling/CancelRequestDataStream.cs:78-91 | With the expensive checks, it fails exactly when an id is pending twice. The failure comes at the second occurrence and leaves the lookups as the earlier ids made them. On success the lookup is rebuilt from the pending ids only. Each id is marked in progress unless already present, and the pending stream is emptied. |
| CancelRequests.CancelRequestDataStream.constructor | Scripts/Runtime/Entities/TaskSystem/TaskStream/DataStream/Cancelling/CancelRequestDataStream.cs:19-23 | The stream starts with a fresh, empty lookup. |
| CancelRequests.CancelRequestDataStream.ConsolidateForFrame | Scripts/Runtime/Entities/TaskSystem/TaskStream/DataStream/Cancelling/CancelRequestDataStream.cs:42-56 | The stream and the progress lookup are each acquired for exclusive write and then released with the job's handle. The job depends on both acquisitions and on the given handle. Its handle is returned. |
| ScheduleInfos.BatchSize | Scripts/Runtime/Entities/Tasks/JobConfig/Scheduling/UpdateTaskStreamScheduleInfo.cs:23-25 | The batch size is MAX_ELEMENTS_PER_CHUNK for MaximizeChunk and 1 for every other strategy. |
| ScheduleInfos.BatchSizeBounds | Scripts/Runtime/Entities/Tasks/JobConfig/Scheduling/UpdateTaskStreamScheduleInfo.cs:23-25 | A batch is never empty and never larger than a chunk. |
| ScheduleInfos.UpdateTaskStreamScheduleInfo.constructor | Scripts/Runtime/Entities/Tasks/JobConfig/Scheduling/UpdateTaskStreamScheduleInfo.cs:19-26 | The deferred-array schedule info is the stream's own. The batch size follows BatchSize, and no updater is set. |
| ScheduleInfos.UpdateTaskStreamScheduleInfo.Length | Scripts/Runtime/Entities/Tasks/JobConfig/Scheduling/UpdateTaskStreamScheduleInfo.cs:14-17 | Reading Length always fails with NotSupportedException. |
| ScheduleInfos.UpdateTaskStreamScheduleInfo.SetUpdater | Scripts/Runtime/Entities/Tasks/JobConfig/Scheduling/UpdateTaskStreamScheduleInfo.cs:28-31 | The updater is stored, and nothing else changes. |
| UpdatableJobConfigs.UpdatableJobConfig.constructor | Scripts/Runtime/Entities/Tasks/JobConfig/AbstractUpdatableJobConfig.cs:13-18 | The configuration starts with an empty resolve-target mapping and no resolver. |
| UpdatableJobConfigs.UpdatableJobConfig.RequireResolveTarget | Scripts/Runtime/Entities/Tasks/JobConfig/AbstractUpdatableJobConfig.cs:30-50 | The enum check runs first; a failure changes nothing. Then the mapping is populated. An empty mapping reserves nothing. Otherwise exactly one Resolve wrapper for the mapping's data-stream type covers the target's destinations. The configuration itself is returned. |
| UpdatableJobConfigs.UpdatableJobConfig.HardenConfig | Scripts/Runtime/Entities/Tasks/JobConfig/AbstractUpdatableJobConfig.cs:56-68 | After hardening, GetDataStreamChannelResolver returns the resolver built from the mapping. |
| UpdatableJobConfigs.UpdatableJobConfig.DisposeSelf | Scripts/Runtime/Entities/Tasks/JobConfig/AbstractUpdatableJobConfig.cs:20-24 | The resolver is disposed before the base configuration. |
| UpdateJobConfigs.UpdateWrappersSpec | Scripts/Runtime/Entities/Tasks/JobConfig/UpdateJobConfig.cs:60-72 | The update stream is reserved first, and it is the only stream reserved for exclusive write. A cancellable stream also reserves its pending-cancel stream for write and the request-cancel stream for shared read; a plain stream reserves nothing else. |
| UpdateJobConfigs.ChannelWrappersSpec | Scripts/Runtime/Entities/Tasks/JobConfig/UpdateJobConfig.cs:84-89 | Each destination of the channel gets exactly one Write wrapper for its stream, in order. |
| UpdateJobConfigs.UpdateJobConfig.constructor | Scripts/Runtime/Entities/Tasks/JobConfig/UpdateJobConfig.cs:19-32 | The schedule info is built from the task stream, the channel mapping starts empty, and the wrappers are the ones UpdateWrappers gives. |
| UpdateJobConfigs.UpdateJobConfig.RequireRequestCancelDataStreamForRead | Scripts/Runtime/Entities/Tasks/JobConfig/UpdateJobConfig.cs:50-54 | Exactly one Read wrapper with shared-read access is appended. |
| UpdateJobConfigs.UpdateJobConfig.RequireDataStreamForUpdate | Scripts/Runtime/Entities/Tasks/JobConfig/UpdateJobConfig.cs:60-72 | The wrappers appended are exactly UpdateWrappers. |
| UpdateJobConfigs.UpdateJobConfig.RequireResolveChannel | Scripts/Runtime/Entities/Tasks/JobConfig/UpdateJobConfig.cs:74-92 | The channel check runs first; a failure changes nothing. Then the mapping is populated, each destination gets its Write wrapper in order, and the configuration is returned. |
| UpdateJobConfigs.UpdateJobConfig.Harden | Scripts/Runtime/Entities/Tasks/JobConfig/UpdateJobConfig.cs:98-102 | The base hardening runs first. Afterwards GetDataStreamChannelResolver returns the resolver built from the channel mapping. |
| UpdateJobConfigs.UpdateJobConfig.DisposeSelf | Scripts/Runtime/Entities/Tasks/JobConfig/UpdateJobConfig.cs:34-39 | The resolver is disposed before the base configuration. |
| EntityProxyDataStreams.EntityProxyDataStream.System | Scripts/Runtime/Entities/TaskDriver/TaskSet/TaskData/DataStream/EntityProxyDataStream.cs:64-82 | The pending-cancel array and its schedule info are taken only if the active data has them. The pending writer and pending data stay at their defaults. |
| EntityProxyDataStreams.EntityProxyDataStream.Driver | Scripts/Runtime/Entities/TaskDriver/TaskSet/TaskData/DataStream/EntityProxyDataStream.cs:84-98 | A driver's stream shares its system stream's source, arrays, schedule infos and pending writer and data. Its owner is the driver itself. |
| EntityProxyDataStreams.EntityProxyDataStream.CancelComplete | Scripts/Runtime/Entities/TaskDriver/TaskSet/TaskData/DataStream/EntityProxyDataStream.cs:101-113 | The pending writer and pending data are the source's own. There is no pending-cancel array. |
| EntityProxyDataStreams.EntityProxyDataStream.DataTargetID | Scripts/Runtime/Entities/TaskDriver/TaskSet/TaskData/DataStream/EntityProxyDataStream.cs:27-30 | The data target id is the active array's world-unique id. |
| EntityProxyDataStreams.EntityProxyDataStream.PendingCancelDataTargetID | Scripts/Runtime/Entities/TaskDriver/TaskSet/TaskData/DataStream/EntityProxyDataStream.cs:37-40 | It fails with a null reference exactly when there is no pending-cancel array. Otherwise it is that array's id. |
| EntityProxyDataStreams.EntityProxyDataStream.IsPendingCancelDataInvalidated | Scripts/Runtime/Entities/TaskDriver/TaskSet/TaskData/DataStream/EntityProxyDataStream.cs:54-57 | It fails with a null reference exactly when there is no pending-cancel array. Otherwise it is that array's flag. |
| EntityProxyDataStreams.EntityProxyDataStream.AcquirePendingAsync | Scripts/Runtime/Entities/TaskDriver/TaskSet/TaskData/DataStream/EntityProxyDataStream.cs:115-119 | Goes to the data source's pending controller, with the requested access, and returns its handle. |
| EntityProxyDataStreams.EntityProxyDataStream.ReleasePendingAsync | Scripts/Runtime/Entities/TaskDriver/TaskSet/TaskData/DataStream/EntityProxyDataStream.cs:121-125 | Goes to the data source's pending controller with the given handle. |
| EntityProxyDataStreams.EntityProxyDataStream.AcquirePending | Scripts/Runtime/Entities/TaskDriver/TaskSet/TaskData/DataStream/EntityProxyDataStream.cs:127-131 | Goes to the data source's pending controller, with the requested access. |
| EntityProxyDataStreams.EntityProxyDataStream.ReleasePending | Scripts/Runtime/Entities/TaskDriver/TaskSet/TaskData/DataStream/EntityProxyDataStream.cs:133-137 | Goes to the data source's pending controller. |
| EntityProxyDataStreams.EntityProxyDataStream.AcquireActiveAsync | Scripts/Runtime/Entities/TaskDriver/TaskSet/TaskData/DataStream/EntityProxyDataStream.cs:139-143 | Goes to the active array's controller, with the requested access, and returns its handle. |
| EntityProxyDataStreams.EntityProxyDataStream.ReleaseActiveAsync | Scripts/Runtime/Entities/TaskDriver/TaskSet/TaskData/DataStream/EntityProxyDataStream.cs:145-149 | Goes to the active array's controller with the given handle. |
| EntityProxyDataStreams.EntityProxyDataStream.AcquireActive | Scripts/Runtime/Entities/TaskDriver/TaskSet/TaskData/DataStream/EntityProxyDataStream.cs:151-155 | Goes to the active array's controller, with the requested access. |
| EntityProxyDataStreams.EntityProxyDataStream.ReleaseActive | Scripts/Runtime/Entities/TaskDriver/TaskSet/TaskData/DataStream/EntityProxyDataStream.cs:157-161 | Goes to the active array's controller. |
| EntityProxyDataStreams.EntityProxyDataStream.AcquirePendingCancelActiveAsync | Scripts/Runtime/Entities/TaskDriver/TaskSet/TaskData/DataStream/EntityProxyDataStream.cs:163-167 | Goes to the active data's pending-cancel array, or fails with a null reference when there is none. |
| EntityProxyDataStreams.EntityProxyDataStream.ReleasePendingCancelActiveAsync | Scripts/Runtime/Entities/TaskDriver/TaskSet/TaskData/DataStream/EntityProxyDataStream.cs:169-173 | Goes to the active data's pending-cancel array, or fails with a null reference when there is none. |
| EntityProxyDataStreams.EntityProxyDataStream.CreateDataStreamPendingWriter | Scripts/Runtime/Entities/TaskDriver/TaskSet/TaskData/DataStream/EntityProxyDataStream.cs:176-179 | The writer is the source's pending writer, stamped with the active array's id and with the owner's id as it is when the writer is made. For a driver that is the id its GenerateWorldUniqueID assigned, or default(TaskSetOwnerID) before that. For a system it is the system's own id. |
| EntityProxyDataStreams.EntityProxyDataStream.CreateDataStreamActiveReader | Scripts/Runtime/Entities/TaskDriver/TaskSet/TaskData/DataStream/EntityProxyDataStream.cs:181-191 | The reader uses the deferred array exactly when the shared-read dependency has not completed, and the current array otherwise. Both belong to the active array. |
| EntityProxyDataStreams.EntityProxyDataStream.CreateDataStreamUpdater | Scripts/Runtime/Entities/TaskDriver/TaskSet/TaskData/DataStream/EntityProxyDataStream.cs:193-199 | An updater always walks the active array's deferred array and writes back through the source's pending writer. |
| EntityProxyDataStreams.EntityProxyDataStream.CreateDataStreamCancellationUpdater | Scripts/Runtime/Entities/TaskDriver/TaskSet/TaskData/DataStream/EntityProxyDataStream.cs:201-210 | A cancellation updater walks the pending-cancel array's deferred array. Without a pending-cancel array it fails with a null reference. |
| EntityProxyDataStreams.EntityProxyDataStream.AcquireActiveReaderAsync | Scripts/Runtime/Entities/TaskDriver/TaskSet/TaskData/DataStream/EntityProxyDataStream.cs:216-222 | The active array is acquired for shared read, and the reader is CreateDataStreamActiveReader's. |
| EntityProxyDataStreams.EntityProxyDataStream.ReleaseActiveReaderAsync | Scripts/Runtime/Entities/TaskDriver/TaskSet/TaskData/DataStream/EntityProxyDataStream.cs:224-228 | The release goes to the active array's controller. |
| EntityProxyDataStreams.EntityProxyDataStream.AcquireActiveReader | Scripts/Runtime/Entities/TaskDriver/TaskSet/TaskData/DataStream/EntityProxyDataStream.cs:230-235 | The active array is acquired for shared read, and the reader is CreateDataStreamActiveReader's. |
| EntityProxyDataStreams.EntityProxyDataStream.ReleaseActiveReader | Scripts/Runtime/Entities/TaskDriver/TaskSet/TaskData/DataStream/EntityProxyDataStream.cs:237-241 | The release goes to the active array's controller. |
| EntityProxyDataStreams.EntityProxyDataStream.AcquirePendingWriterAsync | Scripts/Runtime/Entities/TaskDriver/TaskSet/TaskData/DataStream/EntityProxyDataStream.cs:243-249 | The pending buffer is acquired for shared write, and the writer is CreateDataStreamPendingWriter's. |
| EntityProxyDataStreams.EntityProxyDataStream.ReleasePendingWriterAsync | Scripts/Runtime/Entities/TaskDriver/TaskSet/TaskData/DataStream/EntityProxyDataStream.cs:251-255 | The release goes to the pending buffer's controller. |
| EntityProxyDataStreams.EntityProxyDataStream.AcquirePendingWriter | Scripts/Runtime/Entities/TaskDriver/TaskSet/TaskData/DataStream/EntityProxyDataStream.cs:257-262 | The pending buffer is acquired for shared write, and the writer is CreateDataStreamPendingWriter's. |
| EntityProxyDataStreams.EntityProxyDataStream.ReleasePendingWriter | Scripts/Runtime/Entities/TaskDriver/TaskSet/TaskData/DataStream/EntityProxyDataStream.cs:264-268 | The release goes to the pending buffer's controller. |
| EntityProxyDataStreams.DriverSharesSystemData | Scripts/Runtime/Entities/TaskDriver/TaskSet/TaskData/DataStream/EntityProxyDataStream.cs:84-98 | A driver's stream and its system's stream give the same target ids and the same reader, and their writers target the same array. |
| ComponentTypeDependencies.SingleTypeQuery | Scripts/AssemblyInjections/Unity.Entities/ComponentTypeDependencyExtension.cs:123-138 | The writer count is 1 exactly for ReadWrite, and the reader count is 1 minus the writer count. The type index serves as both lists, so it appears exactly once. |
| ComponentTypeDependencies.ClassifyAppend | Scripts/AssemblyInjections/Unity.Entities/ComponentTypeDependencyExtension.cs:147-150 | Classifying a collection in two parts is classifying the second part from where the first left off. |
| ComponentTypeDependencies.SingleTypeAgreesWithCollection | Scripts/AssemblyInjections/Unity.Entities/ComponentTypeDependencyExtension.cs:123-154 | The single-type shortcut asks the same query as the collection path does for that one type, whenever the classifier files ReadWrite as a writer and ReadOnly as a reader. |
| ComponentTypeDependencies.ScratchPads.Init | Scripts/AssemblyInjections/Unity.Entities/ComponentTypeDependencyExtension.cs:17-25 | Both scratch lists are left freshly empty. |
| ComponentTypeDependencies.ScratchPads.GetDependency | Scripts/AssemblyInjections/Unity.Entities/ComponentTypeDependencyExtension.cs:140-168 | Both lists are cleared first, so nothing from an earlier query leaks. Each type is classified once, in order. The whole of both lists is handed to the dependency manager. |

## Left out

- **Unseen code.** The bodies of `TaskSet`, `TaskDriverManagementSystem`, the data sources,
  `AbstractJobConfig`, `TaskFlowGraph`, `ResolveChannelUtil`, the access controllers and
  `CalculateReaderWriterDependency` are not part of this model. Each is a parameter or a recorded call.
  `RequireResolveChannel` takes the channel check's outcome as a parameter.
- **The task-driver constructor's other work.** TaskDrivers.TaskDriver.constructor does not look up
  or create the driver's system, does not add that system to its update group, and does not register
  the driver with the system or the management system. The system is passed in, and
  `TaskDriverSystem.RegisterTaskDriver` is modelled on its own.
- **Disposal.** `DisposeSelf` of the task driver, `DisposeDataStream` of the cancel-request stream,
  and the native memory behind the lookups and scratch lists are not modelled.
- **Thin forwarders.** `AddJobConfigsTo`, `AddResolvableDataStreamsTo`, the data-stream and
  persistent-data creation helpers and the `ConfigureJobTriggeredBy` overloads of the task driver are
  not modelled. They forward to `TaskSet` or to the persistent-data system.
- **UpdateJobConfig.CallScheduleFunction and GetScheduleJobFunctionDebugInfo.** They need the job
  data and the schedule delegate, which are not part of this model. `SetUpdater` is modelled.
- **Public overloads of GetDependency.** The seven public overloads of `GetDependency` only fetch the
  entity manager's dependency manager and forward to the private overloads, which are modelled.
- **Burst jobs and threads.** Jobs are not run concurrently and Burst compilation is not modelled. A
  job handle records what it depends on but is never waited on. `UpdateTaskDriverSystem` models each
  bulk schedule as one scheduled job, whatever the number of drivers or configurations.
- **Strategy enumeration.** BatchStrategy has two members in the model. `MaximizeThreads` stands for
  every strategy other than `MaximizeChunk`; the full enumeration is not part of this model.
- **Getters without their own contract.** The getters `CancelBehaviour`, `IsDataInvalidated` and the
  two `GetDataStreamChannelResolver`s simply return a field. The hardening contracts state what the
  resolvers hold.
- **Disposal before hardening.** Disposing a job configuration that was never hardened disposes a
  default resolver struct. The model records the disposal call but not what a default resolver's
  `Dispose` does.
- **Strings and hashing.** Strings are sequences of characters; the path hash and the id's
  `ToString` are parameters, so hash collisions between distinct paths are not ruled out or modelled.
- **The system's partial part.** `AbstractTaskDriverSystem` is a partial class; the part that holds
  its own `GenerateWorldUniqueID`, `Harden`, `TaskSet` and `WorldUniqueID` is not part of this model.
  The system's `worldUniqueID` and `hasCancellableData` are constants given when the system is made,
  so the model does not capture when the system sets them.
- RunIdsSpec / TaskDrivers.TaskDriver.GenerateWorldUniqueID: the system's own id generation is the
  `systemIds` parameter. Its guarantees are stated only for steps that add entries without replacing
  any, and the exact pass condition is stated only for a step that adds nothing
  (`RunIdsWithSilentSystem`).
- **Generic key types.** `VirtualData` keeps only its identity and disposal. `AbstractTaskDriverSystem`'s
  generic type arguments are not modelled.
