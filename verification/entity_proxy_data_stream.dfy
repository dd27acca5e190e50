/**
 * A data stream of entity-proxy instances
 * (Scripts/Runtime/Entities/TaskDriver/TaskSet/TaskData/DataStream/EntityProxyDataStream.cs). It
 * routes each acquire and release to the right underlying store: the data source's pending buffer,
 * the active array, or the active array's pending-cancel array. A driver's stream shares the state
 * of its system's stream. The data source, the active arrays and the management system that creates
 * them are not part of this model: they are handed to the constructors, already made. The owner is
 * held as the task driver or system itself, and its id is read when a writer is made.
 */
module EntityProxyDataStreams {
  import opened Wrappers
  import opened Ids
  import opened Jobs
  import TaskDrivers
  import TaskDriverSystems
  import TaskDriverSpecs

  /** ITaskSetOwner: the task driver or the task driver system a stream belongs to. */
  datatype TaskSetOwner = DriverOwner(driver: TaskDrivers.TaskDriver) | SystemOwner(system: TaskDriverSystems.TaskDriverSystem)

  datatype CancelRequestBehaviour = Delete | Unwind | Ignore

  /** The array a reader reads from: the active array's deferred job array or its current array. */
  datatype SourceArray = DeferredJobArray(of: DataTargetID) | CurrentArray(of: DataTargetID)

  /** DataStreamActiveReader<TInstance>: the array it reads. */
  datatype ActiveReader = ActiveReader(source: SourceArray)

  /** DataStreamPendingWriter<TInstance>: the pending writer, the owner's id and the active array's id. */
  datatype PendingWriter = PendingWriter(writer: nat, owner: TaskSetOwnerID, target: DataTargetID)

  /**
   * DataStreamUpdater<TInstance> and DataStreamCancellationUpdater<TInstance>: the pending writer
   * updated instances are written back through, the deferred array the job walks, the resolve-target
   * type lookup and, when cancelling, the cancel-progress lookup. Lookups are known by identity.
   */
  datatype Updater =
    | StreamUpdater(writer: nat, deferredArray: SourceArray, resolveTargetTypeLookup: nat)
    | CancellationUpdater(writer: nat, deferredArray: SourceArray, resolveTargetTypeLookup: nat, cancelProgressLookup: nat)

  /** ActiveArrayData<EntityProxyInstanceWrapper<TInstance>>, with the access controller guarding it. */
  class ActiveArrayData {
    const worldUniqueID: DataTargetID
    const access: AccessController
    const scheduleInfo: DeferredScheduleInfo
    const cancelRequestBehaviour: CancelRequestBehaviour
    const pendingCancelActiveData: ActiveArrayData?
    var isDataInvalidated: bool
    var sharedReadCompleted: bool   // GetDependency(AccessType.SharedRead).IsCompleted

    constructor (worldUniqueID: DataTargetID, access: AccessController, scheduleInfo: DeferredScheduleInfo,
                 cancelRequestBehaviour: CancelRequestBehaviour, pendingCancelActiveData: ActiveArrayData?)
      ensures this.worldUniqueID == worldUniqueID && this.access == access && this.scheduleInfo == scheduleInfo
      ensures this.cancelRequestBehaviour == cancelRequestBehaviour && this.pendingCancelActiveData == pendingCancelActiveData
      ensures !isDataInvalidated && !sharedReadCompleted
    {
      this.worldUniqueID := worldUniqueID;
      this.access := access;
      this.scheduleInfo := scheduleInfo;
      this.cancelRequestBehaviour := cancelRequestBehaviour;
      this.pendingCancelActiveData := pendingCancelActiveData;
      isDataInvalidated := false;
      sharedReadCompleted := false;
    }
  }

  /** EntityProxyDataSource<TInstance>: the pending buffer's access controller, its writer and its data. */
  class EntityProxyDataSource {
    const pendingAccess: AccessController
    const pendingWriter: nat
    const pendingData: nat

    constructor (pendingAccess: AccessController, pendingWriter: nat, pendingData: nat)
      ensures this.pendingAccess == pendingAccess && this.pendingWriter == pendingWriter && this.pendingData == pendingData
    {
      this.pendingAccess := pendingAccess;
      this.pendingWriter := pendingWriter;
      this.pendingData := pendingData;
    }
  }

  class EntityProxyDataStream {
    const taskSetOwner: TaskSetOwner
    const instanceType: TypeKey
    const dataSource: EntityProxyDataSource
    const activeArrayData: ActiveArrayData
    const pendingCancelActiveArrayData: ActiveArrayData?     // null unless the active data has one
    const scheduleInfo: DeferredScheduleInfo
    const pendingCancelScheduleInfo: Option<DeferredScheduleInfo>   // None: the property's default
    const pendingWriter: Option<nat>                         // None: the property's default
    const pendingData: Option<nat>                           // None: the property's default

    /**
     * The system-side constructor: `activeArrayData` is what the data source created for this owner
     * and behaviour. The pending-cancel array and its schedule info are taken only when the active
     * data has one; the pending writer and data are left at their defaults.
     */
    constructor System(taskSetOwner: TaskSetOwner, instanceType: TypeKey, dataSource: EntityProxyDataSource, activeArrayData: ActiveArrayData)
      ensures this.taskSetOwner == taskSetOwner && this.instanceType == instanceType
      ensures this.dataSource == dataSource && this.activeArrayData == activeArrayData
      ensures pendingCancelActiveArrayData == activeArrayData.pendingCancelActiveData
      ensures pendingCancelScheduleInfo ==
        if activeArrayData.pendingCancelActiveData == null then None else Some(activeArrayData.pendingCancelActiveData.scheduleInfo)
      ensures scheduleInfo == activeArrayData.scheduleInfo
      ensures pendingWriter == None && pendingData == None
    {
      this.taskSetOwner := taskSetOwner;
      this.instanceType := instanceType;
      this.dataSource := dataSource;
      this.activeArrayData := activeArrayData;
      if activeArrayData.pendingCancelActiveData != null {
        pendingCancelActiveArrayData := activeArrayData.pendingCancelActiveData;
        pendingCancelScheduleInfo := Some(activeArrayData.pendingCancelActiveData.scheduleInfo);
      } else {
        pendingCancelActiveArrayData := null;
        pendingCancelScheduleInfo := None;
      }
      scheduleInfo := activeArrayData.scheduleInfo;
      pendingWriter := None;
      pendingData := None;
    }

    /** The driver-side constructor: the data source, the arrays, the schedule infos and the pending writer and data are the system stream's. */
    constructor Driver(taskDriver: TaskDrivers.TaskDriver, systemDataStream: EntityProxyDataStream)
      ensures taskSetOwner == DriverOwner(taskDriver) && instanceType == systemDataStream.instanceType
      ensures dataSource == systemDataStream.dataSource && activeArrayData == systemDataStream.activeArrayData
      ensures scheduleInfo == systemDataStream.scheduleInfo && pendingCancelScheduleInfo == systemDataStream.pendingCancelScheduleInfo
      ensures pendingCancelActiveArrayData == systemDataStream.pendingCancelActiveArrayData
      ensures pendingData == systemDataStream.pendingData && pendingWriter == systemDataStream.pendingWriter
    {
      taskSetOwner := DriverOwner(taskDriver);
      dataSource := systemDataStream.dataSource;
      activeArrayData := systemDataStream.activeArrayData;
      scheduleInfo := systemDataStream.scheduleInfo;
      pendingCancelScheduleInfo := systemDataStream.pendingCancelScheduleInfo;
      pendingCancelActiveArrayData := systemDataStream.pendingCancelActiveArrayData;
      pendingData := systemDataStream.pendingData;
      pendingWriter := systemDataStream.pendingWriter;
      instanceType := systemDataStream.instanceType;
    }

    /**
     * The CancelComplete constructor: the data source is the management system's cancel-complete
     * source, and `activeArrayData` was created with CancelRequestBehaviour.Ignore. The pending writer
     * and data are the source's; there is no pending-cancel array.
     */
    constructor CancelComplete(taskSetOwner: TaskSetOwner, instanceType: TypeKey, dataSource: EntityProxyDataSource, activeArrayData: ActiveArrayData)
      ensures this.taskSetOwner == taskSetOwner && this.instanceType == instanceType
      ensures this.dataSource == dataSource && this.activeArrayData == activeArrayData
      ensures scheduleInfo == activeArrayData.scheduleInfo
      ensures pendingWriter == Some(dataSource.pendingWriter) && pendingData == Some(dataSource.pendingData)
      ensures pendingCancelActiveArrayData == null && pendingCancelScheduleInfo == None
    {
      this.taskSetOwner := taskSetOwner;
      this.instanceType := instanceType;
      this.dataSource := dataSource;
      this.activeArrayData := activeArrayData;
      scheduleInfo := activeArrayData.scheduleInfo;
      pendingWriter := Some(dataSource.pendingWriter);
      pendingData := Some(dataSource.pendingData);
      pendingCancelActiveArrayData := null;
      pendingCancelScheduleInfo := None;
    }

    // -------------------------------------------------------------------------------------------
    // Identities
    // -------------------------------------------------------------------------------------------

    /** DataTargetID: the active array's world-unique id. */
    function DataTargetID(): (r: Ids.DataTargetID)
      ensures r == activeArrayData.worldUniqueID
    {
      activeArrayData.worldUniqueID
    }

    /** PendingCancelDataTargetID: the pending-cancel array's world-unique id; reading it without one throws. */
    function PendingCancelDataTargetID(): (r: Result<Ids.DataTargetID, Exception>)
      ensures r.Failure? <==> pendingCancelActiveArrayData == null
      ensures r.Failure? ==> r.error == NullReference
      ensures r.Success? ==> r.value == pendingCancelActiveArrayData.worldUniqueID
    {
      if pendingCancelActiveArrayData == null then Failure(NullReference) else Success(pendingCancelActiveArrayData.worldUniqueID)
    }

    function CancelBehaviour(): CancelRequestBehaviour
    {
      activeArrayData.cancelRequestBehaviour
    }

    function IsDataInvalidated(): bool
      reads activeArrayData`isDataInvalidated
    {
      activeArrayData.isDataInvalidated
    }

    /** IsPendingCancelDataInvalidated: the pending-cancel array's flag; reading it without one throws. */
    function IsPendingCancelDataInvalidated(): (r: Result<bool, Exception>)
      reads if pendingCancelActiveArrayData == null then {} else {pendingCancelActiveArrayData}
      ensures r.Failure? <==> pendingCancelActiveArrayData == null
      ensures r.Failure? ==> r.error == NullReference
      ensures r.Success? ==> r.value == pendingCancelActiveArrayData.isDataInvalidated
    {
      if pendingCancelActiveArrayData == null then Failure(NullReference) else Success(pendingCancelActiveArrayData.isDataInvalidated)
    }

    // -------------------------------------------------------------------------------------------
    // Routing
    // -------------------------------------------------------------------------------------------

    method AcquirePendingAsync(accessType: AccessType) returns (h: JobHandle)
      modifies dataSource.pendingAccess`calls
      ensures dataSource.pendingAccess.calls == old(dataSource.pendingAccess.calls) + [AccessCall.AcquireAsync(accessType, h)]
    {
      h := dataSource.pendingAccess.AcquireAsync(accessType);
    }

    method ReleasePendingAsync(dependsOn: JobHandle)
      modifies dataSource.pendingAccess`calls
      ensures dataSource.pendingAccess.calls == old(dataSource.pendingAccess.calls) + [AccessCall.ReleaseAsync(dependsOn)]
    {
      dataSource.pendingAccess.ReleaseAsync(dependsOn);
    }

    method AcquirePending(accessType: AccessType)
      modifies dataSource.pendingAccess`calls
      ensures dataSource.pendingAccess.calls == old(dataSource.pendingAccess.calls) + [AccessCall.Acquire(accessType)]
    {
      dataSource.pendingAccess.Acquire(accessType);
    }

    method ReleasePending()
      modifies dataSource.pendingAccess`calls
      ensures dataSource.pendingAccess.calls == old(dataSource.pendingAccess.calls) + [AccessCall.Release]
    {
      dataSource.pendingAccess.Release();
    }

    method AcquireActiveAsync(accessType: AccessType) returns (h: JobHandle)
      modifies activeArrayData.access`calls
      ensures activeArrayData.access.calls == old(activeArrayData.access.calls) + [AccessCall.AcquireAsync(accessType, h)]
    {
      h := activeArrayData.access.AcquireAsync(accessType);
    }

    method ReleaseActiveAsync(dependsOn: JobHandle)
      modifies activeArrayData.access`calls
      ensures activeArrayData.access.calls == old(activeArrayData.access.calls) + [AccessCall.ReleaseAsync(dependsOn)]
    {
      activeArrayData.access.ReleaseAsync(dependsOn);
    }

    method AcquireActive(accessType: AccessType)
      modifies activeArrayData.access`calls
      ensures activeArrayData.access.calls == old(activeArrayData.access.calls) + [AccessCall.Acquire(accessType)]
    {
      activeArrayData.access.Acquire(accessType);
    }

    method ReleaseActive()
      modifies activeArrayData.access`calls
      ensures activeArrayData.access.calls == old(activeArrayData.access.calls) + [AccessCall.Release]
    {
      activeArrayData.access.Release();
    }

    /** The pending-cancel acquire goes through the active data's pending-cancel array; without one it throws. */
    method AcquirePendingCancelActiveAsync(accessType: AccessType) returns (r: Result<JobHandle, Exception>)
      modifies if activeArrayData.pendingCancelActiveData == null then {} else {activeArrayData.pendingCancelActiveData.access}
      ensures activeArrayData.pendingCancelActiveData == null ==> r == Failure(NullReference)
      ensures activeArrayData.pendingCancelActiveData != null ==>
        && r.Success?
        && activeArrayData.pendingCancelActiveData.access.calls
             == old(activeArrayData.pendingCancelActiveData.access.calls) + [AccessCall.AcquireAsync(accessType, r.value)]
    {
      var pendingCancel := activeArrayData.pendingCancelActiveData;
      if pendingCancel == null {
        return Failure(NullReference);
      }
      var h := pendingCancel.access.AcquireAsync(accessType);
      r := Success(h);
    }

    /** The pending-cancel release goes through the active data's pending-cancel array; without one it throws. */
    method ReleasePendingCancelActiveAsync(dependsOn: JobHandle) returns (o: Outcome<Exception>)
      modifies if activeArrayData.pendingCancelActiveData == null then {} else {activeArrayData.pendingCancelActiveData.access}
      ensures activeArrayData.pendingCancelActiveData == null ==> o == Fail(NullReference)
      ensures activeArrayData.pendingCancelActiveData != null ==>
        && o.Pass?
        && activeArrayData.pendingCancelActiveData.access.calls
             == old(activeArrayData.pendingCancelActiveData.access.calls) + [AccessCall.ReleaseAsync(dependsOn)]
    {
      var pendingCancel := activeArrayData.pendingCancelActiveData;
      if pendingCancel == null {
        return Fail(NullReference);
      }
      pendingCancel.access.ReleaseAsync(dependsOn);
      o := Pass;
    }

    // -------------------------------------------------------------------------------------------
    // Readers and writers
    // -------------------------------------------------------------------------------------------

    /**
     * CreateDataStreamActiveReader: the deferred array is read exactly when the shared-read
     * dependency has not completed yet; once it has, the current array is read.
     */
    function CreateDataStreamActiveReader(): (r: ActiveReader)
      reads activeArrayData`sharedReadCompleted
      ensures r.source.DeferredJobArray? <==> !activeArrayData.sharedReadCompleted
      ensures r.source.of == activeArrayData.worldUniqueID
    {
      var isDeferredRequired := !activeArrayData.sharedReadCompleted;
      ActiveReader(if isDeferredRequired then DeferredJobArray(activeArrayData.worldUniqueID) else CurrentArray(activeArrayData.worldUniqueID))
    }

    /**
     * CreateDataStreamPendingWriter: the data source's writer, stamped with the owner's id as it is
     * when the writer is made and with the active array's id. A driver's id is the one its
     * GenerateWorldUniqueID assigned, or default(TaskSetOwnerID) before that; a system's is its own.
     */
    function CreateDataStreamPendingWriter(): (r: PendingWriter)
      reads if taskSetOwner.DriverOwner? then {taskSetOwner.driver} else {}
      ensures r.writer == dataSource.pendingWriter && r.target == DataTargetID()
      ensures taskSetOwner.DriverOwner? && taskSetOwner.driver.worldUniqueID.Some? ==> r.owner == taskSetOwner.driver.WorldUniqueID()
      ensures taskSetOwner.DriverOwner? && taskSetOwner.driver.worldUniqueID.None? ==> r.owner == TaskDriverSpecs.DEFAULT_OWNER_ID
      ensures taskSetOwner.SystemOwner? ==> r.owner == taskSetOwner.system.worldUniqueID
    {
      var owner := match taskSetOwner
        case DriverOwner(d) => if d.worldUniqueID.Some? then d.WorldUniqueID() else TaskDriverSpecs.DEFAULT_OWNER_ID
        case SystemOwner(sys) => sys.worldUniqueID;
      PendingWriter(dataSource.pendingWriter, owner, activeArrayData.worldUniqueID)
    }

    /**
     * CreateDataStreamUpdater: an update job always walks the active array's deferred array, whether
     * or not its data is ready, and writes back through the data source's pending writer.
     */
    function CreateDataStreamUpdater(resolveTargetTypeLookup: nat): (r: Updater)
      ensures r.StreamUpdater? && r.writer == dataSource.pendingWriter && r.resolveTargetTypeLookup == resolveTargetTypeLookup
      ensures r.deferredArray == DeferredJobArray(DataTargetID())
    {
      StreamUpdater(dataSource.pendingWriter, DeferredJobArray(activeArrayData.worldUniqueID), resolveTargetTypeLookup)
    }

    /**
     * CreateDataStreamCancellationUpdater: a cancellation job walks the pending-cancel array's
     * deferred array instead; without a pending-cancel array it throws.
     */
    function CreateDataStreamCancellationUpdater(resolveTargetTypeLookup: nat, cancelProgressLookup: nat): (r: Result<Updater, Exception>)
      ensures r.Failure? <==> PendingCancelDataTargetID().Failure?
      ensures r.Failure? ==> r.error == NullReference
      ensures r.Success? ==>
        && r.value.CancellationUpdater?
        && r.value.writer == dataSource.pendingWriter
        && r.value.deferredArray == DeferredJobArray(PendingCancelDataTargetID().value)
        && r.value.resolveTargetTypeLookup == resolveTargetTypeLookup && r.value.cancelProgressLookup == cancelProgressLookup
    {
      if pendingCancelActiveArrayData == null then Failure(NullReference)
      else Success(CancellationUpdater(dataSource.pendingWriter, DeferredJobArray(pendingCancelActiveArrayData.worldUniqueID),
                                       resolveTargetTypeLookup, cancelProgressLookup))
    }

    /** AcquireActiveReaderAsync: the active array is acquired for shared read and the reader is made. */
    method AcquireActiveReaderAsync() returns (h: JobHandle, reader: ActiveReader)
      modifies activeArrayData.access`calls
      ensures activeArrayData.access.calls == old(activeArrayData.access.calls) + [AccessCall.AcquireAsync(SharedRead, h)]
      ensures reader == CreateDataStreamActiveReader()
    {
      h := AcquireActiveAsync(SharedRead);
      reader := CreateDataStreamActiveReader();
    }

    /** ReleaseActiveReaderAsync: the release goes to the active array. */
    method ReleaseActiveReaderAsync(dependsOn: JobHandle)
      modifies activeArrayData.access`calls
      ensures activeArrayData.access.calls == old(activeArrayData.access.calls) + [AccessCall.ReleaseAsync(dependsOn)]
    {
      ReleaseActiveAsync(dependsOn);
    }

    method AcquireActiveReader() returns (reader: ActiveReader)
      modifies activeArrayData.access`calls
      ensures activeArrayData.access.calls == old(activeArrayData.access.calls) + [AccessCall.Acquire(SharedRead)]
      ensures reader == CreateDataStreamActiveReader()
    {
      AcquireActive(SharedRead);
      reader := CreateDataStreamActiveReader();
    }

    method ReleaseActiveReader()
      modifies activeArrayData.access`calls
      ensures activeArrayData.access.calls == old(activeArrayData.access.calls) + [AccessCall.Release]
    {
      ReleaseActive();
    }

    /** AcquirePendingWriterAsync: the data source's pending buffer is acquired for shared write and the writer is made. */
    method AcquirePendingWriterAsync() returns (h: JobHandle, writer: PendingWriter)
      modifies dataSource.pendingAccess`calls
      ensures dataSource.pendingAccess.calls == old(dataSource.pendingAccess.calls) + [AccessCall.AcquireAsync(SharedWrite, h)]
      ensures writer == CreateDataStreamPendingWriter()
    {
      h := AcquirePendingAsync(SharedWrite);
      writer := CreateDataStreamPendingWriter();
    }

    /** ReleasePendingWriterAsync: the release goes to the data source's pending buffer. */
    method ReleasePendingWriterAsync(dependsOn: JobHandle)
      modifies dataSource.pendingAccess`calls
      ensures dataSource.pendingAccess.calls == old(dataSource.pendingAccess.calls) + [AccessCall.ReleaseAsync(dependsOn)]
    {
      ReleasePendingAsync(dependsOn);
    }

    method AcquirePendingWriter() returns (writer: PendingWriter)
      modifies dataSource.pendingAccess`calls
      ensures dataSource.pendingAccess.calls == old(dataSource.pendingAccess.calls) + [AccessCall.Acquire(SharedWrite)]
      ensures writer == CreateDataStreamPendingWriter()
    {
      AcquirePending(SharedWrite);
      writer := CreateDataStreamPendingWriter();
    }

    method ReleasePendingWriter()
      modifies dataSource.pendingAccess`calls
      ensures dataSource.pendingAccess.calls == old(dataSource.pendingAccess.calls) + [AccessCall.Release]
    {
      ReleasePending();
    }
  }

  /** A driver's stream reads, writes and identifies the same data as its system's stream. */
  lemma DriverSharesSystemData(driver: EntityProxyDataStream, system: EntityProxyDataStream)
    requires driver.dataSource == system.dataSource && driver.activeArrayData == system.activeArrayData
    requires driver.pendingCancelActiveArrayData == system.pendingCancelActiveArrayData
    ensures driver.DataTargetID() == system.DataTargetID()
    ensures driver.PendingCancelDataTargetID() == system.PendingCancelDataTargetID()
    ensures driver.CreateDataStreamActiveReader() == system.CreateDataStreamActiveReader()
    ensures driver.CreateDataStreamPendingWriter().target == system.CreateDataStreamPendingWriter().target
  {
  }
}
