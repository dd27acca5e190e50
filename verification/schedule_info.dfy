/**
 * The scheduling information of an update job
 * (Scripts/Runtime/Entities/Tasks/JobConfig/Scheduling/UpdateTaskStreamScheduleInfo.cs): the batch
 * size chosen from the batch strategy, the deferred array's scheduling information, and the updater
 * the job reads from, which is set just before scheduling.
 */
module ScheduleInfos {
  import opened Wrappers
  import opened Ids

  /** BatchStrategy. Only MaximizeChunk is told apart; MaximizeThreads stands for every other member. */
  datatype BatchStrategy = MaximizeChunk | MaximizeThreads

  /** DataStreamUpdater<TInstance>, known only by its identity. */
  datatype DataStreamUpdater = DataStreamUpdater(id: nat)

  /**
   * The batch size: a whole chunk's worth of elements when maximizing chunks, one element per batch
   * otherwise. `maxElementsPerChunk` is ProxyDataStream<TInstance>.MAX_ELEMENTS_PER_CHUNK, which
   * depends on the instance type's size.
   */
  function BatchSize(strategy: BatchStrategy, maxElementsPerChunk: nat): (r: int)
    ensures strategy == MaximizeChunk ==> r == maxElementsPerChunk
    ensures strategy != MaximizeChunk ==> r == 1
  {
    if strategy == MaximizeChunk then maxElementsPerChunk else 1
  }

  /** A batch never exceeds a chunk, and is never empty when a chunk holds at least one element. */
  lemma BatchSizeBounds(strategy: BatchStrategy, maxElementsPerChunk: nat)
    requires maxElementsPerChunk >= 1
    ensures 1 <= BatchSize(strategy, maxElementsPerChunk) <= maxElementsPerChunk
  {
  }

  class UpdateTaskStreamScheduleInfo {
    const batchSize: int
    const deferredNativeArrayScheduleInfo: DeferredScheduleInfo
    var updater: Option<DataStreamUpdater>

    /** The constructor copies the data stream's schedule info and picks the batch size; no updater is set yet. */
    constructor (dataScheduleInfo: DeferredScheduleInfo, strategy: BatchStrategy, maxElementsPerChunk: nat)
      ensures deferredNativeArrayScheduleInfo == dataScheduleInfo
      ensures batchSize == BatchSize(strategy, maxElementsPerChunk)
      ensures updater == None
    {
      deferredNativeArrayScheduleInfo := dataScheduleInfo;
      batchSize := BatchSize(strategy, maxElementsPerChunk);
      updater := None;
    }

    /** Length is unknown at schedule time: reading it always throws NotSupportedException. */
    function Length(): (r: Result<int, Exception>)
      ensures r == Failure(NotSupported)
    {
      Failure(NotSupported)
    }

    /** SetUpdater stores the updater and changes nothing else. */
    method SetUpdater(u: DataStreamUpdater)
      modifies this`updater
      ensures updater == Some(u)
    {
      updater := Some(u);
    }
  }
}
