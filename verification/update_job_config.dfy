/**
 * The configuration of an update job over a task stream
 * (Scripts/Runtime/Entities/Tasks/JobConfig/UpdateJobConfig.cs). Construction reserves the task
 * stream for update and, for a cancellable stream, its pending-cancel stream and the request-cancel
 * stream; each resolve channel then reserves write access to every data stream registered for it.
 * ResolveChannelUtil and the task-flow graph are not part of this model: the channel check's outcome
 * and the population and lookup of the channel mapping are parameters.
 */
module UpdateJobConfigs {
  import opened Wrappers
  import opened Ids
  import opened Jobs
  import opened JobConfigData
  import opened ScheduleInfos

  /** A task stream: its data stream and that stream's schedule info; a CancellableTaskStream also has a pending-cancel stream. */
  datatype TaskStream = TaskStream(dataStream: DataStreamKey, scheduleInfo: DeferredScheduleInfo, pendingCancelDataStream: Option<DataStreamKey>)

  /** JobResolveChannelMapping: the destinations registered per resolve channel. */
  datatype ResolveChannelMapping = ResolveChannelMapping(channels: map<EnumValue, seq<ResolveChannelData>>)

  /** DataStreamChannelResolver, built from the mapping as it stands at hardening. */
  datatype DataStreamChannelResolver = DataStreamChannelResolver(mapping: ResolveChannelMapping)

  /** The wrappers construction reserves: the update stream for exclusive write, then the cancellation streams. */
  function UpdateWrappers(taskStream: TaskStream, requestCancel: DataStreamKey): seq<(JobConfigDataID, AccessWrapper)>
  {
    [(StreamDataID(taskStream.dataStream, Update), DataStreamAccessWrapper(taskStream.dataStream, ExclusiveWrite))]
    + match taskStream.pendingCancelDataStream
      case None => []
      case Some(pendingCancel) =>
        [(StreamDataID(pendingCancel, WritePendingCancel), RequiredForWrite(pendingCancel)),
         (StreamDataID(requestCancel, Read), DataStreamAccessWrapper(requestCancel, SharedRead))]
  }

  /**
   * The update stream is always reserved first, for exclusive write; a non-cancellable stream
   * reserves nothing else; a cancellable one adds its pending-cancel stream for write and the
   * request-cancel stream for shared read.
   */
  lemma UpdateWrappersSpec(taskStream: TaskStream, requestCancel: DataStreamKey)
    ensures var w := UpdateWrappers(taskStream, requestCancel);
      && |w| == (if taskStream.pendingCancelDataStream.Some? then 3 else 1)
      && w[0] == (StreamDataID(taskStream.dataStream, Update), DataStreamAccessWrapper(taskStream.dataStream, ExclusiveWrite))
      && (forall i :: 0 <= i < |w| && w[i].1.DataStreamAccessWrapper? && w[i].1.access == ExclusiveWrite ==> i == 0)
      && (taskStream.pendingCancelDataStream.Some? ==>
            && w[1] == (StreamDataID(taskStream.pendingCancelDataStream.value, WritePendingCancel), RequiredForWrite(taskStream.pendingCancelDataStream.value))
            && w[2] == (StreamDataID(requestCancel, Read), DataStreamAccessWrapper(requestCancel, SharedRead)))
  {
  }

  /** The Write wrappers of a resolve channel's destinations, one per destination, in order. */
  function ChannelWrappers(channel: EnumValue, data: seq<ResolveChannelData>): seq<(JobConfigDataID, AccessWrapper)>
  {
    if data == [] then []
    else
      var d := data[|data| - 1];
      ChannelWrappers(channel, data[..|data| - 1]) + [(StreamDataID(d.dataStream, Write), ResolveChannelAccessWrapper(channel, d))]
  }

  /** Exactly one Write wrapper per destination, for that destination's stream: no destinations, no wrappers. */
  lemma {:induction false} ChannelWrappersSpec(channel: EnumValue, data: seq<ResolveChannelData>)
    ensures |ChannelWrappers(channel, data)| == |data|
    ensures forall i :: 0 <= i < |data| ==>
      ChannelWrappers(channel, data)[i] == (StreamDataID(data[i].dataStream, Write), ResolveChannelAccessWrapper(channel, data[i]))
  {
    if data != [] {
      ChannelWrappersSpec(channel, data[..|data| - 1]);
    }
  }

  class UpdateJobConfig {
    const scheduleJobFunction: string
    const base: JobConfigBase
    const scheduleInfo: UpdateTaskStreamScheduleInfo
    var channelMapping: ResolveChannelMapping
    var channelResolver: Option<DataStreamChannelResolver>   // None until Harden

    /**
     * The constructor builds the schedule info from the task stream's data stream and reserves the
     * streams RequireDataStreamForUpdate names. `maxElementsPerChunk` is the instance type's
     * ProxyDataStream MAX_ELEMENTS_PER_CHUNK.
     */
    constructor (scheduleJobFunction: string, taskStream: TaskStream, batchStrategy: BatchStrategy,
                 requestCancelDataStream: DataStreamKey, maxElementsPerChunk: nat)
      ensures this.scheduleJobFunction == scheduleJobFunction && fresh(base) && fresh(scheduleInfo)
      ensures scheduleInfo.deferredNativeArrayScheduleInfo == taskStream.scheduleInfo
      ensures scheduleInfo.batchSize == BatchSize(batchStrategy, maxElementsPerChunk) && scheduleInfo.updater == None
      ensures channelMapping == ResolveChannelMapping(map[]) && channelResolver == None
      ensures base.accessWrappers == UpdateWrappers(taskStream, requestCancelDataStream) && base.calls == []
    {
      this.scheduleJobFunction := scheduleJobFunction;
      scheduleInfo := new UpdateTaskStreamScheduleInfo(taskStream.scheduleInfo, batchStrategy, maxElementsPerChunk);
      base := new JobConfigBase();
      channelMapping := ResolveChannelMapping(map[]);
      channelResolver := None;
      new;
      RequireDataStreamForUpdate(taskStream, requestCancelDataStream);
    }

    method RequireRequestCancelDataStreamForRead(requestCancel: DataStreamKey)
      modifies base`accessWrappers
      ensures base.accessWrappers == old(base.accessWrappers) + [(StreamDataID(requestCancel, Read), DataStreamAccessWrapper(requestCancel, SharedRead))]
    {
      base.AddAccessWrapper(StreamDataID(requestCancel, Read), DataStreamAccessWrapper(requestCancel, SharedRead));
    }

    method RequireDataStreamForUpdate(taskStream: TaskStream, requestCancel: DataStreamKey)
      modifies base`accessWrappers
      ensures base.accessWrappers == old(base.accessWrappers) + UpdateWrappers(taskStream, requestCancel)
    {
      base.AddAccessWrapper(StreamDataID(taskStream.dataStream, Update), DataStreamAccessWrapper(taskStream.dataStream, ExclusiveWrite));
      if taskStream.pendingCancelDataStream.None? {
        return;
      }
      base.RequireDataStreamForWrite(taskStream.pendingCancelDataStream.value, WritePendingCancel);
      RequireRequestCancelDataStreamForRead(requestCancel);
    }

    /**
     * RequireResolveChannel: the channel is validated first (`validity` is what ResolveChannelUtil's
     * check yields); then the graph populates the mapping, and every destination registered for the
     * channel gets one Write wrapper, in order. The configuration itself is returned, for chaining.
     */
    method RequireResolveChannel(channel: EnumValue, validity: Outcome<Exception>,
                                 populate: (EnumValue, ResolveChannelMapping) -> ResolveChannelMapping,
                                 channelData: (ResolveChannelMapping, EnumValue) -> seq<ResolveChannelData>)
      returns (o: Outcome<Exception>, r: UpdateJobConfig)
      modifies this`channelMapping, base`accessWrappers
      ensures r == this && o == validity
      ensures o.Fail? ==> channelMapping == old(channelMapping) && base.accessWrappers == old(base.accessWrappers)
      ensures o.Pass? ==> channelMapping == populate(channel, old(channelMapping))
      ensures o.Pass? ==> base.accessWrappers == old(base.accessWrappers) + ChannelWrappers(channel, channelData(channelMapping, channel))
    {
      r := this;
      o := validity;
      if o.Fail? {
        return;
      }
      channelMapping := populate(channel, channelMapping);
      var data := channelData(channelMapping, channel);
      var i := 0;
      while i < |data|
        invariant 0 <= i <= |data|
        invariant channelMapping == populate(channel, old(channelMapping))
        invariant base.accessWrappers == old(base.accessWrappers) + ChannelWrappers(channel, data[..i])
      {
        base.AddAccessWrapper(StreamDataID(data[i].dataStream, Write), ResolveChannelAccessWrapper(channel, data[i]));
        assert data[..i + 1][..i] == data[..i];
        i := i + 1;
      }
      assert data[..i] == data;
    }

    /** Harden: the base hardening runs first, then the resolver is built from the mapping; the getter then returns it. */
    method Harden()
      modifies base`calls, this`channelResolver
      ensures base.calls == old(base.calls) + [BaseHarden]
      ensures GetDataStreamChannelResolver() == Some(DataStreamChannelResolver(channelMapping))
    {
      base.Record(BaseHarden);
      channelResolver := Some(DataStreamChannelResolver(channelMapping));
    }

    /** GetDataStreamChannelResolver: the resolver Harden built; None (the default) before it. */
    function GetDataStreamChannelResolver(): Option<DataStreamChannelResolver>
      reads this`channelResolver
    {
      channelResolver
    }

    /** DisposeSelf: the resolver is disposed before the base configuration. */
    method DisposeSelf()
      modifies base`calls
      ensures base.calls == old(base.calls) + [DisposeResolver, BaseDisposeSelf]
    {
      base.Record(DisposeResolver);
      base.Record(BaseDisposeSelf);
    }
  }
}
