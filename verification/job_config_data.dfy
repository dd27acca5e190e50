/**
 * What a job configuration accumulates while it is configured: access wrappers keyed by a
 * JobConfigDataID, and the calls it makes into its base class AbstractJobConfig, whose body is not
 * part of this model. AbstractJobConfig is represented by JobConfigBase, which records those calls
 * in order; the configurations below hold one as their base part.
 */
module JobConfigData {
  import opened Wrappers
  import opened Ids
  import opened Jobs
  import opened ResolveTargetUtil

  /** The usages a configuration declares for the data it requires. */
  datatype Usage = Update | Read | Write | WritePendingCancel | Resolve

  /** A data stream, known by its identity. */
  datatype DataStreamKey = DataStreamKey(id: nat)

  /** A value of a resolve-target or resolve-channel enumeration, with its enum type. */
  datatype EnumValue = EnumValue(enumType: TypeDescriptor, value: int)

  /** One destination registered for a resolve target (ResolveTargetData), known by its data stream. */
  datatype ResolveTargetData = ResolveTargetData(dataStream: DataStreamKey)

  /** One destination registered for a resolve channel (ResolveChannelData), known by its data stream. */
  datatype ResolveChannelData = ResolveChannelData(dataStream: DataStreamKey)

  /** JobConfigDataID: a data stream with a usage, or (for resolve targets) a data-stream type with a usage. */
  datatype JobConfigDataID =
    | StreamDataID(stream: DataStreamKey, usage: Usage)
    | TypeDataID(dataStreamType: Option<TypeKey>, usage: Usage)   // None: the type is not known yet

  datatype AccessWrapper =
    | DataStreamAccessWrapper(stream: DataStreamKey, access: AccessType)
    | RequiredForWrite(stream: DataStreamKey)   // the wrapper AbstractJobConfig.RequireDataStreamForWrite builds
    | ResolveTargetAccessWrapper(resolveTarget: EnumValue, targetData: seq<ResolveTargetData>)
    | ResolveChannelAccessWrapper(resolveChannel: EnumValue, channelData: ResolveChannelData)

  /** Calls into the base class and into the resolvers, in the order they are made. */
  datatype ConfigCall = BaseHarden | BaseDisposeSelf | DisposeResolver

  class JobConfigBase {
    var accessWrappers: seq<(JobConfigDataID, AccessWrapper)>
    var calls: seq<ConfigCall>

    constructor ()
      ensures accessWrappers == [] && calls == []
    {
      accessWrappers := [];
      calls := [];
    }

    /** AbstractJobConfig.AddAccessWrapper: the wrapper is handed over under its id. */
    method AddAccessWrapper(id: JobConfigDataID, wrapper: AccessWrapper)
      modifies this`accessWrappers
      ensures accessWrappers == old(accessWrappers) + [(id, wrapper)]
    {
      accessWrappers := accessWrappers + [(id, wrapper)];
    }

    /** AbstractJobConfig.RequireDataStreamForWrite: one wrapper for the stream, under the given usage. */
    method RequireDataStreamForWrite(stream: DataStreamKey, usage: Usage)
      modifies this`accessWrappers
      ensures accessWrappers == old(accessWrappers) + [(StreamDataID(stream, usage), RequiredForWrite(stream))]
    {
      AddAccessWrapper(StreamDataID(stream, usage), RequiredForWrite(stream));
    }

    method Record(c: ConfigCall)
      modifies this`calls
      ensures calls == old(calls) + [c]
    {
      calls := calls + [c];
    }
  }
}
