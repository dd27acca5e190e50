/**
 * A job configuration that may resolve its results to a resolve target
 * (Scripts/Runtime/Entities/Tasks/JobConfig/AbstractUpdatableJobConfig.cs). Requiring a resolve
 * target reserves access to every data stream registered for it; hardening builds the resolver the
 * job uses to find them. The task-flow graph's population of the mapping and the lookup of a
 * target's data are not part of this model: they are the parameters `populate` and `targetData`.
 */
module UpdatableJobConfigs {
  import opened Wrappers
  import opened Ids
  import opened ResolveTargetUtil
  import opened ResolveTargetIDs
  import opened JobConfigData

  /** JobResolveTargetMapping: the data-stream type the targets resolve to, and the destinations per resolve-target key. */
  datatype ResolveTargetMapping = ResolveTargetMapping(dataStreamType: Option<TypeKey>, entries: map<ResolveTargetID, seq<ResolveTargetData>>)

  /** DataStreamTargetResolver, built from the mapping as it stands at hardening. */
  datatype DataStreamTargetResolver = DataStreamTargetResolver(mapping: ResolveTargetMapping)

  class UpdatableJobConfig {
    const checks: bool
    const base: JobConfigBase
    var targetMapping: ResolveTargetMapping
    var targetResolver: Option<DataStreamTargetResolver>   // None until HardenConfig

    /** The constructor starts with an empty mapping and no resolver. */
    constructor (checks: bool)
      ensures this.checks == checks && fresh(base)
      ensures base.accessWrappers == [] && base.calls == []
      ensures targetMapping == ResolveTargetMapping(None, map[]) && targetResolver == None
    {
      this.checks := checks;
      base := new JobConfigBase();
      targetMapping := ResolveTargetMapping(None, map[]);
      targetResolver := None;
    }

    /**
     * RequireResolveTarget: the enum is validated before anything else; then the graph populates the
     * mapping. If the whole mapping is still empty, nothing is reserved; otherwise exactly one
     * wrapper, for the mapping's data-stream type with the Resolve usage, covers the target's
     * destinations. The configuration itself is returned, for chaining.
     */
    method RequireResolveTarget(target: EnumValue,
                                populate: (EnumValue, ResolveTargetMapping) -> ResolveTargetMapping,
                                targetData: (ResolveTargetMapping, EnumValue) -> seq<ResolveTargetData>)
      returns (o: Outcome<Exception>, r: UpdatableJobConfig)
      requires target.enumType.isEnum
      modifies this`targetMapping, base`accessWrappers
      ensures r == this
      ensures o == EnsureEnumValidityGeneric(checks, target.enumType)
      ensures o.Fail? ==> targetMapping == old(targetMapping) && base.accessWrappers == old(base.accessWrappers)
      ensures o.Pass? ==> targetMapping == populate(target, old(targetMapping))
      ensures o.Pass? && |targetMapping.entries| == 0 ==> base.accessWrappers == old(base.accessWrappers)
      ensures o.Pass? && |targetMapping.entries| != 0 ==>
        base.accessWrappers == old(base.accessWrappers) +
          [(TypeDataID(targetMapping.dataStreamType, Resolve), ResolveTargetAccessWrapper(target, targetData(targetMapping, target)))]
    {
      r := this;
      o := EnsureEnumValidityGeneric(checks, target.enumType);
      if o.Fail? {
        return;
      }
      targetMapping := populate(target, targetMapping);
      if |targetMapping.entries| == 0 {
        return;
      }
      var data := targetData(targetMapping, target);
      base.AddAccessWrapper(TypeDataID(targetMapping.dataStreamType, Resolve), ResolveTargetAccessWrapper(target, data));
    }

    /** HardenConfig: the resolver is built from the mapping; the getter then returns it. */
    method HardenConfig()
      modifies this`targetResolver
      ensures GetDataStreamChannelResolver() == Some(DataStreamTargetResolver(targetMapping))
    {
      targetResolver := Some(DataStreamTargetResolver(targetMapping));
    }

    /** GetDataStreamChannelResolver: the resolver HardenConfig built; None (the default) before it. */
    function GetDataStreamChannelResolver(): Option<DataStreamTargetResolver>
      reads this`targetResolver
    {
      targetResolver
    }

    /** DisposeSelf: the resolver is disposed before the base configuration. */
    method DisposeSelf()
      modifies base`calls
      ensures base.calls == old(base.calls) + [DisposeResolver, BaseDisposeSelf]
    {
      base.Record(DisposeResolver);
      base.Record(BaseDisposeSelf);
    }
  }
}
