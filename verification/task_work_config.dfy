/**
 * The configuration object of a job run during a task driver's or task-driver system's update phase
 * (Scripts/Runtime/Entities/Tasks/Data/AbstractTaskWorkConfig.cs). It accumulates data wrappers
 * while Configuring; once the configuration phase is complete (Executing) adding is rejected. The
 * state field and the usage notifications exist only when ENABLE_UNITY_COLLECTIONS_CHECKS is
 * defined: that is the `checks` constant.
 */
module TaskWorkConfigs {
  import opened Wrappers
  import opened Ids

  datatype DataUsage = Add | Iterate | Update | ResultsDestination

  datatype ConfigState = Configuring | Executing

  /** Which VDWrapper class wraps the virtual data: ForAdd, ForIterate, ForUpdate or AsResultsDestination. */
  datatype WrapperKind = ForAdd | ForIterate | ForUpdate | AsResultsDestination

  /** A data wrapper around one virtual data; its Type is the type of the wrapped data. */
  datatype DataWrapper = DataWrapper(kind: WrapperKind, dataType: TypeKey)

  /** The usage each InternalRequireData* method reports for its wrapper. */
  function UsageOf(kind: WrapperKind): (u: DataUsage)
    ensures kind == ForAdd <==> u == Add
    ensures kind == ForIterate <==> u == Iterate
    ensures kind == ForUpdate <==> u == Update
    ensures kind == AsResultsDestination <==> u == ResultsDestination
  {
    match kind
    case ForAdd => Add
    case ForIterate => Iterate
    case ForUpdate => Update
    case AsResultsDestination => ResultsDestination
  }

  /** Distinct wrapper kinds report distinct usages. */
  lemma UsageOfInjective(a: WrapperKind, b: WrapperKind)
    ensures UsageOf(a) == UsageOf(b) <==> a == b
  {
  }

  /**
   * AbstractTaskWorkData, whose body is not part of this model: it is represented by what the
   * configuration hands it, the wrappers and the usage notifications, in order.
   */
  class TaskWorkData {
    var wrappers: seq<DataWrapper>
    var usages: seq<(TypeKey, DataUsage)>

    constructor ()
      ensures wrappers == [] && usages == []
    {
      wrappers := [];
      usages := [];
    }

    method AddDataWrapper(w: DataWrapper)
      modifies this`wrappers
      ensures wrappers == old(wrappers) + [w]
    {
      wrappers := wrappers + [w];
    }

    method NotifyWorkDataOfUsage(t: TypeKey, u: DataUsage)
      modifies this`usages
      ensures usages == old(usages) + [(t, u)]
    {
      usages := usages + [(t, u)];
    }
  }

  class TaskWorkConfig {
    const checks: bool
    const taskWorkData: TaskWorkData
    var configState: ConfigState
    var dataWrappers: seq<DataWrapper>

    /** A new configuration is Configuring and holds no wrappers. */
    constructor (checks: bool, taskWorkData: TaskWorkData)
      ensures this.checks == checks && this.taskWorkData == taskWorkData
      ensures configState == Configuring && dataWrappers == []
    {
      this.checks := checks;
      this.taskWorkData := taskWorkData;
      configState := Configuring;
      dataWrappers := [];
    }

    /**
     * AddDataWrapper: rejected, with nothing appended, once the configuration phase is complete;
     * otherwise the wrapper is appended both to the work data and to this configuration.
     */
    method AddDataWrapper(w: DataWrapper) returns (o: Outcome<Exception>)
      modifies this`dataWrappers, taskWorkData`wrappers
      ensures o.Fail? <==> checks && configState == Executing
      ensures o.Fail? ==> o.error == InvalidOperation(ConfigurationComplete)
      ensures o.Fail? ==> dataWrappers == old(dataWrappers) && taskWorkData.wrappers == old(taskWorkData.wrappers)
      ensures o.Pass? ==> dataWrappers == old(dataWrappers) + [w] && taskWorkData.wrappers == old(taskWorkData.wrappers) + [w]
    {
      if checks && configState != Configuring {
        return Fail(InvalidOperation(ConfigurationComplete));
      }
      taskWorkData.AddDataWrapper(w);
      dataWrappers := dataWrappers + [w];
      o := Pass;
    }

    /**
     * The four InternalRequireData* methods, told apart by the wrapper kind they build: each adds
     * exactly one wrapper and, when the checks are compiled in, reports the matching usage.
     */
    method InternalRequireData(kind: WrapperKind, dataType: TypeKey) returns (o: Outcome<Exception>)
      modifies this`dataWrappers, taskWorkData`wrappers, taskWorkData`usages
      ensures o.Fail? <==> checks && configState == Executing
      ensures o.Fail? ==> o.error == InvalidOperation(ConfigurationComplete)
      ensures o.Fail? ==> unchanged(this`dataWrappers, taskWorkData`wrappers, taskWorkData`usages)
      ensures o.Pass? ==> dataWrappers == old(dataWrappers) + [DataWrapper(kind, dataType)]
      ensures o.Pass? ==> taskWorkData.wrappers == old(taskWorkData.wrappers) + [DataWrapper(kind, dataType)]
      ensures o.Pass? && checks ==> taskWorkData.usages == old(taskWorkData.usages) + [(dataType, UsageOf(kind))]
      ensures !checks ==> taskWorkData.usages == old(taskWorkData.usages)
    {
      var wrapper := DataWrapper(kind, dataType);
      o := AddDataWrapper(wrapper);
      if o.Fail? {
        return;
      }
      if checks {
        taskWorkData.NotifyWorkDataOfUsage(wrapper.dataType, UsageOf(kind));
      }
    }

    /** Debug_SetConfigurationStateComplete: the only transition, Configuring to Executing; a no-op without the checks. */
    method Debug_SetConfigurationStateComplete()
      modifies this`configState
      ensures checks ==> configState == Executing
      ensures !checks ==> configState == old(configState)
      ensures old(configState) == Executing ==> configState == Executing
    {
      if checks {
        configState := Executing;
      }
    }
  }
}
