/**
 * The system that runs task drivers during its update phase
 * (Scripts/Runtime/Entities/Tasks/AbstractTaskDriverSystem.cs): it keeps the registered drivers, the
 * update-job configurations and the lookup of task data, and chains the five update phases, each
 * depending on the handle of the previous one. The rest of the class lives in a partial part that is
 * not part of this model; its world-unique id and its cancellable-data flag are given at construction.
 */
module TaskDriverSystems {
  import opened Wrappers
  import opened Ids
  import opened Jobs

  /** VirtualData<TKey, TInstance>: only its identity and its disposal are modelled. */
  class VirtualData {
    var disposed: bool

    constructor ()
      ensures !disposed
    {
      disposed := false;
    }
  }

  /** JobTaskWorkConfig, whose body is not part of this model: its two construction arguments. */
  class JobTaskWorkConfig {
    const scheduleJobDelegate: string
    const taskDriverSystem: TaskDriverSystem

    constructor (scheduleJobDelegate: string, taskDriverSystem: TaskDriverSystem)
      ensures this.scheduleJobDelegate == scheduleJobDelegate && this.taskDriverSystem == taskDriverSystem
    {
      this.scheduleJobDelegate := scheduleJobDelegate;
      this.taskDriverSystem := taskDriverSystem;
    }
  }

  /** The jobs UpdateTaskDriverSystem schedules, in the order it schedules them. */
  const UPDATE_PHASES: seq<string> :=
    ["PopulateDrivers", "ConsolidateTaskData", "ScheduleUpdateJobs", "ConsolidateDrivers", "UpdateDrivers"]

  /** Jobs scheduled one after another, each depending on the handle of the one before; the first on `h`. */
  function Chain(jobs: seq<string>, h: JobHandle): JobHandle
  {
    if jobs == [] then h else Scheduled(jobs[|jobs| - 1], Chain(jobs[..|jobs| - 1], h))
  }

  /** Peels `n` scheduled jobs off a handle: the jobs in the order they run, and the handle the first depends on. */
  function Unchain(h: JobHandle, n: nat): (r: Option<(seq<string>, JobHandle)>)
    ensures r.Some? ==> |r.value.0| == n
  {
    if n == 0 then Some(([], h))
    else if !h.Scheduled? then None
    else match Unchain(h.dependsOn, n - 1)
      case None => None
      case Some(p) => Some((p.0 + [h.job], p.1))
  }

  /** A chain of jobs can be read back, job by job, down to the handle it started from. */
  lemma {:induction false} UnchainChain(jobs: seq<string>, h: JobHandle)
    ensures Unchain(Chain(jobs, h), |jobs|) == Some((jobs, h))
  {
    if jobs != [] {
      var init := jobs[..|jobs| - 1];
      UnchainChain(init, h);
      assert init + [jobs[|jobs| - 1]] == jobs;
    }
  }

  class TaskDriverSystem {
    const checks: bool
    const worldUniqueID: TaskSetOwnerID
    const hasCancellableData: bool
    var taskDrivers: seq<object>
    var updateJobData: seq<JobTaskWorkConfig>
    var taskDataLookup: seq<VirtualData>
    var taskDataLookupDisposed: bool
    var taskData: VirtualData?

    /** No driver is registered twice. */
    predicate DriversDistinct()
      reads this`taskDrivers
    {
      forall i, j :: 0 <= i < j < |taskDrivers| ==> taskDrivers[i] != taskDrivers[j]
    }

    /** The non-generic constructor: empty lists and an empty task-data lookup. */
    constructor (checks: bool, worldUniqueID: TaskSetOwnerID, hasCancellableData: bool)
      ensures this.checks == checks && this.worldUniqueID == worldUniqueID && this.hasCancellableData == hasCancellableData
      ensures taskDrivers == [] && updateJobData == [] && taskDataLookup == [] && !taskDataLookupDisposed
      ensures taskData == null
    {
      this.checks := checks;
      this.worldUniqueID := worldUniqueID;
      this.hasCancellableData := hasCancellableData;
      taskDrivers := [];
      updateJobData := [];
      taskDataLookup := [];
      taskDataLookupDisposed := false;
      taskData := null;
    }

    /** The generic constructor AbstractTaskDriverSystem<TKey, TTaskData>: its task data is created and registered in the lookup. */
    constructor Keyed(checks: bool, worldUniqueID: TaskSetOwnerID, hasCancellableData: bool)
      ensures this.checks == checks && this.worldUniqueID == worldUniqueID && this.hasCancellableData == hasCancellableData
      ensures taskDrivers == [] && updateJobData == [] && !taskDataLookupDisposed
      ensures taskData != null && fresh(taskData) && taskDataLookup == [taskData]
    {
      this.checks := checks;
      this.worldUniqueID := worldUniqueID;
      this.hasCancellableData := hasCancellableData;
      taskDrivers := [];
      updateJobData := [];
      taskDataLookup := [];
      taskDataLookupDisposed := false;
      taskData := null;
      new;
      var data := CreateTaskData();
      taskData := data;
    }

    /** OnDestroy: disposes the task-data lookup and empties both lists; the drivers themselves are left alone. */
    method OnDestroy()
      modifies this`taskDataLookupDisposed, this`updateJobData, this`taskDrivers
      ensures taskDataLookupDisposed && updateJobData == [] && taskDrivers == []
    {
      taskDataLookupDisposed := true;
      updateJobData := [];
      taskDrivers := [];
    }

    /** ConfigureUpdateJob: appends exactly one new configuration, bound to this system, and returns it. */
    method ConfigureUpdateJob(scheduleJobDelegate: string) returns (config: JobTaskWorkConfig)
      modifies this`updateJobData
      ensures fresh(config)
      ensures config.scheduleJobDelegate == scheduleJobDelegate && config.taskDriverSystem == this
      ensures updateJobData == old(updateJobData) + [config]
    {
      config := new JobTaskWorkConfig(scheduleJobDelegate, this);
      updateJobData := updateJobData + [config];
    }

    /** CreateTaskData: creates new virtual data and registers it in the lookup. */
    method CreateTaskData() returns (data: VirtualData)
      modifies this`taskDataLookup
      ensures fresh(data) && !data.disposed
      ensures taskDataLookup == old(taskDataLookup) + [data]
    {
      data := new VirtualData();
      taskDataLookup := taskDataLookup + [data];
    }

    /**
     * RegisterTaskDriver with Debug_EnsureTaskDriverSystemRelationship: a driver whose System is not
     * this system, or one already registered, is rejected; otherwise it is appended. `driverSystem`
     * is what the driver's System property returns.
     */
    method RegisterTaskDriver(taskDriver: object, driverSystem: object) returns (o: Outcome<Exception>)
      modifies this`taskDrivers
      ensures checks && driverSystem != this ==> o == Fail(InvalidOperation(WrongTaskDriverSystem))
      ensures checks && driverSystem == this && taskDriver in old(taskDrivers) ==> o == Fail(InvalidOperation(TaskDriverAlreadyRegistered))
      ensures o.Pass? <==> !checks || (driverSystem == this && taskDriver !in old(taskDrivers))
      ensures o.Fail? ==> taskDrivers == old(taskDrivers)
      ensures o.Pass? ==> taskDrivers == old(taskDrivers) + [taskDriver]
      ensures checks && old(DriversDistinct()) ==> DriversDistinct()
    {
      if checks {
        if driverSystem != this {
          return Fail(InvalidOperation(WrongTaskDriverSystem));
        }
        if taskDriver in taskDrivers {
          return Fail(InvalidOperation(TaskDriverAlreadyRegistered));
        }
      }
      taskDrivers := taskDrivers + [taskDriver];
      o := Pass;
    }

    /**
     * UpdateTaskDriverSystem: the returned handle is the five phases scheduled one after another,
     * the first depending on `dependsOn`. The bulk schedules are not part of this model: each phase
     * is one scheduled job, whatever the number of drivers or configurations.
     */
    method UpdateTaskDriverSystem(dependsOn: JobHandle) returns (r: JobHandle)
      ensures Unchain(r, |UPDATE_PHASES|) == Some((UPDATE_PHASES, dependsOn))
    {
      // Have the drivers add to the instance data
      r := Scheduled(UPDATE_PHASES[0], dependsOn);
      assert r == Chain(UPDATE_PHASES[..1], dependsOn);
      // Consolidate the task data
      r := Scheduled(UPDATE_PHASES[1], r);
      assert UPDATE_PHASES[..2][..1] == UPDATE_PHASES[..1];
      assert r == Chain(UPDATE_PHASES[..2], dependsOn);
      // Run the update jobs
      r := Scheduled(UPDATE_PHASES[2], r);
      assert UPDATE_PHASES[..3][..2] == UPDATE_PHASES[..2];
      assert r == Chain(UPDATE_PHASES[..3], dependsOn);
      // Have the drivers consolidate their results
      r := Scheduled(UPDATE_PHASES[3], r);
      assert UPDATE_PHASES[..4][..3] == UPDATE_PHASES[..3];
      assert r == Chain(UPDATE_PHASES[..4], dependsOn);
      // Have the drivers do their own work
      r := Scheduled(UPDATE_PHASES[4], r);
      assert UPDATE_PHASES[..5][..4] == UPDATE_PHASES[..4];
      assert r == Chain(UPDATE_PHASES[..5], dependsOn);
      assert UPDATE_PHASES[..5] == UPDATE_PHASES;
      UnchainChain(UPDATE_PHASES, dependsOn);
    }
  }
}
