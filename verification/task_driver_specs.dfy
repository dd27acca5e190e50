/**
 * Value-level specifications of the walks a task driver makes over itself and its sub-drivers
 * (Scripts/Runtime/Entities/TaskDriver/AbstractTaskDriver.cs): hardening, world-unique id generation
 * and the migration lookup. The class TaskDriver (task_driver.dfy) is proved against these functions
 * through its Snapshot(); the properties the scheduler relies on are proved here, on values.
 */
module TaskDriverSpecs {
  import opened Wrappers
  import opened Ids
  import opened TaskDriverSystems
  import opened Collections

  /** A task driver object, known here only by its identity. */
  type DriverRef = object

  /** Calls into code that is not part of this model (TaskSet, the system's partial part), in order. */
  datatype ExternalCall =
    | HardenSystem(system: TaskDriverSystem)                            // TaskDriverSystem.Harden()
    | HardenTaskSet(driver: DriverRef)                                  // the driver's TaskSet.Harden()
    | GenerateSystemID(system: TaskDriverSystem)                        // TaskDriverSystem.GenerateWorldUniqueID(lookup)
    | TaskSetMigration(driver: DriverRef, path: string)                 // the driver's TaskSet.AddToMigrationLookup(path, ...)
    | SystemTaskSetMigration(system: TaskDriverSystem, path: string)    // TaskDriverSystem.TaskSet.AddToMigrationLookup(path, ...)

  /** A task driver and its sub-drivers, as a value. */
  datatype DriverTree = Node(
    driver: DriverRef,
    typeName: string,                    // GetType().AssemblyQualifiedName
    suffix: string,                      // the unique context identifier
    explicitCancellationCount: nat,      // TaskSet.ExplicitCancellationCount
    system: TaskDriverSystem,
    id: Option<TaskSetOwnerID>,          // None until GenerateWorldUniqueID has run
    isHardened: bool,
    hasCancellableData: bool,
    children: seq<DriverTree>)

  // ---------------------------------------------------------------------------------------------
  // Hardening
  // ---------------------------------------------------------------------------------------------

  /** The calls a successful Harden makes: the sub-drivers' first, in order, then the system, then the own task set. */
  function HardenCalls(t: DriverTree): seq<ExternalCall>
    decreases t, 1
  {
    ChildrenHardenCalls(t, |t.children|) + [HardenSystem(t.system), HardenTaskSet(t.driver)]
  }

  /** The calls of the first `k` sub-drivers' Harden, in order. */
  function ChildrenHardenCalls(t: DriverTree, k: nat): seq<ExternalCall>
    requires k <= |t.children|
    decreases t, 0, k
  {
    if k == 0 then [] else ChildrenHardenCalls(t, k - 1) + HardenCalls(t.children[k - 1])
  }

  /** The driver's own data makes it cancellable: explicit cancellation in its task set, or in its system. */
  predicate OwnCancellable(t: DriverTree)
  {
    t.explicitCancellationCount > 0 || t.system.hasCancellableData
  }

  /** The bottom-up OR that m_HasCancellableData holds after hardening. */
  predicate Cancellable(t: DriverTree)
  {
    OwnCancellable(t) || exists i :: 0 <= i < |t.children| && Cancellable(t.children[i])
  }

  predicate AnyHardened(t: DriverTree)
  {
    t.isHardened || exists i :: 0 <= i < |t.children| && AnyHardened(t.children[i])
  }

  predicate AllHardened(t: DriverTree)
  {
    t.isHardened && forall i :: 0 <= i < |t.children| ==> AllHardened(t.children[i])
  }

  /** Every node's flag is the OR the source computes from its own data and its sub-drivers' flags. */
  predicate FlagsComputed(t: DriverTree)
  {
    (t.hasCancellableData <==> OwnCancellable(t) || exists i :: 0 <= i < |t.children| && t.children[i].hasCancellableData)
    && forall i :: 0 <= i < |t.children| ==> FlagsComputed(t.children[i])
  }

  /** The tree after a successful Harden: every node hardened, every flag set to the bottom-up OR. */
  function Hardened(t: DriverTree): DriverTree
    decreases t, 1
  {
    t.(isHardened := true, hasCancellableData := Cancellable(t), children := HardenedChildren(t, |t.children|))
  }

  function HardenedChildren(t: DriverTree, k: nat): (r: seq<DriverTree>)
    requires k <= |t.children|
    ensures |r| == k
    ensures forall i :: 0 <= i < k ==> r[i] == Hardened(t.children[i])
    decreases t, 0, k
  {
    if k == 0 then [] else HardenedChildren(t, k - 1) + [Hardened(t.children[k - 1])]
  }

  /** After hardening, every node is hardened and holds the flag the source's formula gives. */
  lemma {:induction false} HardenedState(t: DriverTree)
    ensures AllHardened(Hardened(t))
    ensures FlagsComputed(Hardened(t))
    ensures Hardened(t).hasCancellableData == Cancellable(t)
  {
    var h := Hardened(t);
    forall i | 0 <= i < |t.children|
      ensures AllHardened(h.children[i]) && FlagsComputed(h.children[i])
      ensures h.children[i].hasCancellableData == Cancellable(t.children[i])
    {
      HardenedState(t.children[i]);
    }
    if Cancellable(t) && !OwnCancellable(t) {
      var i :| 0 <= i < |t.children| && Cancellable(t.children[i]);
      assert h.children[i].hasCancellableData;
    }
    if !OwnCancellable(t) && exists i :: 0 <= i < |h.children| && h.children[i].hasCancellableData {
      var i :| 0 <= i < |h.children| && h.children[i].hasCancellableData;
      assert Cancellable(t.children[i]);
    }
  }

  /** Some tree of `cs` carries the cancellable-data flag: the Any over the sub-drivers that Harden evaluates. */
  predicate AnyFlagged(cs: seq<DriverTree>)
  {
    |cs| > 0 && (AnyFlagged(cs[..|cs| - 1]) || cs[|cs| - 1].hasCancellableData)
  }

  lemma {:induction false} AnyFlaggedIff(cs: seq<DriverTree>)
    ensures AnyFlagged(cs) <==> exists i :: 0 <= i < |cs| && cs[i].hasCancellableData
  {
    if |cs| > 0 {
      var init := cs[..|cs| - 1];
      AnyFlaggedIff(init);
      if AnyFlagged(init) {
        var i :| 0 <= i < |init| && init[i].hasCancellableData;
        assert cs[i] == init[i];
      }
      if exists i :: 0 <= i < |cs| && cs[i].hasCancellableData {
        var i :| 0 <= i < |cs| && cs[i].hasCancellableData;
        if i < |init| {
          assert init[i] == cs[i];
        }
      }
    }
  }

  /** The outcome of Harden on a tree: the tree afterwards and the calls made. */
  datatype HardenRun = HardenRun(outcome: Outcome<Exception>, tree: DriverTree, calls: seq<ExternalCall>)

  datatype HardenChildrenRun = HardenChildrenRun(outcome: Outcome<Exception>, children: seq<DriverTree>, calls: seq<ExternalCall>)

  /**
   * Harden on a tree, step by step as the source runs it: the debug check, the node marked hardened,
   * the sub-drivers in order (a failure stops the walk, leaving the node marked), then the system and
   * the own task set, and last the flag computed from the own data and the sub-drivers' flags.
   */
  function RunHarden(t: DriverTree, checks: bool): HardenRun
    decreases t, 1
  {
    if checks && t.isHardened then HardenRun(Fail(InvalidOperation(AlreadyHardened)), t, [])
    else
      var r := RunHardenChildren(t, |t.children|, checks);
      if r.outcome.Fail? then HardenRun(r.outcome, t.(isHardened := true, children := r.children), r.calls)
      else
        HardenRun(Pass, t.(isHardened := true, hasCancellableData := OwnCancellable(t) || AnyFlagged(r.children), children := r.children),
                  r.calls + [HardenSystem(t.system), HardenTaskSet(t.driver)])
  }

  /** The first `k` sub-drivers' Harden, in order, stopping at the first failure; later sub-drivers are untouched. */
  function RunHardenChildren(t: DriverTree, k: nat, checks: bool): (r: HardenChildrenRun)
    requires k <= |t.children|
    ensures |r.children| == |t.children|
    ensures forall i :: k <= i < |t.children| ==> r.children[i] == t.children[i]
    decreases t, 0, k
  {
    if k == 0 then HardenChildrenRun(Pass, t.children, [])
    else
      var r := RunHardenChildren(t, k - 1, checks);
      if r.outcome.Fail? then r
      else
        var c := RunHarden(t.children[k - 1], checks);
        HardenChildrenRun(c.outcome, r.children[k - 1 := c.tree], r.calls + c.calls)
  }

  /** One more sub-driver: the run over the first k + 1 continues the run over the first k with the k-th sub-driver. */
  lemma RunHardenChildrenStep(t: DriverTree, k: nat, checks: bool, done: seq<DriverTree>, calls1: seq<ExternalCall>, c: HardenRun)
    requires k < |t.children|
    requires RunHardenChildren(t, k, checks) == HardenChildrenRun(Pass, done, calls1)
    requires RunHarden(t.children[k], checks) == c
    ensures RunHardenChildren(t, k + 1, checks) == HardenChildrenRun(c.outcome, done[k := c.tree], calls1 + c.calls)
  {
  }

  /** Once a sub-driver's Harden has failed, running further sub-drivers changes nothing. */
  lemma {:induction false} RunHardenChildrenFailureStable(t: DriverTree, k: nat, n: nat, checks: bool)
    requires k <= n <= |t.children|
    requires RunHardenChildren(t, k, checks).outcome.Fail?
    ensures RunHardenChildren(t, n, checks) == RunHardenChildren(t, k, checks)
    decreases n
  {
    if k < n {
      RunHardenChildrenFailureStable(t, k, n - 1, checks);
    }
  }

  /**
   * Harden fails exactly when some driver of the tree was already hardened (with the checks
   * compiled in), and then with the not-hardened-twice error; when it passes, the tree is the fully
   * hardened tree and the calls are HardenCalls.
   */
  lemma {:induction false} RunHardenSpec(t: DriverTree, checks: bool)
    ensures var r := RunHarden(t, checks);
      && (r.outcome.Pass? <==> !checks || !AnyHardened(t))
      && (r.outcome.Fail? ==> r.outcome.error == InvalidOperation(AlreadyHardened))
      && (r.outcome.Pass? ==> r.tree == Hardened(t) && r.calls == HardenCalls(t))
    decreases t, 1
  {
    if !(checks && t.isHardened) {
      var n := |t.children|;
      var r := RunHardenChildren(t, n, checks);
      RunHardenChildrenSpec(t, n, checks);
      if r.outcome.Fail? {
        var j :| 0 <= j < n && AnyHardened(t.children[j]);
        assert AnyHardened(t);
      } else {
        HardenedFromChildren(t, r.children);
      }
    }
  }

  /** The node hardened over its hardened sub-drivers, with the flag Harden computes, is Hardened(t). */
  lemma HardenedFromChildren(t: DriverTree, children: seq<DriverTree>)
    requires |children| == |t.children|
    requires forall i :: 0 <= i < |children| ==> children[i] == Hardened(t.children[i])
    ensures t.(isHardened := true, hasCancellableData := OwnCancellable(t) || AnyFlagged(children), children := children) == Hardened(t)
  {
    var n := |children|;
    assert children == HardenedChildren(t, n);
    forall i | 0 <= i < n
      ensures children[i].hasCancellableData == Cancellable(t.children[i])
    {
    }
    AnyFlaggedIff(children);
    if AnyFlagged(children) && !OwnCancellable(t) {
      var i :| 0 <= i < n && children[i].hasCancellableData;
      assert Cancellable(t.children[i]);
    }
    if Cancellable(t) && !OwnCancellable(t) {
      var i :| 0 <= i < n && Cancellable(t.children[i]);
      assert children[i].hasCancellableData;
    }
  }

  lemma {:induction false} RunHardenChildrenSpec(t: DriverTree, k: nat, checks: bool)
    requires k <= |t.children|
    ensures var r := RunHardenChildren(t, k, checks);
      && (r.outcome.Pass? <==> !checks || forall j :: 0 <= j < k ==> !AnyHardened(t.children[j]))
      && (r.outcome.Fail? ==> r.outcome.error == InvalidOperation(AlreadyHardened))
      && (r.outcome.Pass? ==> r.calls == ChildrenHardenCalls(t, k) && forall j :: 0 <= j < k ==> r.children[j] == Hardened(t.children[j]))
    decreases t, 0, k
  {
    if k > 0 {
      var r0 := RunHardenChildren(t, k - 1, checks);
      RunHardenChildrenSpec(t, k - 1, checks);
      if r0.outcome.Pass? {
        var c := RunHarden(t.children[k - 1], checks);
        RunHardenSpec(t.children[k - 1], checks);
        var r := RunHardenChildren(t, k, checks);
        assert r.children == r0.children[k - 1 := c.tree];
        if r.outcome.Pass? {
          forall j | 0 <= j < k
            ensures r.children[j] == Hardened(t.children[j])
          {
            if j < k - 1 {
              assert r.children[j] == r0.children[j];
            }
          }
        }
      } else {
        var j :| 0 <= j < k - 1 && AnyHardened(t.children[j]);
      }
    }
  }

  /** A path of sub-driver indices from the root of `t`. */
  predicate IsPath(t: DriverTree, path: seq<nat>)
    decreases |path|
  {
    path == [] || (path[0] < |t.children| && IsPath(t.children[path[0]], path[1..]))
  }

  function At(t: DriverTree, path: seq<nat>): DriverTree
    requires IsPath(t, path)
    decreases |path|
  {
    if path == [] then t else At(t.children[path[0]], path[1..])
  }

  /**
   * The flag is set exactly when some driver in the tree has cancellable data of its own: one
   * cancellable descendant makes every ancestor cancellable, and nothing else does.
   */
  lemma {:induction false} CancellableIffSomeNode(t: DriverTree)
    ensures Cancellable(t) <==> exists path :: IsPath(t, path) && OwnCancellable(At(t, path))
  {
    if Cancellable(t) {
      if OwnCancellable(t) {
        assert IsPath(t, []) && At(t, []) == t;
      } else {
        var i :| 0 <= i < |t.children| && Cancellable(t.children[i]);
        CancellableIffSomeNode(t.children[i]);
        var p :| IsPath(t.children[i], p) && OwnCancellable(At(t.children[i], p));
        var path := [i as nat] + p;
        assert path[1..] == p;
        assert IsPath(t, path) && At(t, path) == At(t.children[i], p);
        assert OwnCancellable(At(t, path));
      }
      assert exists path :: IsPath(t, path) && OwnCancellable(At(t, path));
    }
    if exists path :: IsPath(t, path) && OwnCancellable(At(t, path)) {
      var path :| IsPath(t, path) && OwnCancellable(At(t, path));
      DescendantMakesCancellable(t, path);
    }
  }

  /** A cancellable driver anywhere below makes the root cancellable. */
  lemma {:induction false} DescendantMakesCancellable(t: DriverTree, path: seq<nat>)
    requires IsPath(t, path) && OwnCancellable(At(t, path))
    ensures Cancellable(t)
    decreases |path|
  {
    if path != [] {
      DescendantMakesCancellable(t.children[path[0]], path[1..]);
    }
  }

  /** The drivers of a tree. */
  function Drivers(t: DriverTree): set<DriverRef>
  {
    {t.driver} + set i, d | 0 <= i < |t.children| && d in Drivers(t.children[i]) :: d
  }

  /** Hardening reaches every driver's task set, and no other. */
  lemma {:induction false} HardenReachesEveryTaskSet(t: DriverTree, d: DriverRef)
    ensures HardenTaskSet(d) in HardenCalls(t) <==> d in Drivers(t)
    decreases t, 1
  {
    ChildrenHardenReachTaskSets(t, |t.children|, d);
  }

  lemma {:induction false} ChildrenHardenReachTaskSets(t: DriverTree, k: nat, d: DriverRef)
    requires k <= |t.children|
    ensures HardenTaskSet(d) in ChildrenHardenCalls(t, k) <==> exists i :: 0 <= i < k && d in Drivers(t.children[i])
    decreases t, 0, k
  {
    if k > 0 {
      ChildrenHardenReachTaskSets(t, k - 1, d);
      HardenReachesEveryTaskSet(t.children[k - 1], d);
    }
  }

  /** Every call a sub-driver's hardening makes comes before the parent hardens its system and its own task set. */
  lemma {:induction false} SubtreeHardenedBeforeParent(t: DriverTree, i: nat, x: ExternalCall)
    requires i < |t.children| && x in HardenCalls(t.children[i])
    ensures var calls := HardenCalls(t);
      |calls| >= 2 && x in calls[..|calls| - 2] && calls[|calls| - 2..] == [HardenSystem(t.system), HardenTaskSet(t.driver)]
  {
    ChildCallsIncluded(t, |t.children|, i, x);
    var calls := HardenCalls(t);
    assert calls[..|calls| - 2] == ChildrenHardenCalls(t, |t.children|);
  }

  lemma {:induction false} ChildCallsIncluded(t: DriverTree, k: nat, i: nat, x: ExternalCall)
    requires i < k <= |t.children| && x in HardenCalls(t.children[i])
    ensures x in ChildrenHardenCalls(t, k)
  {
    if i < k - 1 {
      ChildCallsIncluded(t, k - 1, i, x);
    }
  }

  // ---------------------------------------------------------------------------------------------
  // World-unique ids
  // ---------------------------------------------------------------------------------------------

  /** The path hashed for a driver: the parent's id as text (empty at top level), "/", the type name, the suffix. */
  function IdPath(parentPart: string, t: DriverTree): string
  {
    parentPart + "/" + t.typeName + t.suffix
  }

  function NodeId(t: DriverTree, parentPart: string, hash: string -> int): TaskSetOwnerID
  {
    TaskSetOwnerID(hash(IdPath(parentPart, t)))
  }

  /**
   * What the system's own GenerateWorldUniqueID, which lives in a partial part of the system that is
   * not part of this model, does with the owner lookup it is handed: its outcome and the lookup it
   * leaves behind.
   */
  datatype SystemIdRun = SystemIdRun(outcome: Outcome<Exception>, lookup: map<TaskSetOwnerID, DriverRef>)

  type SystemIdStep = (TaskDriverSystem, map<TaskSetOwnerID, DriverRef>) -> SystemIdRun

  /** The outcome of GenerateWorldUniqueID: the tree with its ids, the owner lookup and the calls made. */
  datatype IdRun = IdRun(outcome: Outcome<Exception>, tree: DriverTree, lookup: map<TaskSetOwnerID, DriverRef>, calls: seq<ExternalCall>)

  datatype IdChildrenRun = IdChildrenRun(outcome: Outcome<Exception>, children: seq<DriverTree>, lookup: map<TaskSetOwnerID, DriverRef>, calls: seq<ExternalCall>)

  /**
   * GenerateWorldUniqueID on a tree: the node's id is assigned, then added to the lookup (failing on
   * a present key), then the sub-drivers run in order with the node's id as their parent part, and
   * last the system generates its own id into the same lookup. A failure stops the walk where it
   * happened.
   */
  function RunIds(t: DriverTree, parentPart: string, m: map<TaskSetOwnerID, DriverRef>, hash: string -> int, toStr: TaskSetOwnerID -> string,
                  systemIds: SystemIdStep): IdRun
    decreases t, 1
  {
    var newId := NodeId(t, parentPart, hash);
    if newId in m then IdRun(Fail(DuplicateKey), t.(id := Some(newId)), m, [])
    else
      var r := RunChildIds(t, |t.children|, toStr(newId), m[newId := t.driver], hash, toStr, systemIds);
      var tree := t.(id := Some(newId), children := r.children);
      if r.outcome.Fail? then IdRun(r.outcome, tree, r.lookup, r.calls)
      else
        var s := systemIds(t.system, r.lookup);
        IdRun(s.outcome, tree, s.lookup, r.calls + [GenerateSystemID(t.system)])
  }

  /** The first `k` sub-drivers' runs, in order, stopping at the first failure; later sub-drivers are untouched. */
  function RunChildIds(t: DriverTree, k: nat, part: string, m: map<TaskSetOwnerID, DriverRef>, hash: string -> int, toStr: TaskSetOwnerID -> string,
                       systemIds: SystemIdStep): (r: IdChildrenRun)
    requires k <= |t.children|
    ensures |r.children| == |t.children|
    ensures forall i :: k <= i < |t.children| ==> r.children[i] == t.children[i]
    decreases t, 0, k
  {
    if k == 0 then IdChildrenRun(Pass, t.children, m, [])
    else
      var r := RunChildIds(t, k - 1, part, m, hash, toStr, systemIds);
      if r.outcome.Fail? then r
      else
        var c := RunIds(t.children[k - 1], part, r.lookup, hash, toStr, systemIds);
        IdChildrenRun(c.outcome, r.children[k - 1 := c.tree], c.lookup, r.calls + c.calls)
  }

  /** One more sub-driver: the run over the first k + 1 continues the run over the first k with the k-th sub-driver. */
  lemma RunChildIdsStep(t: DriverTree, k: nat, part: string, m: map<TaskSetOwnerID, DriverRef>, hash: string -> int, toStr: TaskSetOwnerID -> string,
                        systemIds: SystemIdStep, done: seq<DriverTree>, m1: map<TaskSetOwnerID, DriverRef>, calls1: seq<ExternalCall>, c: IdRun)
    requires k < |t.children|
    requires RunChildIds(t, k, part, m, hash, toStr, systemIds) == IdChildrenRun(Pass, done, m1, calls1)
    requires RunIds(t.children[k], part, m1, hash, toStr, systemIds) == c
    ensures RunChildIds(t, k + 1, part, m, hash, toStr, systemIds) == IdChildrenRun(c.outcome, done[k := c.tree], c.lookup, calls1 + c.calls)
  {
  }

  /** Once a sub-driver's run has failed, running further sub-drivers changes nothing. */
  lemma {:induction false} RunChildIdsFailureStable(t: DriverTree, k: nat, n: nat, part: string, m: map<TaskSetOwnerID, DriverRef>, hash: string -> int,
                                                    toStr: TaskSetOwnerID -> string, systemIds: SystemIdStep)
    requires k <= n <= |t.children|
    requires RunChildIds(t, k, part, m, hash, toStr, systemIds).outcome.Fail?
    ensures RunChildIds(t, n, part, m, hash, toStr, systemIds) == RunChildIds(t, k, part, m, hash, toStr, systemIds)
    decreases n
  {
    if k < n {
      RunChildIdsFailureStable(t, k, n - 1, part, m, hash, toStr, systemIds);
    }
  }

  /** The (id, driver) entries a tree's drivers add, in the order the walk adds them (pre-order). */
  function IdEntries(t: DriverTree, parentPart: string, hash: string -> int, toStr: TaskSetOwnerID -> string): seq<(TaskSetOwnerID, DriverRef)>
    decreases t, 1
  {
    var newId := NodeId(t, parentPart, hash);
    [(newId, t.driver)] + ChildIdEntries(t, |t.children|, toStr(newId), hash, toStr)
  }

  function ChildIdEntries(t: DriverTree, k: nat, part: string, hash: string -> int, toStr: TaskSetOwnerID -> string): seq<(TaskSetOwnerID, DriverRef)>
    requires k <= |t.children|
    decreases t, 0, k
  {
    if k == 0 then [] else ChildIdEntries(t, k - 1, part, hash, toStr) + IdEntries(t.children[k - 1], part, hash, toStr)
  }

  /**
   * A run that was to enter the driver entries `e` into the lookup `before`, giving `after`, with
   * the system's own steps in between: no entry is ever replaced; when it passes, the driver ids were
   * pairwise distinct and absent beforehand and each is now entered for its own driver; when every
   * failure of the system step is Dictionary.Add's (`duplicateOnly`), so is every failure of the run;
   * and when the system step never fails and adds only keys of `reserved` (`within`), distinct,
   * absent driver ids outside `reserved` make the run pass, adding no key beyond them and `reserved`.
   */
  ghost predicate EnteredIds(o: Outcome<Exception>, after: map<TaskSetOwnerID, DriverRef>, e: seq<(TaskSetOwnerID, DriverRef)>,
                             before: map<TaskSetOwnerID, DriverRef>, duplicateOnly: bool, within: bool, reserved: set<TaskSetOwnerID>)
  {
    && Extends(after, before)
    && (o.Pass? ==> Distinct(KeysOf(e)) && NoneIn(KeysOf(e), before) && EntriesIn(e, after))
    && (o.Fail? && duplicateOnly ==> o == Fail(DuplicateKey))
    && ((within && Distinct(KeysOf(e)) && NoneIn(KeysOf(e), before) && Elems(KeysOf(e)) !! reserved)
          ==> o.Pass? && after.Keys <= before.Keys + Elems(KeysOf(e)) + reserved)
  }

  /**
   * Id generation enters every driver's id for that driver, as EnteredIds says, whatever the
   * system's own step does to the lookup, provided it only adds to it.
   */
  lemma {:induction false} RunIdsSpec(t: DriverTree, parentPart: string, m: map<TaskSetOwnerID, DriverRef>, hash: string -> int,
                                      toStr: TaskSetOwnerID -> string, systemIds: SystemIdStep,
                                      duplicateOnly: bool, within: bool, reserved: set<TaskSetOwnerID>)
    requires forall s, l :: Extends(systemIds(s, l).lookup, l)
    requires duplicateOnly ==> forall s, l :: systemIds(s, l).outcome.Fail? ==> systemIds(s, l).outcome == Fail(DuplicateKey)
    requires within ==> forall s, l :: systemIds(s, l).outcome.Pass? && systemIds(s, l).lookup.Keys <= l.Keys + reserved
    ensures var r := RunIds(t, parentPart, m, hash, toStr, systemIds);
      EnteredIds(r.outcome, r.lookup, IdEntries(t, parentPart, hash, toStr), m, duplicateOnly, within, reserved)
    decreases t, 1
  {
    var newId := NodeId(t, parentPart, hash);
    var own := [(newId, t.driver)];
    var ce := ChildIdEntries(t, |t.children|, toStr(newId), hash, toStr);
    var e := IdEntries(t, parentPart, hash, toStr);
    assert e == own + ce;
    KeysOfAppend(own, ce);
    assert KeysOf(own) == [newId];
    if newId in m {
      assert KeysOf(e)[0] == newId;
    } else {
      var m1 := m[newId := t.driver];
      assert EnteredIds(Pass, m1, own, m, duplicateOnly, within, reserved);
      var r := RunChildIds(t, |t.children|, toStr(newId), m1, hash, toStr, systemIds);
      RunChildIdsSpec(t, |t.children|, toStr(newId), m1, hash, toStr, systemIds, duplicateOnly, within, reserved);
      ChainIdRuns(own, ce, m, m1, r.lookup, r.outcome, duplicateOnly, within, reserved);
      if r.outcome.Pass? {
        var s := systemIds(t.system, r.lookup);
        SystemIdStepEntersNothing(t.system, r.lookup, systemIds, duplicateOnly, within, reserved);
        ChainIdRuns(e, [], m, r.lookup, s.lookup, s.outcome, duplicateOnly, within, reserved);
        assert e + [] == e;
      }
    }
  }

  lemma {:induction false} RunChildIdsSpec(t: DriverTree, k: nat, part: string, m: map<TaskSetOwnerID, DriverRef>, hash: string -> int,
                                           toStr: TaskSetOwnerID -> string, systemIds: SystemIdStep,
                                      duplicateOnly: bool, within: bool, reserved: set<TaskSetOwnerID>)
    requires forall s, l :: Extends(systemIds(s, l).lookup, l)
    requires duplicateOnly ==> forall s, l :: systemIds(s, l).outcome.Fail? ==> systemIds(s, l).outcome == Fail(DuplicateKey)
    requires within ==> forall s, l :: systemIds(s, l).outcome.Pass? && systemIds(s, l).lookup.Keys <= l.Keys + reserved
    requires k <= |t.children|
    ensures var r := RunChildIds(t, k, part, m, hash, toStr, systemIds);
      EnteredIds(r.outcome, r.lookup, ChildIdEntries(t, k, part, hash, toStr), m, duplicateOnly, within, reserved)
    decreases t, 0, k
  {
    if k == 0 {
      assert KeysOf<TaskSetOwnerID, DriverRef>([]) == [];
    } else {
      var r := RunChildIds(t, k - 1, part, m, hash, toStr, systemIds);
      var a := ChildIdEntries(t, k - 1, part, hash, toStr);
      var b := IdEntries(t.children[k - 1], part, hash, toStr);
      assert ChildIdEntries(t, k, part, hash, toStr) == a + b;
      RunChildIdsSpec(t, k - 1, part, m, hash, toStr, systemIds, duplicateOnly, within, reserved);
      if r.outcome.Pass? {
        var c := RunIds(t.children[k - 1], part, r.lookup, hash, toStr, systemIds);
        RunIdsSpec(t.children[k - 1], part, r.lookup, hash, toStr, systemIds, duplicateOnly, within, reserved);
        ChainIdRuns(a, b, m, r.lookup, c.lookup, c.outcome, duplicateOnly, within, reserved);
      } else {
        FailedIdRunExtends(a, b, m, r.lookup, r.outcome, duplicateOnly, within, reserved);
      }
    }
  }

  /** The system's own step, on its own, enters no driver entry. */
  lemma SystemIdStepEntersNothing(system: TaskDriverSystem, l: map<TaskSetOwnerID, DriverRef>, systemIds: SystemIdStep,
                                  duplicateOnly: bool, within: bool, reserved: set<TaskSetOwnerID>)
    requires forall s, l :: Extends(systemIds(s, l).lookup, l)
    requires duplicateOnly ==> forall s, l :: systemIds(s, l).outcome.Fail? ==> systemIds(s, l).outcome == Fail(DuplicateKey)
    requires within ==> forall s, l :: systemIds(s, l).outcome.Pass? && systemIds(s, l).lookup.Keys <= l.Keys + reserved
    ensures var s := systemIds(system, l);
      EnteredIds(s.outcome, s.lookup, [], l, duplicateOnly, within, reserved)
  {
    assert KeysOf<TaskSetOwnerID, DriverRef>([]) == [];
  }

  /** Entering `a` and then `b` is entering `a + b`. */
  lemma ChainIdRuns(a: seq<(TaskSetOwnerID, DriverRef)>, b: seq<(TaskSetOwnerID, DriverRef)>, m: map<TaskSetOwnerID, DriverRef>,
                    l1: map<TaskSetOwnerID, DriverRef>, l2: map<TaskSetOwnerID, DriverRef>, o: Outcome<Exception>,
                    duplicateOnly: bool, within: bool, reserved: set<TaskSetOwnerID>)
    requires EnteredIds(Pass, l1, a, m, duplicateOnly, within, reserved)
    requires EnteredIds(o, l2, b, l1, duplicateOnly, within, reserved)
    ensures EnteredIds(o, l2, a + b, m, duplicateOnly, within, reserved)
  {
    var ka, kb := KeysOf(a), KeysOf(b);
    KeysOfAppend(a, b);
    DistinctAppend(ka, kb);
    NoneInAppend(ka, kb, m);
    assert Elems(ka + kb) == Elems(ka) + Elems(kb);
    if o.Pass? {
      forall x | x in ka
        ensures x !in kb
      {
        var i :| 0 <= i < |ka| && ka[i] == x;
        assert a[i].0 == x;
      }
      forall i | 0 <= i < |a + b|
        ensures (a + b)[i].0 in l2 && l2[(a + b)[i].0] == (a + b)[i].1
      {
        if i >= |a| {
          assert (a + b)[i] == b[i - |a|];
        } else {
          assert (a + b)[i] == a[i];
        }
      }
    }
    if within && Distinct(ka + kb) && NoneIn(ka + kb, m) && Elems(ka + kb) !! reserved {
      assert NoneIn(kb, l1) by {
        forall x | x in kb
          ensures x !in l1
        {
          assert x !in m && x !in reserved && x !in Elems(ka);
        }
      }
    }
  }

  /** A run that failed on the way to entering `a` has failed on the way to entering `a + b` too. */
  lemma FailedIdRunExtends(a: seq<(TaskSetOwnerID, DriverRef)>, b: seq<(TaskSetOwnerID, DriverRef)>, m: map<TaskSetOwnerID, DriverRef>,
                           l: map<TaskSetOwnerID, DriverRef>, o: Outcome<Exception>, duplicateOnly: bool, within: bool, reserved: set<TaskSetOwnerID>)
    requires o.Fail? && EnteredIds(o, l, a, m, duplicateOnly, within, reserved)
    ensures EnteredIds(o, l, a + b, m, duplicateOnly, within, reserved)
  {
    KeysOfAppend(a, b);
    DistinctAppend(KeysOf(a), KeysOf(b));
    NoneInAppend(KeysOf(a), KeysOf(b), m);
    assert Elems(KeysOf(a) + KeysOf(b)) == Elems(KeysOf(a)) + Elems(KeysOf(b));
  }

  /**
   * When the system's own step leaves the lookup as it is, id generation passes exactly when the
   * driver ids are pairwise distinct and none was present, fails otherwise with Dictionary.Add's
   * error, and when it passes has added exactly the driver ids, each for its own driver.
   */
  lemma RunIdsWithSilentSystem(t: DriverTree, parentPart: string, m: map<TaskSetOwnerID, DriverRef>, hash: string -> int,
                               toStr: TaskSetOwnerID -> string, systemIds: SystemIdStep)
    requires forall s, l :: systemIds(s, l) == SystemIdRun(Pass, l)
    ensures var r := RunIds(t, parentPart, m, hash, toStr, systemIds);
      var ids := KeysOf(IdEntries(t, parentPart, hash, toStr));
      && (r.outcome.Pass? <==> Distinct(ids) && NoneIn(ids, m))
      && (r.outcome.Fail? ==> r.outcome == Fail(DuplicateKey))
      && (r.outcome.Pass? ==> r.lookup.Keys == m.Keys + Elems(ids) && EntriesIn(IdEntries(t, parentPart, hash, toStr), r.lookup))
  {
    assert forall s, l :: systemIds(s, l).outcome.Pass? && systemIds(s, l).lookup.Keys <= l.Keys + {} by {
      forall s: TaskDriverSystem, l: map<TaskSetOwnerID, DriverRef>
        ensures systemIds(s, l).outcome.Pass? && systemIds(s, l).lookup.Keys <= l.Keys + {}
      {
        assert systemIds(s, l) == SystemIdRun(Pass, l);
      }
    }
    RunIdsSpec(t, parentPart, m, hash, toStr, systemIds, true, true, {});
    var r := RunIds(t, parentPart, m, hash, toStr, systemIds);
    var e := IdEntries(t, parentPart, hash, toStr);
    if r.outcome.Pass? {
      forall x | x in Elems(KeysOf(e))
        ensures x in r.lookup
      {
        var i :| 0 <= i < |e| && KeysOf(e)[i] == x;
      }
    }
  }

  lemma {:induction false} ChildIdEntriesHaveChildId(t: DriverTree, k: nat, i: nat, part: string, hash: string -> int, toStr: TaskSetOwnerID -> string)
    requires i < k <= |t.children|
    ensures NodeId(t.children[i], part, hash) in KeysOf(ChildIdEntries(t, k, part, hash, toStr))
  {
    var a := ChildIdEntries(t, k - 1, part, hash, toStr);
    var b := IdEntries(t.children[k - 1], part, hash, toStr);
    KeysOfAppend(a, b);
    if i < k - 1 {
      ChildIdEntriesHaveChildId(t, k - 1, i, part, hash, toStr);
    } else {
      assert KeysOf(b)[0] == NodeId(t.children[i], part, hash);
    }
  }

  lemma {:induction false} ChildIdEntriesDistinctPrefix(t: DriverTree, k: nat, n: nat, part: string, hash: string -> int, toStr: TaskSetOwnerID -> string)
    requires k <= n <= |t.children|
    requires Distinct(KeysOf(ChildIdEntries(t, n, part, hash, toStr)))
    ensures Distinct(KeysOf(ChildIdEntries(t, k, part, hash, toStr)))
    decreases n
  {
    if k < n {
      var a := ChildIdEntries(t, n - 1, part, hash, toStr);
      var b := IdEntries(t.children[n - 1], part, hash, toStr);
      KeysOfAppend(a, b);
      DistinctAppend(KeysOf(a), KeysOf(b));
      ChildIdEntriesDistinctPrefix(t, k, n - 1, part, hash, toStr);
    }
  }

  /**
   * Two sub-drivers of one parent with the same type and the same context identifier (a null
   * identifier is the empty string) hash the same path, so id generation fails; the failure is
   * Dictionary.Add's whenever the system's own step fails only that way.
   */
  lemma SiblingsWithSameNameCollideOnIds(t: DriverTree, parentPart: string, m: map<TaskSetOwnerID, DriverRef>, hash: string -> int,
                                         toStr: TaskSetOwnerID -> string, systemIds: SystemIdStep, i: nat, j: nat)
    requires forall s, l :: Extends(systemIds(s, l).lookup, l)
    requires i < j < |t.children|
    requires t.children[i].typeName == t.children[j].typeName && t.children[i].suffix == t.children[j].suffix
    ensures RunIds(t, parentPart, m, hash, toStr, systemIds).outcome.Fail?
    ensures (forall s, l :: systemIds(s, l).outcome.Fail? ==> systemIds(s, l).outcome == Fail(DuplicateKey)) ==> RunIds(t, parentPart, m, hash, toStr, systemIds).outcome == Fail(DuplicateKey)
  {
    var dup := forall s, l :: systemIds(s, l).outcome.Fail? ==> systemIds(s, l).outcome == Fail(DuplicateKey);
    RunIdsSpec(t, parentPart, m, hash, toStr, systemIds, dup, false, {});
    var newId := NodeId(t, parentPart, hash);
    var part := toStr(newId);
    var x := NodeId(t.children[i], part, hash);
    ChildIdEntriesHaveChildId(t, j, i, part, hash, toStr);
    var a := ChildIdEntries(t, j, part, hash, toStr);
    var b := IdEntries(t.children[j], part, hash, toStr);
    KeysOfAppend(a, b);
    assert KeysOf(b)[0] == x;
    DistinctAppend(KeysOf(a), KeysOf(b));
    assert ChildIdEntries(t, j + 1, part, hash, toStr) == a + b;
    var ce := ChildIdEntries(t, |t.children|, part, hash, toStr);
    if Distinct(KeysOf(ce)) {
      ChildIdEntriesDistinctPrefix(t, j + 1, |t.children|, part, hash, toStr);
    }
    KeysOfAppend([(newId, t.driver)], ce);
    DistinctAppend(KeysOf([(newId, t.driver)]), KeysOf(ce));
    assert IdEntries(t, parentPart, hash, toStr) == [(newId, t.driver)] + ce;
  }

  // ---------------------------------------------------------------------------------------------
  // Migration lookup
  // ---------------------------------------------------------------------------------------------

  /** default(TaskSetOwnerID), read when the id has not been generated. */
  const DEFAULT_OWNER_ID: TaskSetOwnerID := TaskSetOwnerID(0)

  /** A driver's migration path: the parent's path, the type name, the context identifier, "-". */
  function MigrationPath(parentPath: string, t: DriverTree): string
  {
    parentPath + t.typeName + t.suffix + "-"
  }

  /** The path under which a driver's system is entered: the driver's type name and "-System". */
  function SystemPath(t: DriverTree): string
  {
    t.typeName + "-System"
  }

  /** The exception a duplicate path raises: the debug check's when compiled in, otherwise Dictionary.Add's. */
  function DuplicatePathError(checks: bool): Exception
  {
    if checks then InvalidOperation(DuplicateMigrationPath) else DuplicateKey
  }

  datatype MigrationRun = MigrationRun(outcome: Outcome<Exception>, lookup: map<string, TaskSetOwnerID>, calls: seq<ExternalCall>)

  /**
   * AddToMigrationLookup on a tree: the driver's path is added (failing if present), its task set
   * enters its data under that path, the system path is added only if absent and only then does the
   * system's task set enter its data, and last the sub-drivers run in order under the driver's path.
   */
  function RunMigration(t: DriverTree, parentPath: string, m: map<string, TaskSetOwnerID>, checks: bool): MigrationRun
    decreases t, 1
  {
    var path := MigrationPath(parentPath, t);
    if path in m then MigrationRun(Fail(DuplicatePathError(checks)), m, [])
    else
      var m1 := m[path := OwnerIdOrDefault(t)];
      var sysPath := SystemPath(t);
      var m2 := if sysPath in m1 then m1 else m1[sysPath := t.system.worldUniqueID];
      var own := [TaskSetMigration(t.driver, path)] + (if sysPath in m1 then [] else [SystemTaskSetMigration(t.system, sysPath)]);
      var r := RunChildMigration(t, |t.children|, path, m2, checks);
      MigrationRun(r.outcome, r.lookup, own + r.calls)
  }

  function RunChildMigration(t: DriverTree, k: nat, path: string, m: map<string, TaskSetOwnerID>, checks: bool): MigrationRun
    requires k <= |t.children|
    decreases t, 0, k
  {
    if k == 0 then MigrationRun(Pass, m, [])
    else
      var r := RunChildMigration(t, k - 1, path, m, checks);
      if r.outcome.Fail? then r
      else
        var c := RunMigration(t.children[k - 1], path, r.lookup, checks);
        MigrationRun(c.outcome, c.lookup, r.calls + c.calls)
  }

  /** One more sub-driver: the run over the first k + 1 continues the run over the first k with the k-th sub-driver. */
  lemma RunChildMigrationStep(t: DriverTree, k: nat, path: string, m: map<string, TaskSetOwnerID>, checks: bool,
                              m1: map<string, TaskSetOwnerID>, calls1: seq<ExternalCall>, c: MigrationRun)
    requires k < |t.children|
    requires RunChildMigration(t, k, path, m, checks) == MigrationRun(Pass, m1, calls1)
    requires RunMigration(t.children[k], path, m1, checks) == c
    ensures RunChildMigration(t, k + 1, path, m, checks) == MigrationRun(c.outcome, c.lookup, calls1 + c.calls)
  {
  }

  lemma {:induction false} RunChildMigrationFailureStable(t: DriverTree, k: nat, n: nat, path: string, m: map<string, TaskSetOwnerID>, checks: bool)
    requires k <= n <= |t.children|
    requires RunChildMigration(t, k, path, m, checks).outcome.Fail?
    ensures RunChildMigration(t, n, path, m, checks) == RunChildMigration(t, k, path, m, checks)
    decreases n
  {
    if k < n {
      RunChildMigrationFailureStable(t, k, n - 1, path, m, checks);
    }
  }

  /** Each system path entered by the calls was absent before, is present after, and is entered once. */
  predicate SystemEntriesFresh(calls: seq<ExternalCall>, before: map<string, TaskSetOwnerID>, after: map<string, TaskSetOwnerID>)
  {
    && (forall i :: 0 <= i < |calls| && calls[i].SystemTaskSetMigration? ==> calls[i].path !in before && calls[i].path in after)
    && (forall i, j :: 0 <= i < j < |calls| && calls[i].SystemTaskSetMigration? && calls[j].SystemTaskSetMigration? ==> calls[i].path != calls[j].path)
  }

  /** Every driver task set enters its data under a path that extends `prefix`. */
  predicate DriverPathsExtend(calls: seq<ExternalCall>, prefix: string)
  {
    forall i :: 0 <= i < |calls| && calls[i].TaskSetMigration? ==> prefix <= calls[i].path
  }

  lemma SystemEntriesFreshAppend(c1: seq<ExternalCall>, c2: seq<ExternalCall>, m0: map<string, TaskSetOwnerID>, m1: map<string, TaskSetOwnerID>, m2: map<string, TaskSetOwnerID>)
    requires Extends(m1, m0) && Extends(m2, m1)
    requires SystemEntriesFresh(c1, m0, m1) && SystemEntriesFresh(c2, m1, m2)
    ensures SystemEntriesFresh(c1 + c2, m0, m2)
  {
    var c := c1 + c2;
    forall i | 0 <= i < |c| && c[i].SystemTaskSetMigration?
      ensures c[i].path !in m0 && c[i].path in m2
    {
      if i >= |c1| {
        assert c[i] == c2[i - |c1|];
      }
    }
    forall i, j | 0 <= i < j < |c| && c[i].SystemTaskSetMigration? && c[j].SystemTaskSetMigration?
      ensures c[i].path != c[j].path
    {
      if i >= |c1| {
        assert c[i] == c2[i - |c1|] && c[j] == c2[j - |c1|];
      } else if j >= |c1| {
        assert c[j] == c2[j - |c1|];
      }
    }
  }

  lemma DriverPathsExtendAppend(c1: seq<ExternalCall>, c2: seq<ExternalCall>, prefix: string)
    requires DriverPathsExtend(c1, prefix) && DriverPathsExtend(c2, prefix)
    ensures DriverPathsExtend(c1 + c2, prefix)
  {
    var c := c1 + c2;
    forall i | 0 <= i < |c| && c[i].TaskSetMigration?
      ensures prefix <= c[i].path
    {
      if i >= |c1| {
        assert c[i] == c2[i - |c1|];
      }
    }
  }

  lemma DriverPathsExtendShorter(calls: seq<ExternalCall>, prefix: string, longer: string)
    requires prefix <= longer && DriverPathsExtend(calls, longer)
    ensures DriverPathsExtend(calls, prefix)
  {
    forall i | 0 <= i < |calls| && calls[i].TaskSetMigration?
      ensures prefix <= calls[i].path
    {
      assert calls[i].path[..|longer|] == longer;
      assert calls[i].path[..|prefix|] == longer[..|prefix|];
    }
  }

  /** The owner id entered for a driver: its world-unique id, or default(TaskSetOwnerID) when it has none. */
  function OwnerIdOrDefault(t: DriverTree): TaskSetOwnerID
  {
    if t.id.Some? then t.id.value else DEFAULT_OWNER_ID
  }

  predicate EndsIn(p: string, c: char)
  {
    |p| > 0 && p[|p| - 1] == c
  }

  /** Every key of `e` ends in `c`. */
  predicate KeysEndIn<V>(e: seq<(string, V)>, c: char)
  {
    forall i :: 0 <= i < |e| ==> EndsIn(e[i].0, c)
  }

  /** A driver path ends in "-" and a system path in "-System", so no driver path is a system path. */
  lemma DriverAndSystemPathsDiffer(parentPath: string, t: DriverTree, u: DriverTree)
    ensures EndsIn(MigrationPath(parentPath, t), '-') && EndsIn(SystemPath(u), 'm')
    ensures MigrationPath(parentPath, t) != SystemPath(u)
  {
    var p := MigrationPath(parentPath, t);
    var s := SystemPath(u);
    assert p[|p| - 1] == '-';
    assert s[|s| - 1] == 'm';
  }

  /** The (path, owner id) entries the drivers of a tree add, in the order the walk adds them (pre-order). */
  function MigrationEntries(t: DriverTree, parentPath: string): (r: seq<(string, TaskSetOwnerID)>)
    ensures KeysEndIn(r, '-')
    decreases t, 1
  {
    var path := MigrationPath(parentPath, t);
    DriverAndSystemPathsDiffer(parentPath, t, t);
    [(path, OwnerIdOrDefault(t))] + ChildMigrationEntries(t, |t.children|, path)
  }

  function ChildMigrationEntries(t: DriverTree, k: nat, path: string): (r: seq<(string, TaskSetOwnerID)>)
    requires k <= |t.children|
    ensures KeysEndIn(r, '-')
    decreases t, 0, k
  {
    if k == 0 then [] else ChildMigrationEntries(t, k - 1, path) + MigrationEntries(t.children[k - 1], path)
  }

  /** The (system path, system) pairs the walk offers to TryAdd, in the order it offers them (pre-order). */
  function SystemEntries(t: DriverTree): (r: seq<(string, TaskDriverSystem)>)
    ensures KeysEndIn(r, 'm')
    decreases t, 1
  {
    DriverAndSystemPathsDiffer("", t, t);
    [(SystemPath(t), t.system)] + ChildSystemEntries(t, |t.children|)
  }

  function ChildSystemEntries(t: DriverTree, k: nat): (r: seq<(string, TaskDriverSystem)>)
    requires k <= |t.children|
    ensures KeysEndIn(r, 'm')
    decreases t, 0, k
  {
    if k == 0 then [] else ChildSystemEntries(t, k - 1) + SystemEntries(t.children[k - 1])
  }

  /** Position `k` of `e` holds the first occurrence of its key. */
  predicate FirstOccurrence<V>(e: seq<(string, V)>, k: int)
    requires 0 <= k < |e|
  {
    forall j :: 0 <= j < k ==> e[j].0 != e[k].0
  }

  /**
   * A run that was to enter the driver entries `d` and offer the system entries `s` to TryAdd, on
   * the lookup `before`, giving `after` and making `calls`: no entry is ever replaced; it passes
   * exactly when the driver paths are pairwise distinct and none was present, and otherwise fails
   * with the duplicate-path error; when it passes, each driver path holds its driver's owner id,
   * the keys added are exactly the driver and system paths, and the first offer of each system
   * path that was absent is entered with that system's WorldUniqueID and makes that system's task
   * set enter its data under it; a system's task set is only ever asked once per path, for a path
   * of `s` that was absent and is now present.
   */
  ghost predicate MigrationEntered(o: Outcome<Exception>, after: map<string, TaskSetOwnerID>, calls: seq<ExternalCall>,
                                   d: seq<(string, TaskSetOwnerID)>, s: seq<(string, TaskDriverSystem)>,
                                   before: map<string, TaskSetOwnerID>, checks: bool)
  {
    && Extends(after, before)
    && (o.Pass? <==> Distinct(KeysOf(d)) && NoneIn(KeysOf(d), before))
    && (o.Fail? ==> o.error == DuplicatePathError(checks))
    && (o.Pass? ==> EntriesIn(d, after) && after.Keys == before.Keys + Elems(KeysOf(d)) + Elems(KeysOf(s)))
    && (o.Pass? ==> FirstOffersEntered(s, before, after, calls))
    && SystemEntriesFresh(calls, before, after)
    && SystemCallsOffered(calls, s)
  }

  /**
   * The first offer of each system path absent from `before` is in `after` with that system's
   * WorldUniqueID, and that system's task set was asked to enter its data under the path.
   */
  predicate FirstOffersEntered(s: seq<(string, TaskDriverSystem)>, before: map<string, TaskSetOwnerID>, after: map<string, TaskSetOwnerID>,
                               calls: seq<ExternalCall>)
  {
    forall k :: 0 <= k < |s| && s[k].0 !in before && FirstOccurrence(s, k) ==>
      && s[k].0 in after && after[s[k].0] == s[k].1.worldUniqueID
      && SystemTaskSetMigration(s[k].1, s[k].0) in calls
  }

  /** A system's task set is only asked for a path that was offered. */
  predicate SystemCallsOffered(calls: seq<ExternalCall>, s: seq<(string, TaskDriverSystem)>)
  {
    forall i :: 0 <= i < |calls| && calls[i].SystemTaskSetMigration? ==> calls[i].path in KeysOf(s)
  }

  /**
   * The migration walk over a tree enters its drivers' paths and offers its systems' paths as
   * MigrationEntered says, and every driver path it hands a task set extends the parent's path.
   */
  lemma {:induction false} RunMigrationSpec(t: DriverTree, parentPath: string, m: map<string, TaskSetOwnerID>, checks: bool)
    ensures var r := RunMigration(t, parentPath, m, checks);
      && MigrationEntered(r.outcome, r.lookup, r.calls, MigrationEntries(t, parentPath), SystemEntries(t), m, checks)
      && DriverPathsExtend(r.calls, parentPath)
    decreases t, 1
  {
    var path := MigrationPath(parentPath, t);
    var sysPath := SystemPath(t);
    var own := [(path, OwnerIdOrDefault(t))];
    var sysOwn := [(sysPath, t.system)];
    var cd := ChildMigrationEntries(t, |t.children|, path);
    var cs := ChildSystemEntries(t, |t.children|);
    assert MigrationEntries(t, parentPath) == own + cd;
    assert SystemEntries(t) == sysOwn + cs;
    assert KeysOf(own) == [path] && KeysOf(sysOwn) == [sysPath];
    DriverAndSystemPathsDiffer(parentPath, t, t);
    KeysOfAppend(own, cd);
    KeysOfAppend(sysOwn, cs);
    if path in m {
      assert KeysOf(own + cd)[0] == path;
    } else {
      var m1 := m[path := OwnerIdOrDefault(t)];
      var m2 := if sysPath in m1 then m1 else m1[sysPath := t.system.worldUniqueID];
      var calls := [TaskSetMigration(t.driver, path)] + (if sysPath in m1 then [] else [SystemTaskSetMigration(t.system, sysPath)]);
      assert MigrationEntered(Pass, m2, calls, own, sysOwn, m, checks);
      var r := RunChildMigration(t, |t.children|, path, m2, checks);
      RunChildMigrationSpec(t, |t.children|, path, m2, checks);
      ChainMigrationRuns(own, cd, sysOwn, cs, m, m2, r.lookup, calls, r.calls, r.outcome, checks);
      assert parentPath <= path by {
        assert path == parentPath + (t.typeName + t.suffix + "-");
      }
      assert DriverPathsExtend(calls, parentPath);
      DriverPathsExtendShorter(r.calls, parentPath, path);
      DriverPathsExtendAppend(calls, r.calls, parentPath);
    }
  }

  lemma {:induction false} RunChildMigrationSpec(t: DriverTree, k: nat, path: string, m: map<string, TaskSetOwnerID>, checks: bool)
    requires k <= |t.children|
    ensures var r := RunChildMigration(t, k, path, m, checks);
      && MigrationEntered(r.outcome, r.lookup, r.calls, ChildMigrationEntries(t, k, path), ChildSystemEntries(t, k), m, checks)
      && DriverPathsExtend(r.calls, path)
    decreases t, 0, k
  {
    if k == 0 {
      assert KeysOf<string, TaskSetOwnerID>([]) == [];
      assert KeysOf<string, TaskDriverSystem>([]) == [];
    } else {
      var r := RunChildMigration(t, k - 1, path, m, checks);
      var da, db := ChildMigrationEntries(t, k - 1, path), MigrationEntries(t.children[k - 1], path);
      var sa, sb := ChildSystemEntries(t, k - 1), SystemEntries(t.children[k - 1]);
      RunChildMigrationSpec(t, k - 1, path, m, checks);
      if r.outcome.Pass? {
        var c := RunMigration(t.children[k - 1], path, r.lookup, checks);
        RunMigrationSpec(t.children[k - 1], path, r.lookup, checks);
        ChainMigrationRuns(da, db, sa, sb, m, r.lookup, c.lookup, r.calls, c.calls, c.outcome, checks);
        DriverPathsExtendAppend(r.calls, c.calls, path);
      } else {
        FailedMigrationRunExtends(da, db, sa, sb, m, r.lookup, r.calls, r.outcome, checks);
      }
    }
  }

  /** Running `a` and then `b` is running `a + b`: the two runs' entries, offers and calls concatenate. */
  lemma ChainMigrationRuns(da: seq<(string, TaskSetOwnerID)>, db: seq<(string, TaskSetOwnerID)>,
                           sa: seq<(string, TaskDriverSystem)>, sb: seq<(string, TaskDriverSystem)>,
                           m: map<string, TaskSetOwnerID>, l1: map<string, TaskSetOwnerID>, l2: map<string, TaskSetOwnerID>,
                           ca: seq<ExternalCall>, cb: seq<ExternalCall>, o: Outcome<Exception>, checks: bool)
    requires KeysEndIn(da, '-') && KeysEndIn(db, '-') && KeysEndIn(sa, 'm') && KeysEndIn(sb, 'm')
    requires MigrationEntered(Pass, l1, ca, da, sa, m, checks)
    requires MigrationEntered(o, l2, cb, db, sb, l1, checks)
    ensures MigrationEntered(o, l2, ca + cb, da + db, sa + sb, m, checks)
  {
    var ka, kb := KeysOf(da), KeysOf(db);
    KeysOfAppend(da, db);
    KeysOfAppend(sa, sb);
    DistinctAppend(ka, kb);
    NoneInAppend(ka, kb, m);
    assert Elems(ka + kb) == Elems(ka) + Elems(kb);
    assert Elems(KeysOf(sa) + KeysOf(sb)) == Elems(KeysOf(sa)) + Elems(KeysOf(sb));
    SystemEntriesFreshAppend(ca, cb, m, l1, l2);
    DriverPathsNotOffered(db, sa);
    assert NoneIn(kb, l1) <==> NoneIn(kb, m) && (forall x :: x in ka ==> x !in kb);
    ChainSystemCallsOffered(ca, cb, sa, sb);
    if o.Pass? {
      ChainEntriesIn(da, db, l1, l2);
      DriverPathsNotOffered(da, sb);
      ChainFirstOffers(sa, sb, m, l1, l2, ca, cb, ka);
    }
  }

  /** No driver path is offered as a system path: the two end in different characters. */
  lemma DriverPathsNotOffered(d: seq<(string, TaskSetOwnerID)>, s: seq<(string, TaskDriverSystem)>)
    requires KeysEndIn(d, '-') && KeysEndIn(s, 'm')
    ensures forall x :: x in KeysOf(d) ==> x !in KeysOf(s)
  {
    forall x | x in KeysOf(d)
      ensures x !in KeysOf(s)
    {
      var i :| 0 <= i < |d| && KeysOf(d)[i] == x;
      assert EndsIn(d[i].0, '-');
      forall j | 0 <= j < |s|
        ensures KeysOf(s)[j] != x
      {
        assert EndsIn(s[j].0, 'm');
      }
    }
  }

  lemma ChainSystemCallsOffered(ca: seq<ExternalCall>, cb: seq<ExternalCall>, sa: seq<(string, TaskDriverSystem)>, sb: seq<(string, TaskDriverSystem)>)
    requires SystemCallsOffered(ca, sa) && SystemCallsOffered(cb, sb)
    ensures SystemCallsOffered(ca + cb, sa + sb)
  {
    KeysOfAppend(sa, sb);
    var c := ca + cb;
    forall i | 0 <= i < |c| && c[i].SystemTaskSetMigration?
      ensures c[i].path in KeysOf(sa + sb)
    {
      if i >= |ca| {
        assert c[i] == cb[i - |ca|];
      }
    }
  }

  lemma ChainEntriesIn(da: seq<(string, TaskSetOwnerID)>, db: seq<(string, TaskSetOwnerID)>, l1: map<string, TaskSetOwnerID>, l2: map<string, TaskSetOwnerID>)
    requires EntriesIn(da, l1) && EntriesIn(db, l2) && Extends(l2, l1)
    ensures EntriesIn(da + db, l2)
  {
    var d := da + db;
    forall i | 0 <= i < |d|
      ensures d[i].0 in l2 && l2[d[i].0] == d[i].1
    {
      if i >= |da| {
        assert d[i] == db[i - |da|];
      }
    }
  }

  /** The first offers of `sa + sb`: those in `sa` were taken by the first run, the others by the second. */
  lemma ChainFirstOffers(sa: seq<(string, TaskDriverSystem)>, sb: seq<(string, TaskDriverSystem)>, m: map<string, TaskSetOwnerID>,
                         l1: map<string, TaskSetOwnerID>, l2: map<string, TaskSetOwnerID>, ca: seq<ExternalCall>, cb: seq<ExternalCall>,
                         ka: seq<string>)
    requires FirstOffersEntered(sa, m, l1, ca) && FirstOffersEntered(sb, l1, l2, cb) && Extends(l2, l1)
    requires l1.Keys == m.Keys + Elems(ka) + Elems(KeysOf(sa))
    requires forall x :: x in ka ==> x !in KeysOf(sb)
    ensures FirstOffersEntered(sa + sb, m, l2, ca + cb)
  {
    var s := sa + sb;
    forall k | 0 <= k < |s| && s[k].0 !in m && FirstOccurrence(s, k)
      ensures s[k].0 in l2 && l2[s[k].0] == s[k].1.worldUniqueID && SystemTaskSetMigration(s[k].1, s[k].0) in ca + cb
    {
      if k < |sa| {
        assert s[k] == sa[k];
        assert FirstOccurrence(sa, k) by {
          forall j | 0 <= j < k
            ensures sa[j].0 != sa[k].0
          {
            assert s[j] == sa[j];
          }
        }
      } else {
        var k' := k - |sa|;
        assert s[k] == sb[k'];
        assert FirstOccurrence(sb, k') by {
          forall j | 0 <= j < k'
            ensures sb[j].0 != sb[k'].0
          {
            assert s[|sa| + j] == sb[j];
          }
        }
        assert sb[k'].0 !in l1 by {
          assert KeysOf(sb)[k'] == sb[k'].0;
          forall j | 0 <= j < |sa|
            ensures KeysOf(sa)[j] != sb[k'].0
          {
            assert s[j] == sa[j];
          }
        }
      }
    }
  }

  /** A run that failed on the way to `a` has failed on the way to `a + b` too. */
  lemma FailedMigrationRunExtends(da: seq<(string, TaskSetOwnerID)>, db: seq<(string, TaskSetOwnerID)>,
                                  sa: seq<(string, TaskDriverSystem)>, sb: seq<(string, TaskDriverSystem)>,
                                  m: map<string, TaskSetOwnerID>, l: map<string, TaskSetOwnerID>, calls: seq<ExternalCall>,
                                  o: Outcome<Exception>, checks: bool)
    requires o.Fail? && MigrationEntered(o, l, calls, da, sa, m, checks)
    ensures MigrationEntered(o, l, calls, da + db, sa + sb, m, checks)
  {
    KeysOfAppend(da, db);
    KeysOfAppend(sa, sb);
    DistinctAppend(KeysOf(da), KeysOf(db));
    NoneInAppend(KeysOf(da), KeysOf(db), m);
  }

  lemma {:induction false} ChildMigrationEntriesHaveChildPath(t: DriverTree, k: nat, i: nat, path: string)
    requires i < k <= |t.children|
    ensures MigrationPath(path, t.children[i]) in KeysOf(ChildMigrationEntries(t, k, path))
  {
    var a := ChildMigrationEntries(t, k - 1, path);
    var b := MigrationEntries(t.children[k - 1], path);
    KeysOfAppend(a, b);
    if i < k - 1 {
      ChildMigrationEntriesHaveChildPath(t, k - 1, i, path);
    } else {
      assert KeysOf(b)[0] == MigrationPath(path, t.children[i]);
    }
  }

  lemma {:induction false} ChildMigrationEntriesDistinctPrefix(t: DriverTree, k: nat, n: nat, path: string)
    requires k <= n <= |t.children|
    requires Distinct(KeysOf(ChildMigrationEntries(t, n, path)))
    ensures Distinct(KeysOf(ChildMigrationEntries(t, k, path)))
    decreases n
  {
    if k < n {
      var a := ChildMigrationEntries(t, n - 1, path);
      var b := MigrationEntries(t.children[n - 1], path);
      KeysOfAppend(a, b);
      DistinctAppend(KeysOf(a), KeysOf(b));
      ChildMigrationEntriesDistinctPrefix(t, k, n - 1, path);
    }
  }

  /**
   * Two sub-drivers of one parent with the same type and the same context identifier produce the
   * same migration path, so the walk fails with the duplicate-path error.
   */
  lemma SiblingsWithSameNameCollideOnMigration(t: DriverTree, parentPath: string, m: map<string, TaskSetOwnerID>, checks: bool, i: nat, j: nat)
    requires i < j < |t.children|
    requires t.children[i].typeName == t.children[j].typeName && t.children[i].suffix == t.children[j].suffix
    ensures RunMigration(t, parentPath, m, checks).outcome == Fail(DuplicatePathError(checks))
  {
    RunMigrationSpec(t, parentPath, m, checks);
    var path := MigrationPath(parentPath, t);
    var x := MigrationPath(path, t.children[i]);
    ChildMigrationEntriesHaveChildPath(t, j, i, path);
    var a := ChildMigrationEntries(t, j, path);
    var b := MigrationEntries(t.children[j], path);
    KeysOfAppend(a, b);
    assert KeysOf(b)[0] == x;
    DistinctAppend(KeysOf(a), KeysOf(b));
    assert ChildMigrationEntries(t, j + 1, path) == a + b;
    var cd := ChildMigrationEntries(t, |t.children|, path);
    if Distinct(KeysOf(cd)) {
      ChildMigrationEntriesDistinctPrefix(t, j + 1, |t.children|, path);
    }
    var own := [(path, OwnerIdOrDefault(t))];
    KeysOfAppend(own, cd);
    DistinctAppend(KeysOf(own), KeysOf(cd));
    assert MigrationEntries(t, parentPath) == own + cd;
  }
}
