/**
 * A task driver and its sub-drivers (Scripts/Runtime/Entities/TaskDriver/AbstractTaskDriver.cs).
 * The sub-drivers are held in a list the driver owns; the three hardening-time walks (Harden,
 * GenerateWorldUniqueID, AddToMigrationLookup) visit the driver, then its sub-drivers in list order.
 * Each walk is proved to do what the value-level function of the same name in TaskDriverSpecs says,
 * over the tree's Snapshot(). The debug checks compiled in under ENABLE_UNITY_COLLECTIONS_CHECKS are
 * the `checks` parameter.
 */
module TaskDrivers {
  import opened Wrappers
  import opened Ids
  import opened TaskDriverSystems
  import opened TaskDriverSpecs
  import opened Collections

  class TaskDriver {
    const typeName: string
    const uniqueContextIdentifier: string
    const system: TaskDriverSystem
    const explicitCancellationCount: nat
    var parent: TaskDriver?
    var subTaskDrivers: seq<TaskDriver>
    var worldUniqueID: Option<TaskSetOwnerID>
    var isHardened: bool
    var hasCancellableData: bool
    ghost var Repr: set<TaskDriver>

    /** The sub-drivers form a tree: each is owned by this driver alone and names it as its parent. */
    ghost predicate Valid()
      reads this`Repr, Repr`Repr, Repr`subTaskDrivers, Repr`parent
      decreases Repr
    {
      && this in Repr
      && (forall i :: 0 <= i < |subTaskDrivers| ==>
            && subTaskDrivers[i] in Repr
            && subTaskDrivers[i].Repr <= Repr
            && this !in subTaskDrivers[i].Repr
            && subTaskDrivers[i].parent == this
            && subTaskDrivers[i].Valid())
      && (forall i, j :: 0 <= i < j < |subTaskDrivers| ==> subTaskDrivers[i].Repr !! subTaskDrivers[j].Repr)
    }

    /** The driver and its sub-drivers as a value. */
    ghost function Snapshot(): DriverTree
      requires Valid()
      reads this`Repr, Repr`Repr, Repr`subTaskDrivers, Repr`parent, Repr`worldUniqueID, Repr`isHardened, Repr`hasCancellableData
      decreases Repr, 1
    {
      Node(this, typeName, uniqueContextIdentifier, explicitCancellationCount, system, worldUniqueID,
           isHardened, hasCancellableData, ChildSnapshots(|subTaskDrivers|))
    }

    ghost function ChildSnapshots(k: nat): (r: seq<DriverTree>)
      requires Valid() && k <= |subTaskDrivers|
      reads this`Repr, Repr`Repr, Repr`subTaskDrivers, Repr`parent, Repr`worldUniqueID, Repr`isHardened, Repr`hasCancellableData
      ensures |r| == k
      ensures forall i :: 0 <= i < k ==> r[i] == subTaskDrivers[i].Snapshot()
      decreases Repr, 0, k
    {
      if k == 0 then [] else ChildSnapshots(k - 1) + [subTaskDrivers[k - 1].Snapshot()]
    }

    /** A driver none of whose objects changed has the same snapshot. */
    static twostate lemma SnapshotFrame(d: TaskDriver)
      requires old(d.Valid())
      requires unchanged(old(d.Repr))
      ensures d.Valid() && d.Snapshot() == old(d.Snapshot())
    {
    }

    /** Only the driver's own fields changed (not its tree shape): its sub-drivers' snapshots are as they were. */
    static twostate lemma OwnFieldsFrame(p: TaskDriver)
      requires old(p.Valid())
      requires unchanged(p`Repr, p`subTaskDrivers, p`parent)
      requires forall o :: o in old(p.Repr) && o != p ==> unchanged(o)
      ensures p.Valid()
      ensures p.ChildSnapshots(|p.subTaskDrivers|) == old(p.ChildSnapshots(|p.subTaskDrivers|))
    {
      forall j | 0 <= j < |p.subTaskDrivers|
        ensures p.subTaskDrivers[j].Snapshot() == old(p.subTaskDrivers[j].Snapshot())
      {
        SnapshotFrame(p.subTaskDrivers[j]);
      }
    }

    /**
     * Only the objects of the i-th sub-driver changed, and not in their tree shape: the driver is
     * still valid and only the i-th snapshot among its sub-drivers' changed.
     */
    static twostate lemma SubTaskDriverFrame(p: TaskDriver, new i: nat)
      requires old(p.Valid()) && i < |old(p.subTaskDrivers)|
      requires forall o :: o in old(p.Repr) ==> unchanged(o`Repr, o`subTaskDrivers, o`parent)
      requires forall o :: o in old(p.Repr) && o !in old(p.subTaskDrivers[i].Repr) ==> unchanged(o)
      ensures p.Valid()
      ensures p.ChildSnapshots(|p.subTaskDrivers|) == old(p.ChildSnapshots(|p.subTaskDrivers|))[i := p.subTaskDrivers[i].Snapshot()]
    {
      forall j | 0 <= j < |p.subTaskDrivers| && j != i
        ensures p.subTaskDrivers[j].Snapshot() == old(p.subTaskDrivers[j].Snapshot())
      {
        SnapshotFrame(p.subTaskDrivers[j]);
      }
    }

    /** A tree that agrees with the driver on every field and on its sub-drivers' snapshots is its snapshot. */
    lemma SnapshotIs(t: DriverTree)
      requires Valid()
      requires t.driver == this && t.typeName == typeName && t.suffix == uniqueContextIdentifier
      requires t.explicitCancellationCount == explicitCancellationCount && t.system == system
      requires t.id == worldUniqueID && t.isHardened == isHardened && t.hasCancellableData == hasCancellableData
      requires t.children == ChildSnapshots(|subTaskDrivers|)
      ensures Snapshot() == t
    {
    }

    /** Whether any sub-driver has cancellable data. */
    predicate AnySubTaskDriverCancellable()
      reads this`subTaskDrivers, subTaskDrivers
    {
      exists j :: 0 <= j < |subTaskDrivers| && subTaskDrivers[j].hasCancellableData
    }

    /** The Any over the sub-drivers' flags is AnyFlagged of their snapshots. */
    lemma SubTaskDriverFlags()
      requires Valid()
      ensures AnySubTaskDriverCancellable() <==> AnyFlagged(ChildSnapshots(|subTaskDrivers|))
    {
      var cs := ChildSnapshots(|subTaskDrivers|);
      AnyFlaggedIff(cs);
      assert forall j :: 0 <= j < |subTaskDrivers| ==> subTaskDrivers[j].hasCancellableData == cs[j].hasCancellableData;
    }

    /** A null context identifier is stored as the empty string; a new driver has no parent and no sub-drivers. */
    constructor (typeName: string, uniqueContextIdentifier: Option<string>, system: TaskDriverSystem, explicitCancellationCount: nat)
      ensures this.typeName == typeName && this.system == system && this.explicitCancellationCount == explicitCancellationCount
      ensures this.uniqueContextIdentifier == (if uniqueContextIdentifier.Some? then uniqueContextIdentifier.value else "")
      ensures parent == null && subTaskDrivers == [] && worldUniqueID == None && !isHardened && !hasCancellableData
      ensures Valid() && Repr == {this}
    {
      this.typeName := typeName;
      this.uniqueContextIdentifier := if uniqueContextIdentifier.Some? then uniqueContextIdentifier.value else "";
      this.system := system;
      this.explicitCancellationCount := explicitCancellationCount;
      parent := null;
      subTaskDrivers := [];
      worldUniqueID := None;
      isHardened := false;
      hasCancellableData := false;
      Repr := {this};
    }

    /**
     * AddSubTaskDriver: the sub-driver, which must not have a parent yet, is given this driver as
     * its parent and appended to the sub-driver list; it is returned for chaining.
     */
    method AddSubTaskDriver(subTaskDriver: TaskDriver) returns (r: TaskDriver)
      requires Valid() && subTaskDriver.Valid()
      requires subTaskDriver.parent == null
      requires subTaskDriver.Repr !! Repr
      modifies this`subTaskDrivers, this`Repr, subTaskDriver`parent
      ensures r == subTaskDriver && subTaskDriver.parent == this
      ensures subTaskDrivers == old(subTaskDrivers) + [subTaskDriver]
      ensures Repr == old(Repr) + subTaskDriver.Repr
      ensures Valid()
    {
      subTaskDriver.parent := this;
      subTaskDrivers := subTaskDrivers + [subTaskDriver];
      Repr := Repr + subTaskDriver.Repr;
      r := subTaskDriver;
    }

    /** The WorldUniqueID getter: only read after the id has been generated. */
    function WorldUniqueID(): (r: TaskSetOwnerID)
      requires worldUniqueID.Some?
      reads this`worldUniqueID
      ensures worldUniqueID == Some(r)
    {
      worldUniqueID.value
    }

    /** The HasCancellableData getter: reading it before hardening fails the debug check. */
    function HasCancellableData(checks: bool): (r: Result<bool, Exception>)
      reads this`isHardened, this`hasCancellableData
      ensures r.Failure? <==> checks && !isHardened
      ensures r.Failure? ==> r.error == InvalidOperation(NotHardened)
      ensures r.Success? ==> r.value == hasCancellableData
    {
      if checks && !isHardened then Failure(InvalidOperation(NotHardened)) else Success(hasCancellableData)
    }

    /**
     * Harden: rejected when any driver of the tree was already hardened (with the checks compiled
     * in); otherwise every driver is hardened depth-first, each sub-driver before the driver's system
     * and own task set, and each flag becomes the bottom-up OR of cancellable data.
     */
    method Harden(checks: bool) returns (o: Outcome<Exception>, calls: seq<ExternalCall>)
      requires Valid()
      modifies Repr`isHardened, Repr`hasCancellableData
      ensures Valid()
      ensures RunHarden(old(Snapshot()), checks) == HardenRun(o, Snapshot(), calls)
      decreases Repr, 2
    {
      ghost var t := Snapshot();
      if checks && isHardened {
        o, calls := Fail(InvalidOperation(AlreadyHardened)), [];
        return;
      }
      label Start:
      isHardened := true;
      assert worldUniqueID == t.id;
      OwnFieldsFrame@Start(this);
      o, calls := HardenSubTaskDrivers(checks, t);
      assert worldUniqueID == t.id;
      ghost var children := ChildSnapshots(|subTaskDrivers|);
      if o.Fail? {
        SnapshotIs(t.(isHardened := true, children := children));
        return;
      }
      calls := calls + [HardenSystem(system), HardenTaskSet(this)];
      SubTaskDriverFlags();
      ghost var tt := t.(isHardened := true, hasCancellableData := OwnCancellable(t) || AnyFlagged(children), children := children);
      var cancellable := explicitCancellationCount > 0 || system.hasCancellableData || AnySubTaskDriverCancellable();
      assert cancellable == tt.hasCancellableData;
      label Children:
      hasCancellableData := cancellable;
      assert worldUniqueID == t.id;
      OwnFieldsFrame@Children(this);
      SnapshotIs(tt);
    }

    /** The foreach over the sub-drivers in Harden, stopping at the first that fails. */
    method HardenSubTaskDrivers(checks: bool, ghost t: DriverTree) returns (o: Outcome<Exception>, calls: seq<ExternalCall>)
      requires Valid() && ChildSnapshots(|subTaskDrivers|) == t.children
      modifies (Repr - {this})`isHardened, (Repr - {this})`hasCancellableData
      ensures Valid()
      ensures RunHardenChildren(t, |t.children|, checks) == HardenChildrenRun(o, ChildSnapshots(|subTaskDrivers|), calls)
      decreases Repr, 1
    {
      o, calls := Pass, [];
      ghost var n := |t.children|;
      var i := 0;
      while i < |subTaskDrivers| && o.Pass?
        invariant 0 <= i <= |subTaskDrivers|
        invariant Valid()
        invariant RunHardenChildren(t, i, checks) == HardenChildrenRun(o, ChildSnapshots(|subTaskDrivers|), calls)
      {
        var cc;
        o, cc := HardenSubTaskDriver(i, checks, t, calls);
        calls := calls + cc;
        i := i + 1;
      }
      assert n == |subTaskDrivers|;
      if o.Fail? {
        RunHardenChildrenFailureStable(t, i, n, checks);
      }
      assert RunHardenChildren(t, n, checks) == HardenChildrenRun(o, ChildSnapshots(|subTaskDrivers|), calls);
    }

    /** One iteration of that foreach: the i-th sub-driver is hardened. */
    method HardenSubTaskDriver(i: nat, checks: bool, ghost t: DriverTree, ghost calls: seq<ExternalCall>)
      returns (oc: Outcome<Exception>, cc: seq<ExternalCall>)
      requires Valid() && i < |subTaskDrivers| && |t.children| == |subTaskDrivers|
      requires RunHardenChildren(t, i, checks) == HardenChildrenRun(Pass, ChildSnapshots(|subTaskDrivers|), calls)
      modifies (Repr - {this})`isHardened, (Repr - {this})`hasCancellableData
      ensures Valid()
      ensures RunHardenChildren(t, i + 1, checks) == HardenChildrenRun(oc, ChildSnapshots(|subTaskDrivers|), calls + cc)
      decreases Repr, 0
    {
      ghost var done := ChildSnapshots(|subTaskDrivers|);
      label BeforeHarden:
      oc, cc := subTaskDrivers[i].Harden(checks);
      SubTaskDriverFrame@BeforeHarden(this, i);
      RunHardenChildrenStep(t, i, checks, done, calls, HardenRun(oc, subTaskDrivers[i].Snapshot(), cc));
    }

    /**
     * GenerateWorldUniqueID: the id is the hash of the parent's id as text (empty at top level), "/",
     * the type name and the context identifier; it is added to the owner lookup, which fails on a
     * present id; then the sub-drivers run in order and last the system. `hash` stands for
     * GetBurstHashCode32, `toStr` for the id's ToString and `systemIds` for the system's own
     * GenerateWorldUniqueID, which is not part of this model.
     */
    method GenerateWorldUniqueID(lookup: map<TaskSetOwnerID, DriverRef>, hash: string -> int, toStr: TaskSetOwnerID -> string,
                                 systemIds: SystemIdStep)
      returns (o: Outcome<Exception>, newLookup: map<TaskSetOwnerID, DriverRef>, calls: seq<ExternalCall>)
      requires Valid()
      requires parent != null ==> parent.worldUniqueID.Some?
      modifies Repr`worldUniqueID
      ensures Valid()
      ensures var r := RunIds(old(Snapshot()), old(if parent == null then "" else toStr(parent.worldUniqueID.value)), lookup, hash, toStr, systemIds);
        o == r.outcome && newLookup == r.lookup && calls == r.calls && Snapshot() == r.tree
      ensures (forall s, l :: Extends(systemIds(s, l).lookup, l)) ==>
        var e := IdEntries(old(Snapshot()), old(if parent == null then "" else toStr(parent.worldUniqueID.value)), hash, toStr);
        && Extends(newLookup, lookup)
        && (o.Pass? ==> Distinct(KeysOf(e)) && NoneIn(KeysOf(e), lookup) && EntriesIn(e, newLookup))
      decreases Repr, 2
    {
      ghost var t := Snapshot();
      var parentPart := if parent == null then "" else toStr(parent.worldUniqueID.value);
      if forall s, l :: Extends(systemIds(s, l).lookup, l) {
        RunIdsSpec(t, parentPart, lookup, hash, toStr, systemIds, false, false, {});
      }
      var newId := TaskSetOwnerID(hash(parentPart + "/" + typeName + uniqueContextIdentifier));
      label Unassigned:
      worldUniqueID := Some(newId);
      OwnFieldsFrame@Unassigned(this);
      if newId in lookup {
        o, newLookup, calls := Fail(DuplicateKey), lookup, [];
        return;
      }
      o, newLookup, calls := GenerateSubTaskDriverIds(lookup[newId := this], hash, toStr, systemIds, t);
      if o.Pass? {
        var s := systemIds(system, newLookup);
        o, newLookup := s.outcome, s.lookup;
        calls := calls + [GenerateSystemID(system)];
      }
    }

    /** The foreach over the sub-drivers in GenerateWorldUniqueID, each taking this driver's id as its parent part. */
    method GenerateSubTaskDriverIds(lookup: map<TaskSetOwnerID, DriverRef>, hash: string -> int, toStr: TaskSetOwnerID -> string,
                                    systemIds: SystemIdStep, ghost t: DriverTree)
      returns (o: Outcome<Exception>, newLookup: map<TaskSetOwnerID, DriverRef>, calls: seq<ExternalCall>)
      requires Valid() && worldUniqueID.Some? && ChildSnapshots(|subTaskDrivers|) == t.children
      modifies (Repr - {this})`worldUniqueID
      ensures Valid()
      ensures RunChildIds(t, |t.children|, toStr(worldUniqueID.value), lookup, hash, toStr, systemIds)
        == IdChildrenRun(o, ChildSnapshots(|subTaskDrivers|), newLookup, calls)
      decreases Repr, 1
    {
      ghost var part := toStr(worldUniqueID.value);
      o, newLookup, calls := Pass, lookup, [];
      ghost var n := |t.children|;
      var i := 0;
      while i < |subTaskDrivers| && o.Pass?
        invariant 0 <= i <= |subTaskDrivers|
        invariant Valid()
        invariant RunChildIds(t, i, part, lookup, hash, toStr, systemIds) == IdChildrenRun(o, ChildSnapshots(|subTaskDrivers|), newLookup, calls)
      {
        var cc;
        o, newLookup, cc := GenerateSubTaskDriverId(i, newLookup, hash, toStr, systemIds, t, part, lookup, calls);
        calls := calls + cc;
        i := i + 1;
      }
      assert n == |subTaskDrivers|;
      if o.Fail? {
        RunChildIdsFailureStable(t, i, n, part, lookup, hash, toStr, systemIds);
      }
      assert RunChildIds(t, n, part, lookup, hash, toStr, systemIds) == IdChildrenRun(o, ChildSnapshots(|subTaskDrivers|), newLookup, calls);
    }

    /** One iteration of that foreach: the i-th sub-driver generates its ids into the lookup built so far. */
    method GenerateSubTaskDriverId(i: nat, current: map<TaskSetOwnerID, DriverRef>, hash: string -> int, toStr: TaskSetOwnerID -> string, systemIds: SystemIdStep,
                                   ghost t: DriverTree, ghost part: string, ghost lookup: map<TaskSetOwnerID, DriverRef>, ghost calls: seq<ExternalCall>)
      returns (oc: Outcome<Exception>, lc: map<TaskSetOwnerID, DriverRef>, cc: seq<ExternalCall>)
      requires Valid() && worldUniqueID.Some? && part == toStr(worldUniqueID.value)
      requires i < |subTaskDrivers| && |t.children| == |subTaskDrivers|
      requires RunChildIds(t, i, part, lookup, hash, toStr, systemIds) == IdChildrenRun(Pass, ChildSnapshots(|subTaskDrivers|), current, calls)
      modifies (Repr - {this})`worldUniqueID
      ensures Valid()
      ensures RunChildIds(t, i + 1, part, lookup, hash, toStr, systemIds) == IdChildrenRun(oc, ChildSnapshots(|subTaskDrivers|), lc, calls + cc)
      decreases Repr, 0
    {
      ghost var done := ChildSnapshots(|subTaskDrivers|);
      label BeforeIds:
      oc, lc, cc := subTaskDrivers[i].GenerateWorldUniqueID(current, hash, toStr, systemIds);
      SubTaskDriverFrame@BeforeIds(this, i);
      RunChildIdsStep(t, i, part, lookup, hash, toStr, systemIds, done, current, calls, IdRun(oc, subTaskDrivers[i].Snapshot(), lc, cc));
    }

    method AddToMigrationLookup(parentPath: string, lookup: map<string, TaskSetOwnerID>, checks: bool)
      returns (o: Outcome<Exception>, newLookup: map<string, TaskSetOwnerID>, calls: seq<ExternalCall>)
      requires Valid()
      ensures RunMigration(Snapshot(), parentPath, lookup, checks) == MigrationRun(o, newLookup, calls)
      ensures MigrationEntered(o, newLookup, calls, MigrationEntries(Snapshot(), parentPath), SystemEntries(Snapshot()), lookup, checks)
      decreases Repr, 2
    {
      RunMigrationSpec(Snapshot(), parentPath, lookup, checks);
      var path := parentPath + typeName + uniqueContextIdentifier + "-";
      if checks && path in lookup {
        o, newLookup, calls := Fail(InvalidOperation(DuplicateMigrationPath)), lookup, [];
        return;
      }
      if path in lookup {
        o, newLookup, calls := Fail(DuplicateKey), lookup, [];
        return;
      }
      newLookup := lookup[path := if worldUniqueID.Some? then worldUniqueID.value else DEFAULT_OWNER_ID];
      calls := [TaskSetMigration(this, path)];
      var systemPath := typeName + "-System";
      if systemPath !in newLookup {
        newLookup := newLookup[systemPath := system.worldUniqueID];
        calls := calls + [SystemTaskSetMigration(system, systemPath)];
      }
      var cc;
      o, newLookup, cc := AddSubTaskDriversToMigrationLookup(path, newLookup, checks);
      calls := calls + cc;
    }

    method AddSubTaskDriversToMigrationLookup(path: string, lookup: map<string, TaskSetOwnerID>, checks: bool)
      returns (o: Outcome<Exception>, newLookup: map<string, TaskSetOwnerID>, calls: seq<ExternalCall>)
      requires Valid()
      ensures RunChildMigration(Snapshot(), |subTaskDrivers|, path, lookup, checks) == MigrationRun(o, newLookup, calls)
      decreases Repr, 1
    {
      ghost var t := Snapshot();
      ghost var n := |t.children|;
      o, newLookup, calls := Pass, lookup, [];
      var i := 0;
      while i < |subTaskDrivers| && o.Pass?
        invariant 0 <= i <= |subTaskDrivers|
        invariant Valid() && ChildSnapshots(|subTaskDrivers|) == t.children
        invariant RunChildMigration(t, i, path, lookup, checks) == MigrationRun(o, newLookup, calls)
      {
        var cc;
        o, newLookup, cc := AddSubTaskDriverToMigrationLookup(i, path, newLookup, checks, t, lookup, calls);
        calls := calls + cc;
        i := i + 1;
      }
      assert n == |subTaskDrivers|;
      if o.Fail? {
        RunChildMigrationFailureStable(t, i, n, path, lookup, checks);
      }
      assert RunChildMigration(t, n, path, lookup, checks) == MigrationRun(o, newLookup, calls);
    }

    /** One iteration of that foreach: the i-th sub-driver adds its paths to the lookup built so far. */
    method AddSubTaskDriverToMigrationLookup(i: nat, path: string, current: map<string, TaskSetOwnerID>, checks: bool,
                                             ghost t: DriverTree, ghost lookup: map<string, TaskSetOwnerID>, ghost calls: seq<ExternalCall>)
      returns (oc: Outcome<Exception>, lc: map<string, TaskSetOwnerID>, cc: seq<ExternalCall>)
      requires Valid() && i < |subTaskDrivers| && ChildSnapshots(|subTaskDrivers|) == t.children
      requires RunChildMigration(t, i, path, lookup, checks) == MigrationRun(Pass, current, calls)
      ensures Valid() && ChildSnapshots(|subTaskDrivers|) == t.children
      ensures RunChildMigration(t, i + 1, path, lookup, checks) == MigrationRun(oc, lc, calls + cc)
      decreases Repr, 0
    {
      oc, lc, cc := subTaskDrivers[i].AddToMigrationLookup(path, current, checks);
      RunChildMigrationStep(t, i, path, lookup, checks, current, calls, MigrationRun(oc, lc, cc));
    }
  }
}
