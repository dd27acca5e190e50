/**
 * The cancel-request stream of a task set
 * (Scripts/Runtime/Entities/TaskSystem/TaskStream/DataStream/Cancelling/CancelRequestDataStream.cs).
 * Once a frame, the ids written to the pending stream are consolidated into a lookup of the ids
 * that asked to be cancelled this frame, and each is marked as in progress in the cancel flow's
 * progress lookup. The expensive duplicate check is compiled in only under
 * ANVIL_DEBUG_SAFETY_EXPENSIVE: that is the `expensiveChecks` constant.
 */
module CancelRequests {
  import opened Wrappers
  import opened Jobs
  import opened Collections

  /** The id of one proxy instance (an entity's instance in one task set); only its identity matters. */
  datatype EntityProxyInstanceID = EntityProxyInstanceID(value: int)

  /** The value m_Lookup stores for every requested id. */
  const REQUESTED: bv8 := 1

  /** UnsafeTypedStream<EntityProxyInstanceID>: the ids, in the order enumeration yields them. */
  class PendingStream {
    var items: seq<EntityProxyInstanceID>

    constructor ()
      ensures items == []
    {
      items := [];
    }

    method Clear()
      modifies this`items
      ensures items == []
    {
      items := [];
    }
  }

  /** UnsafeParallelHashMap<EntityProxyInstanceID, V>. */
  class ParallelHashMap<V> {
    var entries: map<EntityProxyInstanceID, V>

    constructor ()
      ensures entries == map[]
    {
      entries := map[];
    }

    predicate ContainsKey(k: EntityProxyInstanceID)
      reads this`entries
    {
      k in entries
    }

    method Clear()
      modifies this`entries
      ensures entries == map[]
    {
      entries := map[];
    }

    /** Adds the entry only if the key is absent; an existing entry is never overwritten. */
    method TryAdd(k: EntityProxyInstanceID, v: V) returns (added: bool)
      modifies this`entries
      ensures added <==> k !in old(entries)
      ensures entries == if added then old(entries)[k := v] else old(entries)
    {
      added := k !in entries;
      if added {
        entries := entries[k := v];
      }
    }
  }

  // ---------------------------------------------------------------------------------------------
  // Specification of the consolidation
  // ---------------------------------------------------------------------------------------------

  /** TryAdd of every id, in order, with the same value. */
  function TryAddAll<V>(m: map<EntityProxyInstanceID, V>, ids: seq<EntityProxyInstanceID>, v: V): map<EntityProxyInstanceID, V>
  {
    if ids == [] then m
    else
      var r := TryAddAll(m, ids[..|ids| - 1], v);
      var id := ids[|ids| - 1];
      if id in r then r else r[id := v]
  }

  /**
   * After TryAdd of every id the keys are the old keys and the ids; an entry that was present keeps
   * its value; every entry that was not present holds the added value.
   */
  lemma {:induction false} TryAddAllSpec<V>(m: map<EntityProxyInstanceID, V>, ids: seq<EntityProxyInstanceID>, v: V)
    ensures TryAddAll(m, ids, v).Keys == m.Keys + Elems(ids)
    ensures Extends(TryAddAll(m, ids, v), m)
    ensures forall k :: k in TryAddAll(m, ids, v) && k !in m ==> TryAddAll(m, ids, v)[k] == v
  {
    if ids != [] {
      var init := ids[..|ids| - 1];
      TryAddAllSpec(m, init, v);
      assert ids == init + [ids[|ids| - 1]];
      assert Elems(ids) == Elems(init) + {ids[|ids| - 1]};
    }
  }

  /** The consolidated lookup holds exactly the pending ids, each marked as requested, whatever repeats among them. */
  lemma ConsolidatedLookup(ids: seq<EntityProxyInstanceID>)
    ensures TryAddAll(map[], ids, REQUESTED) == map id | id in Elems(ids) :: REQUESTED
  {
    TryAddAllSpec(map[], ids, REQUESTED);
  }

  /** The index of the first id that repeats an earlier one, if any. */
  function FirstDuplicate(ids: seq<EntityProxyInstanceID>): Option<nat>
  {
    if ids == [] then None
    else
      var init := ids[..|ids| - 1];
      match FirstDuplicate(init)
      case Some(j) => Some(j)
      case None => if ids[|ids| - 1] in init then Some(|ids| - 1) else None
  }

  /**
   * There is a first repeated id exactly when the ids are not distinct; the ids before it are
   * distinct and it repeats one of them.
   */
  lemma {:induction false} FirstDuplicateSpec(ids: seq<EntityProxyInstanceID>)
    ensures FirstDuplicate(ids).None? <==> Distinct(ids)
    ensures FirstDuplicate(ids).Some? ==>
      var j := FirstDuplicate(ids).value; j < |ids| && ids[j] in ids[..j] && Distinct(ids[..j])
  {
    if ids != [] {
      var n := |ids| - 1;
      var init := ids[..n];
      FirstDuplicateSpec(init);
      assert ids == init + [ids[n]];
      DistinctAppend(init, [ids[n]]);
      if FirstDuplicate(init).Some? {
        var j := FirstDuplicate(init).value;
        assert ids[..j] == init[..j];
      } else {
        assert ids[..n] == init;
      }
    }
  }

  /** Extending the ids does not move a repeat already found. */
  lemma {:induction false} FirstDuplicatePrefix(ids: seq<EntityProxyInstanceID>, k: nat)
    requires k <= |ids| && FirstDuplicate(ids[..k]).Some?
    ensures FirstDuplicate(ids) == FirstDuplicate(ids[..k])
    decreases |ids| - k
  {
    if k < |ids| {
      var next := ids[..k + 1];
      assert next[..k] == ids[..k];
      FirstDuplicatePrefix(ids, k + 1);
    } else {
      assert ids[..k] == ids;
    }
  }

  // ---------------------------------------------------------------------------------------------
  // The job and the stream
  // ---------------------------------------------------------------------------------------------

  class ConsolidateCancelRequestsJob {
    const expensiveChecks: bool
    const pending: PendingStream
    const lookup: ParallelHashMap<bv8>
    const progressLookup: ParallelHashMap<bool>

    constructor (expensiveChecks: bool, pending: PendingStream, lookup: ParallelHashMap<bv8>, progressLookup: ParallelHashMap<bool>)
      ensures this.expensiveChecks == expensiveChecks && this.pending == pending
      ensures this.lookup == lookup && this.progressLookup == progressLookup
    {
      this.expensiveChecks := expensiveChecks;
      this.pending := pending;
      this.lookup := lookup;
      this.progressLookup := progressLookup;
    }

    /**
     * Execute: the lookup is cleared and refilled with the pending ids, each id is marked in
     * progress unless the progress lookup already holds it, and the pending stream is emptied.
     * With the expensive checks, an id pending twice throws at its second occurrence: the lookup
     * and the progress lookup then hold what the ids before it put there, and nothing is cleared.
     */
    method Execute() returns (o: Outcome<Exception>)
      requires lookup as object != progressLookup as object
      modifies pending`items, lookup`entries, progressLookup`entries
      ensures o.Fail? <==> expensiveChecks && !Distinct(old(pending.items))
      ensures o.Fail? ==> o.error == InvalidOperation(DuplicateCancelRequest)
      ensures o.Pass? ==> lookup.entries == TryAddAll(map[], old(pending.items), REQUESTED)
      ensures o.Pass? ==> progressLookup.entries == TryAddAll(old(progressLookup.entries), old(pending.items), true)
      ensures o.Pass? ==> pending.items == []
      ensures o.Fail? ==> FirstDuplicate(old(pending.items)).Some?
      ensures o.Fail? ==>
        var j := FirstDuplicate(old(pending.items)).value;
        && j < |old(pending.items)|
        && lookup.entries == TryAddAll(map[], old(pending.items)[..j], REQUESTED)
        && progressLookup.entries == TryAddAll(old(progressLookup.entries), old(pending.items)[..j], true)
        && pending.items == old(pending.items)
    {
      lookup.Clear();
      var ids := pending.items;
      var i := 0;
      while i < |ids|
        invariant 0 <= i <= |ids|
        invariant pending.items == ids
        invariant lookup.entries == TryAddAll(map[], ids[..i], REQUESTED)
        invariant progressLookup.entries == TryAddAll(old(progressLookup.entries), ids[..i], true)
        invariant expensiveChecks ==> FirstDuplicate(ids[..i]).None?
      {
        var id := ids[i];
        assert ids[..i + 1] == ids[..i] + [id];
        // Debug_EnsureNoDuplicates
        if expensiveChecks && lookup.ContainsKey(id) {
          TryAddAllSpec(map[], ids[..i], REQUESTED);
          assert FirstDuplicate(ids[..i + 1]) == Some(i);
          FirstDuplicatePrefix(ids, i + 1);
          FirstDuplicateSpec(ids);
          return Fail(InvalidOperation(DuplicateCancelRequest));
        }
        if expensiveChecks {
          TryAddAllSpec(map[], ids[..i], REQUESTED);
        }
        var _ := lookup.TryAdd(id, REQUESTED);
        var _ := progressLookup.TryAdd(id, true);
        i := i + 1;
      }
      assert ids[..i] == ids;
      FirstDuplicateSpec(ids);
      pending.Clear();
      o := Pass;
    }
  }

  /** AbstractCancelFlow, whose body is not part of this model: its progress lookup and the controller guarding it. */
  class CancelFlow {
    const progressLookup: ParallelHashMap<bool>
    const progressAccess: AccessController

    constructor (progressLookup: ParallelHashMap<bool>, progressAccess: AccessController)
      ensures this.progressLookup == progressLookup && this.progressAccess == progressAccess
    {
      this.progressLookup := progressLookup;
      this.progressAccess := progressAccess;
    }

    method AcquireProgressLookup(access: AccessType) returns (h: JobHandle, lookup: ParallelHashMap<bool>)
      modifies progressAccess`calls
      ensures lookup == progressLookup
      ensures h == Token(progressAccess.id, |old(progressAccess.calls)|)
      ensures progressAccess.calls == old(progressAccess.calls) + [AccessCall.AcquireAsync(access, h)]
    {
      h := progressAccess.AcquireAsync(access);
      lookup := progressLookup;
    }

    method ReleaseProgressLookup(dependsOn: JobHandle)
      modifies progressAccess`calls
      ensures progressAccess.calls == old(progressAccess.calls) + [AccessCall.ReleaseAsync(dependsOn)]
    {
      progressAccess.ReleaseAsync(dependsOn);
    }
  }

  class CancelRequestDataStream {
    const expensiveChecks: bool
    const cancelFlow: CancelFlow
    const accessController: AccessController   // the base data stream's AccessController
    const pending: PendingStream               // the base data stream's Pending
    const lookup: ParallelHashMap<bv8>

    /** The constructor creates an empty lookup. */
    constructor (expensiveChecks: bool, cancelFlow: CancelFlow, accessController: AccessController, pending: PendingStream)
      ensures this.expensiveChecks == expensiveChecks && this.cancelFlow == cancelFlow
      ensures this.accessController == accessController && this.pending == pending
      ensures fresh(lookup) && lookup.entries == map[]
    {
      this.expensiveChecks := expensiveChecks;
      this.cancelFlow := cancelFlow;
      this.accessController := accessController;
      this.pending := pending;
      lookup := new ParallelHashMap();
    }

    /**
     * ConsolidateForFrame: both the stream and the progress lookup are acquired for exclusive write;
     * the consolidation job is scheduled on both handles and on `dependsOn`; both are released with
     * the job's handle, which is returned. The job itself runs later: it is returned, bound to the
     * stream's pending ids, its lookup and the progress lookup.
     */
    method ConsolidateForFrame(dependsOn: JobHandle) returns (r: JobHandle, job: ConsolidateCancelRequestsJob)
      requires accessController != cancelFlow.progressAccess
      modifies accessController`calls, cancelFlow.progressAccess`calls
      ensures fresh(job) && job.expensiveChecks == expensiveChecks
      ensures job.pending == pending && job.lookup == lookup && job.progressLookup == cancelFlow.progressLookup
      ensures exists h1, h2 ::
        && r == Scheduled("ConsolidateCancelRequestsJob", Combined([dependsOn, h1, h2]))
        && accessController.calls == old(accessController.calls) + [AccessCall.AcquireAsync(ExclusiveWrite, h1), AccessCall.ReleaseAsync(r)]
        && cancelFlow.progressAccess.calls == old(cancelFlow.progressAccess.calls) + [AccessCall.AcquireAsync(ExclusiveWrite, h2), AccessCall.ReleaseAsync(r)]
    {
      var h1 := accessController.AcquireAsync(ExclusiveWrite);
      var h2, progressLookup := cancelFlow.AcquireProgressLookup(ExclusiveWrite);
      var handle := Combined([dependsOn, h1, h2]);
      job := new ConsolidateCancelRequestsJob(expensiveChecks, pending, lookup, progressLookup);
      handle := Scheduled("ConsolidateCancelRequestsJob", handle);
      cancelFlow.ReleaseProgressLookup(handle);
      accessController.ReleaseAsync(handle);
      r := handle;
    }
  }
}
