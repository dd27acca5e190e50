/**
 * Job handles and access controllers, as the configuration layer sees them. A JobHandle is an opaque
 * completion token; it is modelled as the term that records how it was made, so that contracts can
 * say which handle a job depends on. An access controller is modelled by the calls made on it:
 * nothing here waits or blocks.
 */
module Jobs {

  /** The access modes the scheduler asks of a shared resource. */
  datatype AccessType = SharedRead | SharedWrite | ExclusiveWrite

  datatype JobHandle =
    | Token(source: nat, index: nat)             // a handle issued by an access controller
    | Combined(parts: seq<JobHandle>)            // JobHandle.CombineDependencies
    | Scheduled(job: string, dependsOn: JobHandle)  // a job (or a bulk of jobs) scheduled after dependsOn

  datatype AccessCall =
    | AcquireAsync(access: AccessType, issued: JobHandle)
    | ReleaseAsync(dependsOn: JobHandle)
    | Acquire(access: AccessType)
    | Release

  /** The calls made on one access controller, in order. */
  class AccessController {
    const id: nat
    var calls: seq<AccessCall>

    constructor (id: nat)
      ensures this.id == id && calls == []
    {
      this.id := id;
      calls := [];
    }

    method AcquireAsync(access: AccessType) returns (h: JobHandle)
      modifies this`calls
      ensures h == Token(id, |old(calls)|)
      ensures calls == old(calls) + [AccessCall.AcquireAsync(access, h)]
    {
      h := Token(id, |calls|);
      calls := calls + [AccessCall.AcquireAsync(access, h)];
    }

    method ReleaseAsync(dependsOn: JobHandle)
      modifies this`calls
      ensures calls == old(calls) + [AccessCall.ReleaseAsync(dependsOn)]
    {
      calls := calls + [AccessCall.ReleaseAsync(dependsOn)];
    }

    method Acquire(access: AccessType)
      modifies this`calls
      ensures calls == old(calls) + [AccessCall.Acquire(access)]
    {
      calls := calls + [AccessCall.Acquire(access)];
    }

    method Release()
      modifies this`calls
      ensures calls == old(calls) + [AccessCall.Release]
    {
      calls := calls + [AccessCall.Release];
    }
  }
}
