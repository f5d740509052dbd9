/** ee/api/v1alpha1/phjob_types.go: the PhJob object, as stored and as held in memory. */
module Jobs {
  import opened Prelude
  import opened Escapism

  /** Fresh is the empty string, the phase of a job that no controller has seen. */
  datatype Phase = Fresh | Pending | Preparing | Running | Succeeded | Failed | Cancelled | Unknown

  datatype Reason = NoReason | OverRequeueLimit | OverActivateDeadline | OverQuota | ByUser
                  | PodCreationFailed | PodFailed | PodUnknown | PodPending | PodRunning
                  | PodSucceeded

  /** inFinalPhase */
  predicate Final(p: Phase) {
    p == Succeeded || p == Failed || p == Unknown || p == Cancelled
  }

  datatype Spec = Spec(groupId: Text, groupName: Text, user: Text, instance: Text, cancel: bool,
                       requeueLimit: Option<int>, activeDeadline: Option<int>, ttl: Option<int>)

  /** Times are nanoseconds; `requeued` is an int32. */
  datatype Status = Status(phase: Phase, reason: Reason, podName: Text, startTime: Option<int>,
                           finishTime: Option<int>, requeued: Option<int>)

  const EMPTY_STATUS := Status(Fresh, NoReason, [], None, None, None)

  /** A stored job. The resource version changes with every write. */
  datatype Job = Job(name: Text, created: int, version: int, spec: Spec, status: Status)

  function CreatedAt(j: Job): int {
    j.created
  }

  /** A job in memory, whose status the controllers assign field by field. */
  class PhJob {
    const name: Text
    const created: int
    var version: int
    var spec: Spec
    var status: Status

    constructor (job: Job)
      ensures Value() == job
    {
      name, created, version, spec, status := job.name, job.created, job.version, job.spec, job.status;
    }

    function Value(): Job
      reads this
    {
      Job(name, created, version, spec, status)
    }
  }
}
