/**
 Durable job rows and the operations on them (runtime/repositories.py), and the worker's
 three-transaction attempt run without interference (runtime/worker.py).

 A row operation is a function from row to row; the methods of JobTable apply them to the
 table in place.  What arbitrary interleavings of these operations keep is in JobRuns.
 */
module Jobs {
  import opened Basics

  datatype Status = Queued | Running | RetryWait | Succeeded | Failed

  /** Job type together with the idempotency key: what create_job looks up. */
  datatype Key =
    | AgentRunKey(run: nat)
    | PublishKey(execution: nat)
    | OtherKey(tag: nat)

  datatype Job = Job(
    key: Key,
    status: Status,
    attempts: nat,
    maxAttempts: nat,
    availableAt: int,
    leaseOwner: Option<nat>,
    leaseExpiresAt: Option<int>,
    completedAt: Option<int>)

  predicate Waiting(j: Job) { j.status.Queued? || j.status.RetryWait? }

  predicate Terminal(j: Job) { j.status.Succeeded? || j.status.Failed? }

  predicate LeaseExpired(j: Job, now: int) {
    j.status.Running? && j.leaseExpiresAt.Some? && j.leaseExpiresAt.value <= now
  }

  /** The filter of claim_job.  The second disjunct does not look at the attempt count. */
  predicate Claimable(j: Job, now: int) {
    (Waiting(j) && j.availableAt <= now) || LeaseExpired(j, now)
  }

  /** What every committed row satisfies. */
  predicate RowOk(j: Job) {
    && j.maxAttempts >= 1
    && (Waiting(j) ==> j.attempts < j.maxAttempts)
    && (j.status.Running? ==> j.attempts >= 1)
    && (j.leaseOwner.Some? <==> j.status.Running?)
    && (j.leaseExpiresAt.Some? <==> j.status.Running?)
    && (j.completedAt.Some? <==> Terminal(j))
  }

  function NewRow(key: Key, maxAttempts: nat, availableAt: int): Job {
    Job(key, Queued, 0, maxAttempts, availableAt, None, None, None)
  }

  function ClaimedRow(j: Job, worker: nat, now: int, lease: int): Job {
    j.(status := Running, attempts := j.attempts + 1, completedAt := None,
       leaseOwner := Some(worker), leaseExpiresAt := Some(now + lease))
  }

  function SucceededRow(j: Job, now: int): Job {
    j.(status := Succeeded, completedAt := Some(now), leaseOwner := None, leaseExpiresAt := None)
  }

  predicate WillRetry(j: Job, retry: bool) { retry && j.attempts < j.maxAttempts }

  function FailedRow(j: Job, retry: bool, now: int, backoff: int): Job {
    var freed := j.(leaseOwner := None, leaseExpiresAt := None);
    if WillRetry(j, retry) then freed.(status := RetryWait, availableAt := now + backoff, completedAt := None)
    else freed.(status := Failed, completedAt := Some(now))
  }

  function RecoveredRow(j: Job, now: int): Job {
    var freed := j.(leaseOwner := None, leaseExpiresAt := None);
    if j.attempts >= j.maxAttempts then freed.(status := Failed, completedAt := Some(now))
    else freed.(status := RetryWait, availableAt := now)
  }

  function RecoveredTable(jobs: map<nat, Job>, now: int): map<nat, Job> {
    map id | id in jobs :: if LeaseExpired(jobs[id], now) then RecoveredRow(jobs[id], now) else jobs[id]
  }

  predicate KeyTaken(jobs: map<nat, Job>, key: Key) {
    exists id :: id in jobs && jobs[id].key == key
  }

  predicate KeysUnique(jobs: map<nat, Job>) {
    forall a, b :: a in jobs && b in jobs && jobs[a].key == jobs[b].key ==> a == b
  }

  predicate RowsOk(jobs: map<nat, Job>) {
    forall id :: id in jobs ==> RowOk(jobs[id])
  }

  // ------------------------------------------------------------ what the row operations mean

  /** Nothing but the named fields differs: key, limit and attempt count are those of before. */
  predicate SameIdentity(a: Job, b: Job) {
    a.key == b.key && a.maxAttempts == b.maxAttempts && a.attempts == b.attempts
  }

  predicate NoLease(j: Job) { j.leaseOwner.None? && j.leaseExpiresAt.None? }

  /** When a worker may take a row: waiting and due, or left RUNNING past its lease, whatever its attempts. */
  lemma ClaimableIff(j: Job, now: int)
    ensures Claimable(j, now) <==>
      || (j.status in {Queued, RetryWait} && j.availableAt <= now)
      || (j.status == Running && exists t :: j.leaseExpiresAt == Some(t) && t <= now)
  {}

  /** A claim starts one more attempt under the worker's lease. */
  lemma ClaimMeans(j: Job, worker: nat, now: int, lease: int)
    ensures
      var c := ClaimedRow(j, worker, now, lease);
      && c.status == Running && c.attempts == j.attempts + 1 && c.completedAt.None?
      && c.leaseOwner == Some(worker) && c.leaseExpiresAt == Some(now + lease)
      && c.key == j.key && c.maxAttempts == j.maxAttempts && c.availableAt == j.availableAt
  {}

  lemma SuccessMeans(j: Job, now: int)
    ensures
      var c := SucceededRow(j, now);
      c.status == Succeeded && c.completedAt == Some(now) && NoLease(c) && SameIdentity(c, j)
  {}

  /** A failure waits for its backoff exactly when a retry is wanted and attempts remain. */
  lemma FailureMeans(j: Job, retry: bool, now: int, backoff: int)
    ensures
      var c := FailedRow(j, retry, now, backoff);
      && NoLease(c) && SameIdentity(c, j)
      && (retry && j.attempts < j.maxAttempts ==>
            c.status == RetryWait && c.availableAt == now + backoff && c.completedAt.None?)
      && (!retry || j.attempts >= j.maxAttempts ==> c.status == Failed && c.completedAt == Some(now))
  {}

  /** The table after a recovery pass, row by row: an expired RUNNING row with attempts left waits and is due
      at once, one without fails for good, and every other row is as it was. */
  predicate Recovered(before: map<nat, Job>, after: map<nat, Job>, now: int) {
    && after.Keys == before.Keys
    && forall id :: id in before ==>
         var j, c := before[id], after[id];
         if j.status == Running && j.leaseExpiresAt.Some? && j.leaseExpiresAt.value <= now then
           && NoLease(c) && SameIdentity(c, j)
           && (j.attempts < j.maxAttempts <==> c.status == RetryWait)
           && (j.attempts < j.maxAttempts ==> c.availableAt == now && c.completedAt == j.completedAt)
           && (j.attempts >= j.maxAttempts ==> c.status == Failed && c.completedAt == Some(now))
         else c == j
  }

  /** The table the repository functions update. */
  class JobTable {
    var jobs: map<nat, Job>

    constructor ()
      ensures jobs == map[]
    {
      jobs := map[];
    }

    /** A fresh id stands for new_id; the job type and payload checks come in as booleans. */
    method CreateJob(id: nat, registered: bool, schemaVersion: int, hasSecrets: bool, key: Key,
                     maxAttempts: int, availableAt: Option<int>, now: int) returns (r: Result<nat>)
      requires id !in jobs
      modifies this
      ensures r.Err? <==> !registered || schemaVersion < 1 || maxAttempts < 1 || hasSecrets
      ensures r.Err? ==> jobs == old(jobs)
      ensures r.Err? ==>
        r.error == if !registered then UnknownJobType
                   else if schemaVersion < 1 then BadSchemaVersion
                   else if maxAttempts < 1 then BadMaxAttempts
                   else SecretRejected
      ensures r.Ok? ==> r.value in jobs && jobs[r.value].key == key
      ensures r.Ok? && KeyTaken(old(jobs), key) ==> jobs == old(jobs)
      ensures r.Ok? && !KeyTaken(old(jobs), key) ==>
        && r.value == id && maxAttempts >= 1 && jobs == old(jobs)[id := jobs[id]]
        && var due := if availableAt.Some? then availableAt.value else now;
           jobs[id] == Job(key, Queued, 0, maxAttempts, due, None, None, None)
      ensures old(RowsOk(jobs) && KeysUnique(jobs)) ==> RowsOk(jobs) && KeysUnique(jobs)
    {
      if !registered { return Err(UnknownJobType); }
      if schemaVersion < 1 { return Err(BadSchemaVersion); }
      if maxAttempts < 1 { return Err(BadMaxAttempts); }
      if hasSecrets { return Err(SecretRejected); }
      if k :| k in jobs && jobs[k].key == key {
        return Ok(k);
      }
      jobs := jobs[id := NewRow(key, maxAttempts, if availableAt.Some? then availableAt.value else now)];
      return Ok(id);
    }

    method ClaimJob(id: nat, worker: nat, now: int, lease: int) returns (claimed: bool)
      modifies this
      ensures claimed <==> id in old(jobs) && Claimable(old(jobs)[id], now)
      ensures claimed ==> jobs == old(jobs)[id := ClaimedRow(old(jobs)[id], worker, now, lease)]
      ensures !claimed ==> jobs == old(jobs)
      ensures old(RowsOk(jobs)) ==> RowsOk(jobs)
    {
      claimed := id in jobs && Claimable(jobs[id], now);
      if claimed {
        jobs := jobs[id := ClaimedRow(jobs[id], worker, now, lease)];
      }
    }

    method MarkSucceeded(id: nat, now: int)
      requires id in jobs
      modifies this
      ensures jobs == old(jobs)[id := SucceededRow(old(jobs)[id], now)]
      ensures old(RowsOk(jobs)) ==> RowsOk(jobs)
    {
      jobs := jobs[id := SucceededRow(jobs[id], now)];
    }

    method MarkFailedOrRetrying(id: nat, retry: bool, now: int, backoff: int) returns (r: Result<Status>)
      modifies this
      ensures r.Ok? <==> id in old(jobs)
      ensures r.Err? ==> jobs == old(jobs)
      ensures r.Ok? ==> jobs == old(jobs)[id := FailedRow(old(jobs)[id], retry, now, backoff)]
                        && r.value == (if WillRetry(old(jobs)[id], retry) then RetryWait else Failed)
      ensures old(RowsOk(jobs)) ==> RowsOk(jobs)
    {
      if id !in jobs { return Err(NotFound); }
      jobs := jobs[id := FailedRow(jobs[id], retry, now, backoff)];
      return Ok(jobs[id].status);
    }

    /** One pass over the rows found expired at the start; returns how many there were. */
    method RecoverExpiredLeases(now: int) returns (count: nat)
      modifies this
      ensures jobs == RecoveredTable(old(jobs), now)
      ensures Recovered(old(jobs), jobs, now)
      ensures count == |set id | id in old(jobs) && LeaseExpired(old(jobs)[id], now)|
      ensures old(RowsOk(jobs)) ==> RowsOk(jobs)
      ensures forall id :: id in jobs ==> !LeaseExpired(jobs[id], now)
    {
      var expired := set id | id in jobs && LeaseExpired(jobs[id], now);
      var todo := expired;
      while todo != {}
        invariant todo <= expired
        invariant jobs.Keys == old(jobs).Keys
        invariant forall id :: id in jobs ==>
          jobs[id] == if id in expired - todo then RecoveredRow(old(jobs)[id], now) else old(jobs)[id]
        decreases todo
      {
        var id :| id in todo;
        jobs := jobs[id := RecoveredRow(jobs[id], now)];
        todo := todo - {id};
      }
      ghost var goal := RecoveredTable(old(jobs), now);
      assert jobs.Keys == goal.Keys;
      assert forall id :: id in jobs ==> jobs[id] == goal[id];
      count := |expired|;
    }
  }

  datatype HandlerOutcome = Completes | RaisesTransient | RaisesPermanent

  datatype AttemptResult = AttemptResult(claimed: bool, status: Option<Status>)

  /** One worker; the handler's outcome and the clock readings are parameters. */
  class Worker {
    const id: nat
    const lease: int
    const backoff: int

    constructor (id: nat, lease: int, backoff: int)
      ensures this.id == id && this.lease == lease && this.backoff == backoff
    {
      this.id, this.lease, this.backoff := id, lease, backoff;
    }

    /** claim, attempt, and on an error the failure record, with nobody else acting in between. */
    method ProcessJobId(table: JobTable, jobId: nat, outcome: HandlerOutcome, claimAt: int, endAt: int)
        returns (r: AttemptResult)
      requires RowsOk(table.jobs)
      modifies table
      ensures RowsOk(table.jobs) && table.jobs.Keys == old(table.jobs.Keys)
      ensures forall k :: k in table.jobs && k != jobId ==> table.jobs[k] == old(table.jobs)[k]
      ensures !r.claimed <==> jobId !in old(table.jobs) || !Claimable(old(table.jobs)[jobId], claimAt)
      ensures !r.claimed ==> table.jobs == old(table.jobs)
      ensures r.claimed ==>
        var before, after := old(table.jobs)[jobId], table.jobs[jobId];
        && r.status == Some(after.status)
        && after.attempts == before.attempts + 1
        && (after.status.Succeeded? <==> outcome.Completes?)
        && (after.status.RetryWait? <==> outcome.RaisesTransient? && before.attempts + 1 < before.maxAttempts)
        && (after.status.RetryWait? ==> after.availableAt == endAt + backoff)
        && (Terminal(after) || after.status.RetryWait?)
        && (Terminal(after) ==> after.completedAt == Some(endAt))
    {
      var claimed := table.ClaimJob(jobId, id, claimAt, lease);
      if !claimed { return AttemptResult(false, None); }
      if outcome.Completes? {
        table.MarkSucceeded(jobId, endAt);
        return AttemptResult(true, Some(Succeeded));
      }
      var marked := table.MarkFailedOrRetrying(jobId, outcome.RaisesTransient?, endAt, backoff);
      return AttemptResult(true, Some(marked.value));
    }
  }
}
