/**
  What admission promises: a job enters only against the current finalized
  state, a retried request never makes a second job, and the command pool holds
  a replayed command exactly while its outcome is open.
 */
module Admission {
  import opened Common
  import opened Gateway
  import opened Runs
  import opened Quiet
  import opened Ownership
  import opened Custody
  import Ledger

  // ---------- the state a job is admitted against ----------

  /** The job's own binding is the outer account as it stands. */
  predicate BoundToAccount(s: Store, j: Job) {
    j.input.binding.Some? && OuterAccount(s).Some? &&
    match j.kind
    case Settlement => AccountMatches(OuterAccount(s).value, j.input.binding.value)
    case Bridge => HeadAction(OuterAccount(s).value, j.input.binding.value.action)
  }

  /** A settlement comes with the current, unexpired token of a reservation of this checkpoint. */
  predicate UnderReservation(s: Store, j: Job) {
    j.kind.Settlement? ==>
      && j.input.token.Some? && Matches(s.writer, j.input.token.value) && s.writer.job.None?
      && s.writer.expires.Some? && s.now < s.writer.expires.value && s.writer.checkpoint == j.input.binding
  }

  lemma AttachChecks(s: Store, id: JobId, kind: Kind, input: Input, uuid: nat, j: Job)
    requires Attach(s, id, kind, input, uuid).Success? && j.kind == kind && j.input == input
    ensures BoundToAccount(s, j) && UnderReservation(s, j) && NoLiveJobs(s.jobs, Some(id))
    ensures Attach(s, id, kind, input, uuid).value.jobs == s.jobs
  {
  }

  lemma NoneLiveBefore(s: Store, id: JobId, j: Job)
    requires id !in s.jobs && NoLiveJobs(s.jobs[id := j], Some(id))
    ensures NoLiveJobs(s.jobs, None)
  {
    forall o | o in s.jobs
      ensures Released(s.jobs[o])
    {
      assert o != id && s.jobs[id := j][o] == s.jobs[o];
    }
  }

  lemma CreatedAgainstCurrentState(s: Store, id: JobId, kind: Kind, input: Input, uuid: nat)
    requires CreateJob(s, id, kind, input, uuid).Success? && id !in s.jobs
    requires id in CreateJob(s, id, kind, input, uuid).value.jobs
    ensures var j := CreateJob(s, id, kind, input, uuid).value.jobs[id];
      j == NewJob(kind, input, s.now) && BoundToAccount(s, j) && UnderReservation(s, j)
    ensures s.ready && NoLiveJobs(s.jobs, None)
  {
    LockShape(s);
    var locked := Lock(s).value;
    var made := InsertJob(locked, id, kind, input).value;
    InsertShape(locked, id, kind, input);
    if made.id == id {
      var j := NewJob(kind, input, s.now);
      AttachChecks(made.store, id, kind, input, uuid, j);
      NoneLiveBefore(s, id, j);
    }
  }

  lemma AdmittedShape(s: Store, id: JobId, input: Input, submission: Submission)
    requires AdmitSettlement(s, id, input, submission).Success? && id !in s.jobs
    requires id in AdmitSettlement(s, id, input, submission).value.store.jobs
    ensures var j := NewJob(Settlement, input, s.now);
      && AdmitSettlement(s, id, input, submission).value.store.jobs[id] == j
      && BoundToAccount(s, j) && UnderReservation(s, j) && s.ready && NoLiveJobs(s.jobs, None)
      && PayerCheck(s, submission).Success?
  {
    LockShape(s);
    var locked := Lock(s).value;
    var made := InsertJob(locked, id, Settlement, input).value;
    InsertShape(locked, id, Settlement, input);
    if made.id == id {
      var j := NewJob(Settlement, input, s.now);
      AttachChecks(made.store, id, Settlement, input, 0, j);
      NoneLiveBefore(s, id, j);
    }
  }

  /** A submitted command also names the configured accounts and the payer's next nonce. */
  lemma SentAgainstCurrentState(s: Store, id: JobId, input: Input)
    requires SendZkapp(s, id, input).Success? && id !in s.jobs && id in SendZkapp(s, id, input).value.jobs
    ensures var j := SendZkapp(s, id, input).value.jobs[id];
      && j == NewJob(Settlement, input, s.now) && BoundToAccount(s, j) && UnderReservation(s, j)
      && j.input.submission.Some? && j.input.submission.value.outer == s.outerKey
      && j.input.submission.value.feePayer == s.feeKey && s.feeKey in s.ledger.accounts
      && j.input.submission.value.nonce == s.ledger.accounts[s.feeKey].nonce.GetOr(0)
    ensures s.ready && NoLiveJobs(s.jobs, None)
  {
    AdmittedShape(s, id, input, input.submission.value);
  }

  // ---------- one job for one idempotency key ----------

  predicate KeysKept(before: map<Hash, JobId>, after: map<Hash, JobId>) {
    forall k :: k in before ==> k in after && after[k] == before[k]
  }

  lemma InsertKeepsKeys(s: Store, id: JobId, kind: Kind, input: Input)
    requires InsertJob(s, id, kind, input).Success?
    ensures KeysKept(s.keys, InsertJob(s, id, kind, input).value.store.keys)
    ensures input.key.Some? && input.key.value in s.keys ==>
      InsertJob(s, id, kind, input).value == Inserted(s, s.keys[input.key.value])
  {
  }

  lemma AttachKeepsKeys(s: Store, id: JobId, kind: Kind, input: Input, uuid: nat)
    requires Attach(s, id, kind, input, uuid).Success?
    ensures Attach(s, id, kind, input, uuid).value.keys == s.keys
  {
  }

  lemma CreateKeepsKeys(s: Store, id: JobId, kind: Kind, input: Input, uuid: nat)
    requires CreateJob(s, id, kind, input, uuid).Success?
    ensures KeysKept(s.keys, CreateJob(s, id, kind, input, uuid).value.keys)
  {
    LockShape(s);
    var locked := Lock(s).value;
    var made := InsertJob(locked, id, kind, input).value;
    InsertKeepsKeys(locked, id, kind, input);
    if made.id == id && id !in locked.jobs {
      AttachKeepsKeys(made.store, id, kind, input, uuid);
    }
  }

  lemma SendKeepsKeys(s: Store, id: JobId, input: Input)
    requires SendZkapp(s, id, input).Success?
    ensures KeysKept(s.keys, SendZkapp(s, id, input).value.keys)
  {
    LockShape(s);
    var locked := Lock(s).value;
    var made := InsertJob(locked, id, Settlement, input).value;
    InsertKeepsKeys(locked, id, Settlement, input);
    if made.id == id && id !in locked.jobs {
      AttachKeepsKeys(made.store, id, Settlement, input, 0);
    }
  }

  lemma AcquireLeavesKeys(s: Store, owner: string, ttl: Option<nat>, checkpoint: Checkpoint, uuid: nat)
    ensures Or(s, Acquire(s, owner, ttl, checkpoint, uuid)).keys == s.keys
  {
    if Lock(s).Success? {
      LockShape(s);
    }
  }

  lemma LeaseLeavesKeys(s: Store, step: Step)
    requires step.StepRenew? || step.StepRelease? || step.StepClaim?
    ensures Transact(s, step).keys == s.keys
  {
    if Lock(s).Success? {
      LockShape(s);
    }
  }

  lemma QueueLeavesKeys(s: Store, step: Step)
    requires step.Tick? || step.StepApprove? || step.StepCancel? || step.StepRecoverInterrupted?
      || step.StepSaveDigest? || step.StepSavePreflight? || step.StepEndPreflight? || step.StepSetProving?
    ensures Transact(s, step).keys == s.keys
  {
  }

  lemma WorkLeavesKeys(s: Store, step: Step)
    requires !AdmissionStep(step) && !ByIndexer(step)
    ensures Transact(s, step).keys == s.keys
  {
    if step.Tick? || step.StepApprove? || step.StepCancel? || step.StepRecoverInterrupted?
      || step.StepSaveDigest? || step.StepSavePreflight? || step.StepEndPreflight? || step.StepSetProving?
    {
      QueueLeavesKeys(s, step);
    }
  }

  lemma ApplyingLeavesKeys(y: System, step: Step)
    requires step.StepApply? || step.StepReconcileApply?
    ensures Next(y, step).db.keys == y.db.keys
  {
  }

  lemma RollingLeavesKeys(y: System, step: Step)
    requires step.StepRollback? || step.StepReconcile?
    ensures Next(y, step).db.keys == y.db.keys
  {
  }

  lemma RewritingLeavesKeys(y: System, step: Step)
    requires RewritesJobs(step)
    ensures Next(y, step).db.keys == y.db.keys
  {
    if step.StepRollback? || step.StepReconcile? {
      RollingLeavesKeys(y, step);
    }
  }

  lemma IndexerLeavesKeys(y: System, step: Step)
    requires ByIndexer(step)
    ensures Next(y, step).db.keys == y.db.keys
  {
    if step.StepApply? || step.StepReconcileApply? {
      ApplyingLeavesKeys(y, step);
    } else if RewritesJobs(step) {
      RewritingLeavesKeys(y, step);
    }
  }

  lemma StepKeepsKeys(y: System, step: Step)
    ensures KeysKept(y.db.keys, Next(y, step).db.keys)
  {
    var s := y.db;
    if ByIndexer(step) {
      IndexerLeavesKeys(y, step);
    } else if step.StepCreateJob? {
      if CreateJob(s, step.id, step.kind, step.input, step.uuid).Success? {
        CreateKeepsKeys(s, step.id, step.kind, step.input, step.uuid);
      }
    } else if step.StepSendZkapp? {
      if SendZkapp(s, step.id, step.input).Success? {
        SendKeepsKeys(s, step.id, step.input);
      }
    } else if step.StepAcquire? {
      AcquireLeavesKeys(s, step.owner, step.ttl, step.checkpoint, step.uuid);
    } else if AdmissionStep(step) {
      LeaseLeavesKeys(s, step);
    } else {
      WorkLeavesKeys(s, step);
    }
  }

  lemma {:induction false} RunKeepsKeys(y: System, steps: seq<Step>)
    ensures KeysKept(y.db.keys, Run(y, steps).db.keys)
    decreases |steps|
  {
    if steps != [] {
      RunKeepsKeys(y, steps[..|steps| - 1]);
      StepKeepsKeys(Run(y, steps[..|steps| - 1]), steps[|steps| - 1]);
    }
  }

  lemma KeyKept(before: map<Hash, JobId>, after: map<Hash, JobId>, k: Hash)
    requires KeysKept(before, after) && k in before
    ensures k in after && after[k] == before[k]
  {
  }

  /** The row an admitted key names, and what was asked for there. */
  predicate SamePayload(s: Store, known: JobId, input: Input) {
    known in s.jobs && s.jobs[known].input.digest == input.digest
  }

  /** A retry under a fresh id makes no job, and succeeds only for the payload already admitted. */
  predicate MakesNoJob(s: Store, id: JobId, kind: Kind, input: Input, uuid: nat, known: JobId) {
    && (CreateJob(s, id, kind, input, uuid).Success? ==>
          CreateJob(s, id, kind, input, uuid).value.jobs == s.jobs && SamePayload(s, known, input))
    && (SendZkapp(s, id, input).Success? ==>
          SendZkapp(s, id, input).value.jobs == s.jobs && SamePayload(s, known, input))
  }

  lemma KnownKeyMakesNoJob(s: Store, id: JobId, kind: Kind, input: Input, uuid: nat, known: JobId)
    requires input.key.Some? && input.key.value in s.keys && s.keys[input.key.value] == known != id
    ensures MakesNoJob(s, id, kind, input, uuid, known)
  {
    if Lock(s).Success? {
      LockShape(s);
    }
  }

  /**
    Once a request with an idempotency key has been admitted, no retry of it,
    however much later and under whatever fresh id, makes another job; and it
    succeeds only for the same payload.
   */
  lemma OneJobPerKey(y: System, steps: seq<Step>, z: System, id: JobId, kind: Kind, input: Input, uuid: nat,
      known: JobId)
    requires input.key.Some? && input.key.value in y.db.keys && y.db.keys[input.key.value] == known != id
    requires z == Run(y, steps)
    ensures MakesNoJob(z.db, id, kind, input, uuid, known)
  {
    RunKeepsKeys(y, steps);
    KeyKept(y.db.keys, z.db.keys, input.key.value);
    KnownKeyMakesNoJob(z.db, id, kind, input, uuid, known);
  }

  // ---------- the command pool ----------

  /** The condition on the pool insert is exactly that the job's outcome is open. */
  lemma PoolableIffOpen(j: Job)
    ensures Poolable(j) <==> !Released(j)
  {
  }

  /** A submitted or replayed command is in the pool afterwards if its job is open, and is not put back if not. */
  lemma SentIsPooled(s: Store, id: JobId, input: Input, o: JobId)
    requires SendZkapp(s, id, input).Success?
    ensures var t := SendZkapp(s, id, input).value;
      && (o in t.pending && o !in s.pending ==> o in t.jobs && !Released(t.jobs[o]))
      && (o == AdmitSettlement(s, id, input, input.submission.value).value.id && o in t.jobs && !Released(t.jobs[o]) ==>
            o in t.pending)
  {
    SendPools(s, id, input);
    var admitted := AdmitSettlement(s, id, input, input.submission.value).value;
    PendingAdmitted(s, id, input, input.submission.value);
    if admitted.id in admitted.store.jobs {
      PoolableIffOpen(admitted.store.jobs[admitted.id]);
    }
  }

  lemma PendingAdmitted(s: Store, id: JobId, input: Input, submission: Submission)
    requires AdmitSettlement(s, id, input, submission).Success?
    ensures AdmitSettlement(s, id, input, submission).value.store.pending == s.pending
  {
    LockShape(s);
    var locked := Lock(s).value;
    var made := InsertJob(locked, id, Settlement, input).value;
    InsertPools(locked, id, Settlement, input);
    if made.id == id && id !in locked.jobs {
      AttachPools(made.store, id, Settlement, input, 0);
    }
  }

  // ---------- when a failure ends a job ----------

  /**
    A failure ends an open job exactly when nothing of it can be on the chain
    or at the prover unaccounted for, and the error is not worth a retry.
   */
  lemma FailureEndsIff(j: Job, now: nat, retryable: bool, delay: nat)
    requires !Released(j)
    ensures Released(AfterFailure(j, now, retryable, delay)) <==>
      !retryable && j.prepared.None? && j.txHash.None? && !Unresolved(j)
  {
  }
}
