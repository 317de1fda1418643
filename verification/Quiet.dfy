/**
  What an HTTP or worker transaction can do to the tables, whichever one it is.
  Every run-wide invariant is proved from this summary.
 */
module Quiet {
  import opened Common
  import opened Chain
  import opened Gateway
  import opened Runs
  import Ledger

  predicate Kept<T(==)>(before: Option<T>, after: Option<T>) {
    before.Some? ==> after == before
  }

  /** How one existing job may change. */
  predicate Evolves(j: Job, k: Job) {
    && k.kind == j.kind && k.input == j.input && k.created == j.created && k.block == j.block
    && j.attempts <= k.attempts
    && Kept(j.intent, k.intent) && Kept(j.request, k.request) && Kept(j.prepared, k.prepared)
    && (k.txHash == j.txHash || (k.prepared.Some? && k.txHash == Some(k.prepared.value.hash)))
    && (j.prepared.None? && k.prepared.Some? ==> k.txHash == Some(k.prepared.value.hash))
    && (Released(j) || j.status.Reorged? ==> k == j)
    && (k.status.Confirmed? || k.status.Reorged? || k.status.ProofFailed? || k.status.EthereumReverted? ==> k == j)
  }

  /** No job gains a transaction hash that another job carries. */
  ghost predicate HashesFresh(before: Jobs, after: Jobs) {
    forall id, o, tx {:trigger CarriesHash(after[id], tx), CarriesHash(after[o], tx)} ::
      id in after && o in after && id != o && CarriesHash(after[id], tx) && CarriesHash(after[o], tx) ==>
      id in before && o in before && CarriesHash(before[id], tx) && CarriesHash(before[o], tx)
  }

  predicate NoProofFailures(jobs: Jobs) {
    forall id :: id in jobs ==> !jobs[id].status.ProofFailed?
  }

  /** An unclaimed, unsigned, freshly admitted job. */
  predicate Newborn(j: Job) {
    j.status.Queued? && j.attempts == 0 && j.txHash.None? && j.prepared.None? && j.intent.None? && j.request.None?
    && j.block.None? && !j.input.recovered && !j.approved
  }

  /** The part of the tables that belongs to the indexer. */
  predicate SameIndex(s: Store, t: Store) {
    t.mode == s.mode && t.outerKey == s.outerKey && t.feeKey == s.feeKey && t.ready == s.ready
    && t.ledger == s.ledger && t.actions == s.actions && t.rows == s.rows && t.events == s.events
    && t.cursor == s.cursor
  }

  predicate JobsEvolve(before: Jobs, after: Jobs) {
    forall id :: id in before ==> id in after && Evolves(before[id], after[id])
  }

  /** A new job is attached in the transaction that inserts it, when no job is live. */
  predicate AdmissionsAttach(s: Store, t: Store) {
    forall id :: id in t.jobs && id !in s.jobs ==>
      s.ready && t.writer.job == Some(id) && NoLiveJobs(s.jobs, None) && Newborn(t.jobs[id])
  }

  /** The writer gives up a job only when that job's outcome is known. */
  predicate DetachesReleased(s: Store, t: Store) {
    s.writer.job.Some? && t.writer.job != s.writer.job ==>
      s.writer.job.value in s.jobs && Released(s.jobs[s.writer.job.value])
  }

  /** The writer table's own check constraint. */
  predicate WriterChecked(w: Writer) {
    if w.reservation.None? then w.owner.None? && w.expires.None? && w.checkpoint.None? && w.job.None?
    else w.owner.Some? && (w.job.Some? || w.expires.Some?)
  }

  ghost predicate IsQuiet(s: Store, t: Store) {
    WriterChecked(t.writer) && SameIndex(s, t) && JobsEvolve(s.jobs, t.jobs) && HashesFresh(s.jobs, t.jobs)
    && AdmissionsAttach(s, t) && DetachesReleased(s, t)
  }

  // ---------- which columns a transaction writes ----------

  lemma LockShape(s: Store)
    requires Lock(s).Success?
    ensures s.ready && Lock(s).value == s.(writer := Lock(s).value.writer)
    ensures Lock(s).value.writer == s.writer || Lock(s).value.writer == Vacant(s.writer)
  {
  }

  /** A lease transaction writes the writer row only. */
  predicate LeaseOnly(s: Store, t: Store) {
    t == s.(writer := t.writer)
  }

  lemma AcquireShape(s: Store, owner: string, ttl: Option<nat>, checkpoint: Checkpoint, uuid: nat)
    ensures LeaseOnly(s, Or(s, Acquire(s, owner, ttl, checkpoint, uuid)))
  {
    if Lock(s).Success? {
      LockShape(s);
    }
  }

  lemma ReleaseShape(s: Store, token: Token)
    ensures LeaseOnly(s, Or(s, Release(s, token)))
  {
    if Lock(s).Success? {
      LockShape(s);
    }
  }

  function ClaimedJob(j: Job): Job {
    j.(status := if j.status.Approved? then Proving else Validating, attempts := j.attempts + 1)
  }

  lemma ClaimShape(s: Store, id: JobId)
    ensures var t := Claim(s, id);
      && t == s.(writer := t.writer, jobs := t.jobs)
      && (t.jobs == s.jobs
          || (id in s.jobs && t.jobs == s.jobs[id := ClaimedJob(s.jobs[id])] && !Unresolved(s.jobs[id])
              && (s.jobs[id].status.Queued? || s.jobs[id].status.Approved?)))
  {
    if Lock(s).Success? {
      LockShape(s);
    }
  }

  lemma FailureShape(s: Store, id: JobId, attempts: nat, retryable: bool, delay: nat)
    ensures var t := Or(s, RecordFailure(s, id, attempts, retryable, delay));
      && t == s.(jobs := t.jobs, pending := t.pending) && t.pending <= s.pending
      && (t.jobs == s.jobs
          || (id in s.jobs && t.jobs == s.jobs[id := AfterFailure(s.jobs[id], s.now, retryable, delay)]))
  {
  }

  /** A known key finds its job; otherwise a row is added, and perhaps its key. */
  lemma InsertShape(s: Store, id: JobId, kind: Kind, input: Input)
    requires InsertJob(s, id, kind, input).Success?
    ensures var made := InsertJob(s, id, kind, input).value;
      if input.key.Some? && input.key.value in s.keys
      then made == Inserted(s, s.keys[input.key.value]) && made.id in s.jobs
      else
        && id !in s.jobs && made.id == id && made.store.jobs == s.jobs[id := NewJob(kind, input, s.now)]
        && made.store.keys == (if input.key.Some? then s.keys[input.key.value := id] else s.keys)
        && made.store == s.(jobs := made.store.jobs, keys := made.store.keys)
  {
  }

  lemma AttachShape(s: Store, id: JobId, kind: Kind, input: Input, uuid: nat)
    requires Attach(s, id, kind, input, uuid).Success?
    ensures var t := Attach(s, id, kind, input, uuid).value; t == s.(writer := t.writer) && t.writer.job == Some(id)
    ensures s.writer.job.None? || kind.Bridge?
    ensures NoLiveJobs(s.jobs, Some(id))
  {
  }

  /** A created job is attached in the transaction that inserts it; otherwise only the lock's clean-up happens. */
  lemma CreateShape(s: Store, id: JobId, kind: Kind, input: Input, uuid: nat)
    requires CreateJob(s, id, kind, input, uuid).Success?
    ensures var t := CreateJob(s, id, kind, input, uuid).value;
      && t == s.(writer := t.writer, jobs := t.jobs, keys := t.keys)
      && (t.jobs == s.jobs || (id !in s.jobs && t.jobs == s.jobs[id := NewJob(kind, input, s.now)]))
  {
    LockShape(s);
    var locked := Lock(s).value;
    var made := InsertJob(locked, id, kind, input).value;
    InsertShape(locked, id, kind, input);
    if made.id == id && id !in locked.jobs {
      AttachShape(made.store, id, kind, input, uuid);
    }
  }

  lemma EvolvesReflexive(j: Job)
    ensures Evolves(j, j)
  {
  }

  lemma OneJobQuiet(s: Store, id: JobId, k: Job)
    requires WriterChecked(s.writer) && id in s.jobs && Evolves(s.jobs[id], k)
    requires forall tx :: CarriesHash(k, tx) ==>
      (CarriesHash(s.jobs[id], tx) || forall o :: o in s.jobs && o != id ==> !CarriesHash(s.jobs[o], tx))
    ensures IsQuiet(s, Put(s, id, k))
  {
    var t := Put(s, id, k);
    forall o | o in s.jobs
      ensures o in t.jobs && Evolves(s.jobs[o], t.jobs[o])
    {
      EvolvesReflexive(s.jobs[o]);
    }
  }

  /** A change of one job that adds no hash. */
  lemma PlainUpdateQuiet(s: Store, id: JobId, k: Job)
    requires WriterChecked(s.writer) && id in s.jobs && Evolves(s.jobs[id], k)
    requires forall tx :: CarriesHash(k, tx) ==> CarriesHash(s.jobs[id], tx)
    ensures IsQuiet(s, Put(s, id, k))
  {
    OneJobQuiet(s, id, k);
  }

  /** A change of the writer row, the pool or the clock alone. */
  lemma JobsUntouchedQuiet(s: Store, t: Store)
    requires WriterChecked(t.writer) && SameIndex(s, t) && t.jobs == s.jobs && DetachesReleased(s, t)
    ensures IsQuiet(s, t)
  {
    forall o | o in s.jobs
      ensures Evolves(s.jobs[o], t.jobs[o])
    {
      EvolvesReflexive(s.jobs[o]);
    }
  }

  lemma PendingQuiet(s: Store, t: Store, pending: set<JobId>)
    requires IsQuiet(s, t)
    ensures IsQuiet(s, t.(pending := pending))
  {
  }

  lemma LockQuiet(s: Store)
    requires WriterChecked(s.writer) && Lock(s).Success?
    ensures IsQuiet(s, Lock(s).value) && Lock(s).value.jobs == s.jobs && s.ready && SameIndex(s, Lock(s).value)
    ensures Lock(s).value.writer.job.Some? ==> Lock(s).value.writer == s.writer
    ensures Lock(s).value.keys == s.keys
  {
    JobsUntouchedQuiet(s, Lock(s).value);
  }

  lemma AcquireQuiet(s: Store, owner: string, ttl: Option<nat>, checkpoint: Checkpoint, uuid: nat)
    requires WriterChecked(s.writer) && Acquire(s, owner, ttl, checkpoint, uuid).Success?
    ensures IsQuiet(s, Acquire(s, owner, ttl, checkpoint, uuid).value)
  {
    LockQuiet(s);
    JobsUntouchedQuiet(s, Acquire(s, owner, ttl, checkpoint, uuid).value);
  }

  lemma ReleaseQuiet(s: Store, token: Token)
    requires WriterChecked(s.writer) && Release(s, token).Success?
    ensures IsQuiet(s, Release(s, token).value)
  {
    LockQuiet(s);
    JobsUntouchedQuiet(s, Release(s, token).value);
  }

  /** Inserting a newborn job and attaching it, all under the lock. */
  lemma AdmitQuiet(s: Store, t: Store, id: JobId, j: Job)
    requires WriterChecked(t.writer) && s.ready && SameIndex(s, t) && id !in s.jobs && t.jobs == s.jobs[id := j]
      && Newborn(j)
    requires t.writer.job == Some(id) && NoLiveJobs(s.jobs, Some(id)) && DetachesReleased(s, t)
    ensures IsQuiet(s, t)
  {
    forall o | o in s.jobs
      ensures o in t.jobs && Evolves(s.jobs[o], t.jobs[o])
    {
      EvolvesReflexive(s.jobs[o]);
    }
  }

  lemma CreatedQuiet(s: Store, locked: Store, made: Inserted, id: JobId, kind: Kind, input: Input, uuid: nat)
    requires Lock(s) == Success(locked) && InsertJob(locked, id, kind, input) == Success(made)
    requires WriterChecked(s.writer) && !input.recovered && made.id == id && id !in locked.jobs
    requires Attach(made.store, id, kind, input, uuid).Success?
    ensures IsQuiet(s, Attach(made.store, id, kind, input, uuid).value)
  {
    LockQuiet(s);
    InsertShape(locked, id, kind, input);
    AttachedIs(made.store, id, kind, input, uuid);
    AttachShape(made.store, id, kind, input, uuid);
    AdmitQuiet(s, Attach(made.store, id, kind, input, uuid).value, id, NewJob(kind, input, locked.now));
  }

  lemma CreateJobQuiet(s: Store, id: JobId, kind: Kind, input: Input, uuid: nat)
    requires WriterChecked(s.writer) && !input.recovered && CreateJob(s, id, kind, input, uuid).Success?
    ensures IsQuiet(s, CreateJob(s, id, kind, input, uuid).value)
  {
    var locked := Lock(s).value;
    var made := InsertJob(locked, id, kind, input).value;
    if made.id == id && id !in locked.jobs {
      CreatedQuiet(s, locked, made, id, kind, input, uuid);
    } else {
      InsertShape(locked, id, kind, input);
      LockQuiet(s);
    }
  }

  lemma AttachedIs(s: Store, id: JobId, kind: Kind, input: Input, uuid: nat)
    requires WriterChecked(s.writer) && Attach(s, id, kind, input, uuid).Success?
    ensures WriterChecked(Attach(s, id, kind, input, uuid).value.writer)
    ensures Attach(s, id, kind, input, uuid).value.writer.job == Some(id)
    ensures s.writer.job.None?
    ensures NoLiveJobs(s.jobs, Some(id))
    ensures Attach(s, id, kind, input, uuid).value.(writer := s.writer) == s
  {
  }

  lemma AdmitSettlementQuiet(s: Store, id: JobId, input: Input, submission: Submission)
    requires WriterChecked(s.writer) && !input.recovered && AdmitSettlement(s, id, input, submission).Success?
    ensures IsQuiet(s, AdmitSettlement(s, id, input, submission).value.store)
  {
    var locked := Lock(s).value;
    var made := InsertJob(locked, id, Settlement, input).value;
    if made.id == id && id !in locked.jobs {
      assert Attach(made.store, id, Settlement, input, 0) == AttachSettlement(made.store, id, input);
      CreatedQuiet(s, locked, made, id, Settlement, input, 0);
    } else {
      InsertShape(locked, id, Settlement, input);
      LockQuiet(s);
    }
  }

  lemma SendZkappQuiet(s: Store, id: JobId, input: Input)
    requires WriterChecked(s.writer) && !input.recovered && SendZkapp(s, id, input).Success?
    ensures IsQuiet(s, SendZkapp(s, id, input).value)
  {
    AdmitSettlementQuiet(s, id, input, input.submission.value);
    PendingQuiet(s, AdmitSettlement(s, id, input, input.submission.value).value.store,
      SendZkapp(s, id, input).value.pending);
  }

  lemma ApproveQuiet(s: Store, id: JobId, digest: Hash)
    requires WriterChecked(s.writer) && Approve(s, id, digest).Success?
    ensures IsQuiet(s, Approve(s, id, digest).value)
  {
    PlainUpdateQuiet(s, id, Approve(s, id, digest).value.jobs[id]);
  }

  lemma CancelQuiet(s: Store, id: JobId)
    requires WriterChecked(s.writer) && Cancel(s, id).Success?
    ensures IsQuiet(s, Cancel(s, id).value)
  {
    var k := Cancel(s, id).value.jobs[id];
    PlainUpdateQuiet(s, id, k);
    PendingQuiet(s, Put(s, id, k), s.pending - {id});
  }

  lemma RecoverInterruptedQuiet(s: Store)
    requires WriterChecked(s.writer)
    ensures IsQuiet(s, RecoverInterrupted(s))
  {
    var t := RecoverInterrupted(s);
    forall id | id in s.jobs
      ensures id in t.jobs && Evolves(s.jobs[id], t.jobs[id])
      ensures forall tx :: CarriesHash(t.jobs[id], tx) <==> CarriesHash(s.jobs[id], tx)
    {
    }
  }

  lemma ClaimQuiet(s: Store, id: JobId)
    requires WriterChecked(s.writer)
    ensures IsQuiet(s, Claim(s, id))
  {
    if Lock(s).Failure? {
      JobsUntouchedQuiet(s, s);
    } else {
      LockQuiet(s);
      var locked := Lock(s).value;
      if Claimable(locked, id) {
        var k := Claim(s, id).jobs[id];
        assert Evolves(s.jobs[id], k);
        PlainUpdateQuiet(s, id, k);
      }
    }
  }

  lemma PreflightQuiet(s: Store, step: Step)
    requires WriterChecked(s.writer) && NoProofFailures(s.jobs)
    requires step.StepSaveDigest? || step.StepSavePreflight? || step.StepEndPreflight? || step.StepSetProving?
    ensures IsQuiet(s, Transact(s, step))
  {
    var t := Transact(s, step);
    if t == s {
      JobsUntouchedQuiet(s, s);
    } else {
      PlainUpdateQuiet(s, step.id, t.jobs[step.id]);
    }
  }

  lemma ProofQuiet(s: Store, step: Step)
    requires WriterChecked(s.writer)
    requires step.StepBeginProof? || step.StepFinishProof? || step.StepSaveProof?
    ensures IsQuiet(s, Transact(s, step))
  {
    var t := Transact(s, step);
    if t == s {
      JobsUntouchedQuiet(s, s);
    } else {
      PlainUpdateQuiet(s, step.id, t.jobs[step.id]);
    }
  }

  lemma SendQuiet(s: Store, step: Step)
    requires WriterChecked(s.writer)
    requires step.StepBeginSend? || step.StepMarkSubmitted?
    ensures IsQuiet(s, Transact(s, step))
  {
    var t := Transact(s, step);
    if t == s {
      JobsUntouchedQuiet(s, s);
    } else {
      PlainUpdateQuiet(s, step.id, t.jobs[step.id]);
    }
  }

  lemma PersistQuiet(s: Store, id: JobId, attempts: nat, prepared: Prepared)
    requires WriterChecked(s.writer) && FreshSignature(s.jobs, id, prepared)
    requires PersistPrepared(s, id, attempts, prepared).Success?
    ensures IsQuiet(s, PersistPrepared(s, id, attempts, prepared).value)
  {
    OneJobQuiet(s, id, PersistPrepared(s, id, attempts, prepared).value.jobs[id]);
  }

  lemma FailureEvolves(j: Job, now: nat, retryable: bool, delay: nat)
    ensures Evolves(j, AfterFailure(j, now, retryable, delay))
  {
  }

  lemma RecordFailureQuiet(s: Store, id: JobId, attempts: nat, retryable: bool, delay: nat)
    requires WriterChecked(s.writer) && RecordFailure(s, id, attempts, retryable, delay).Success?
    ensures IsQuiet(s, RecordFailure(s, id, attempts, retryable, delay).value)
  {
    if s.jobs[id].attempts != attempts {
      JobsUntouchedQuiet(s, s);
    } else {
      var k := AfterFailure(s.jobs[id], s.now, retryable, delay);
      FailureEvolves(s.jobs[id], s.now, retryable, delay);
      PlainUpdateQuiet(s, id, k);
      PendingQuiet(s, Put(s, id, k), s.pending - {id});
    }
  }

  lemma LeaseQuiet(s: Store, step: Step)
    requires WriterChecked(s.writer)
    requires step.Tick? || step.StepAcquire? || step.StepRenew? || step.StepRelease?
    ensures IsQuiet(s, Transact(s, step))
  {
    JobsUntouchedQuiet(s, s);
    match step
    case Tick(elapsed) => JobsUntouchedQuiet(s, Transact(s, step));
    case StepAcquire(owner, ttl, checkpoint, uuid) =>
      if Acquire(s, owner, ttl, checkpoint, uuid).Success? { AcquireQuiet(s, owner, ttl, checkpoint, uuid); }
    case StepRenew(token, seconds) => RenewQuiet(s, token, seconds);
    case StepRelease(token) => if Release(s, token).Success? { ReleaseQuiet(s, token); }
  }

  lemma RenewQuiet(s: Store, token: Token, seconds: nat)
    requires WriterChecked(s.writer)
    ensures IsQuiet(s, Or(s, Renew(s, token, seconds)))
  {
    JobsUntouchedQuiet(s, Or(s, Renew(s, token, seconds)));
  }

  lemma AdmissionQuiet(s: Store, step: Step)
    requires WriterChecked(s.writer) && (step.StepCreateJob? || step.StepSendZkapp?) && !step.input.recovered
    ensures IsQuiet(s, Transact(s, step))
  {
    JobsUntouchedQuiet(s, s);
    match step
    case StepCreateJob(id, kind, input, uuid) =>
      if CreateJob(s, id, kind, input, uuid).Success? { CreateJobQuiet(s, id, kind, input, uuid); }
    case StepSendZkapp(id, input) => if SendZkapp(s, id, input).Success? { SendZkappQuiet(s, id, input); }
  }

  lemma QueueQuiet(s: Store, step: Step)
    requires WriterChecked(s.writer)
    requires step.StepApprove? || step.StepCancel? || step.StepRecoverInterrupted? || step.StepClaim?
    ensures IsQuiet(s, Transact(s, step))
  {
    JobsUntouchedQuiet(s, s);
    match step
    case StepApprove(id, digest) => if Approve(s, id, digest).Success? { ApproveQuiet(s, id, digest); }
    case StepCancel(id) => if Cancel(s, id).Success? { CancelQuiet(s, id); }
    case StepRecoverInterrupted => RecoverInterruptedQuiet(s);
    case StepClaim(id) => ClaimQuiet(s, id);
  }

  lemma SendingQuiet(s: Store, step: Step)
    requires WriterChecked(s.writer)
    requires step.StepBeginSend? || step.StepMarkSubmitted? || step.StepPersist? || step.StepRecordFailure?
    requires step.StepPersist? ==> FreshSignature(s.jobs, step.id, step.prepared)
    ensures IsQuiet(s, Transact(s, step))
  {
    JobsUntouchedQuiet(s, s);
    match step
    case StepBeginSend(_, _, _, _) => SendQuiet(s, step);
    case StepMarkSubmitted(_, _) => SendQuiet(s, step);
    case StepPersist(id, attempts, prepared) =>
      if PersistPrepared(s, id, attempts, prepared).Success? { PersistQuiet(s, id, attempts, prepared); }
    case StepRecordFailure(id, attempts, retryable, delay) =>
      if RecordFailure(s, id, attempts, retryable, delay).Success? {
        RecordFailureQuiet(s, id, attempts, retryable, delay);
      }
  }

  /** Every possible HTTP or worker step is quiet. */
  lemma TransactIsQuiet(y: System, step: Step)
    requires !ByIndexer(step) && Possible(y, step)
    requires WriterChecked(y.db.writer) && NoProofFailures(y.db.jobs)
    ensures IsQuiet(y.db, Transact(y.db, step))
  {
    var s := y.db;
    if step.Tick? || step.StepAcquire? || step.StepRenew? || step.StepRelease? {
      LeaseQuiet(s, step);
    } else if step.StepCreateJob? || step.StepSendZkapp? {
      AdmissionQuiet(s, step);
    } else if step.StepApprove? || step.StepCancel? || step.StepRecoverInterrupted? || step.StepClaim? {
      QueueQuiet(s, step);
    } else if step.StepBeginProof? || step.StepFinishProof? || step.StepSaveProof? {
      ProofQuiet(s, step);
    } else if step.StepSaveDigest? || step.StepSavePreflight? || step.StepEndPreflight? || step.StepSetProving? {
      PreflightQuiet(s, step);
    } else if step.StepBeginSend? || step.StepMarkSubmitted? || step.StepPersist? || step.StepRecordFailure? {
      SendingQuiet(s, step);
    } else {
      JobsUntouchedQuiet(s, s);
    }
  }
}
