/**
  Who holds the outer writer, and for how long.  These are properties of every
  run in either finality mode, through crashes and reorganizations.
 */
module Custody {
  import opened Common
  import opened Chain
  import opened ActionLog
  import opened Gateway
  import opened Runs
  import opened Quiet
  import opened Ownership
  import Ledger

  // ---------- what one transaction may do to the writer row ----------

  /** Fencing numbers never go back, and within one number there is one reservation, once. */
  predicate Fenced(before: Writer, after: Writer) {
    && before.fencing <= after.fencing
    && (before.fencing == after.fencing ==> after.reservation.None? || after.reservation == before.reservation)
  }

  /** The attached job's outcome is still open. */
  predicate Holds(s: Store, id: JobId) {
    s.writer.job == Some(id) && id in s.jobs && !Released(s.jobs[id])
  }

  predicate WriterStep(s: Store, t: Store) {
    && Fenced(s.writer, t.writer)
    && (s.writer.job.Some? && Holds(s, s.writer.job.value) ==> t.writer == s.writer)
  }

  lemma LockIsWriterStep(s: Store)
    requires Lock(s).Success?
    ensures WriterStep(s, Lock(s).value) && Lock(s).value == s.(writer := Lock(s).value.writer)
    ensures Lock(s).value.writer == s.writer || Lock(s).value.writer == Vacant(s.writer)
    ensures s.writer.job.Some? && Holds(s, s.writer.job.value) ==> Lock(s).value == s
  {
  }

  lemma AcquireIsWriterStep(s: Store, owner: string, ttl: Option<nat>, checkpoint: Checkpoint, uuid: nat)
    requires WriterChecked(s.writer) && Acquire(s, owner, ttl, checkpoint, uuid).Success?
    ensures WriterStep(s, Acquire(s, owner, ttl, checkpoint, uuid).value)
  {
    LockIsWriterStep(s);
  }

  lemma ReleaseIsWriterStep(s: Store, token: Token)
    requires WriterChecked(s.writer) && Release(s, token).Success?
    ensures WriterStep(s, Release(s, token).value)
  {
    LockIsWriterStep(s);
  }

  lemma RenewIsWriterStep(s: Store, token: Token, seconds: nat)
    requires Renew(s, token, seconds).Success?
    ensures WriterStep(s, Renew(s, token, seconds).value)
  {
  }

  lemma AttachIsWriterStep(s: Store, id: JobId, kind: Kind, input: Input, uuid: nat)
    requires WriterChecked(s.writer) && Attach(s, id, kind, input, uuid).Success?
    ensures s.writer.job.None? && Fenced(s.writer, Attach(s, id, kind, input, uuid).value.writer)
  {
  }

  lemma CreateJobIsWriterStep(s: Store, id: JobId, kind: Kind, input: Input, uuid: nat)
    requires WriterChecked(s.writer) && CreateJob(s, id, kind, input, uuid).Success?
    ensures WriterStep(s, CreateJob(s, id, kind, input, uuid).value)
  {
    LockIsWriterStep(s);
    var locked := Lock(s).value;
    var made := InsertJob(locked, id, kind, input).value;
    InsertKeepsWriter(locked, id, kind, input);
    if made.id == id && id !in locked.jobs {
      AttachIsWriterStep(made.store, id, kind, input, uuid);
    }
  }

  lemma InsertKeepsWriter(s: Store, id: JobId, kind: Kind, input: Input)
    requires InsertJob(s, id, kind, input).Success?
    ensures InsertJob(s, id, kind, input).value.store.writer == s.writer
  {
  }

  lemma SendZkappIsWriterStep(s: Store, id: JobId, input: Input)
    requires WriterChecked(s.writer) && SendZkapp(s, id, input).Success?
    ensures WriterStep(s, SendZkapp(s, id, input).value)
  {
    LockIsWriterStep(s);
    var locked := Lock(s).value;
    var made := InsertJob(locked, id, Settlement, input).value;
    InsertKeepsWriter(locked, id, Settlement, input);
    if made.id == id && id !in locked.jobs {
      AttachIsWriterStep(made.store, id, Settlement, input, 0);
    }
  }

  lemma ClaimIsWriterStep(s: Store, id: JobId)
    ensures WriterStep(s, Claim(s, id))
  {
    if Lock(s).Success? {
      LockIsWriterStep(s);
    }
  }

  predicate AdmissionStep(step: Step) {
    step.StepAcquire? || step.StepRenew? || step.StepRelease? || step.StepCreateJob? || step.StepSendZkapp?
    || step.StepClaim?
  }

  lemma QueueLeavesWriter(s: Store, step: Step)
    requires step.Tick? || step.StepApprove? || step.StepCancel? || step.StepRecoverInterrupted?
      || step.StepSaveDigest? || step.StepSavePreflight? || step.StepEndPreflight? || step.StepSetProving?
    ensures Transact(s, step).writer == s.writer
  {
  }

  lemma WorkLeavesWriter(s: Store, step: Step)
    requires !AdmissionStep(step) && !ByIndexer(step)
    ensures Transact(s, step).writer == s.writer
  {
    if step.Tick? || step.StepApprove? || step.StepCancel? || step.StepRecoverInterrupted?
      || step.StepSaveDigest? || step.StepSavePreflight? || step.StepEndPreflight? || step.StepSetProving?
    {
      QueueLeavesWriter(s, step);
    }
  }

  lemma LeaseIsWriterStep(s: Store, step: Step)
    requires WriterChecked(s.writer) && (step.StepAcquire? || step.StepRenew? || step.StepRelease?)
    ensures WriterStep(s, Transact(s, step))
  {
    match step
    case StepAcquire(owner, ttl, checkpoint, uuid) =>
      if Acquire(s, owner, ttl, checkpoint, uuid).Success? { AcquireIsWriterStep(s, owner, ttl, checkpoint, uuid); }
    case StepRenew(token, seconds) => if Renew(s, token, seconds).Success? { RenewIsWriterStep(s, token, seconds); }
    case StepRelease(token) => if Release(s, token).Success? { ReleaseIsWriterStep(s, token); }
  }

  lemma AdmissionIsWriterStep(s: Store, step: Step)
    requires WriterChecked(s.writer) && (step.StepCreateJob? || step.StepSendZkapp? || step.StepClaim?)
    ensures WriterStep(s, Transact(s, step))
  {
    match step
    case StepCreateJob(id, kind, input, uuid) =>
      if CreateJob(s, id, kind, input, uuid).Success? { CreateJobIsWriterStep(s, id, kind, input, uuid); }
    case StepSendZkapp(id, input) => if SendZkapp(s, id, input).Success? { SendZkappIsWriterStep(s, id, input); }
    case StepClaim(id) => ClaimIsWriterStep(s, id);
  }

  lemma StepIsWriterStep(y: System, step: Step)
    requires WriterChecked(y.db.writer)
    ensures WriterStep(y.db, Next(y, step).db)
  {
    if ByIndexer(step) {
      IndexerLeavesWriter(y, step);
    } else if !AdmissionStep(step) {
      WorkLeavesWriter(y.db, step);
    } else if step.StepAcquire? || step.StepRenew? || step.StepRelease? {
      LeaseIsWriterStep(y.db, step);
    } else {
      AdmissionIsWriterStep(y.db, step);
    }
  }

  // ---------- runs ----------

  lemma {:induction false} RunSplits(y: System, first: seq<Step>, second: seq<Step>)
    ensures Run(y, first + second) == Run(Run(y, first), second)
    decreases |second|
  {
    if second == [] {
      assert first + second == first;
    } else {
      RunSplits(y, first, second[..|second| - 1]);
      assert (first + second)[..|first + second| - 1] == first + second[..|second| - 1];
    }
  }

  lemma {:induction false} RunIsFenced(y: System, steps: seq<Step>)
    requires Base(y)
    ensures Fenced(y.db.writer, Run(y, steps).db.writer)
    decreases |steps|
  {
    if steps != [] {
      var earlier := steps[..|steps| - 1];
      RunIsFenced(y, earlier);
      RunKeepsBase(y, earlier);
      StepIsWriterStep(Run(y, earlier), steps[|steps| - 1]);
    }
  }

  /** Tokens of successive ownerships strictly increase. */
  lemma TokensIncrease(y: System, steps: seq<Step>, first: Token, second: Token)
    requires Base(y) && Matches(y.db.writer, first) && Matches(Run(y, steps).db.writer, second)
    ensures first.fencing <= second.fencing
    ensures first != second <==> first.fencing < second.fencing
  {
    RunIsFenced(y, steps);
  }

  /** A token that was superseded, released or reaped never becomes current again. */
  lemma SupersededForever(y: System, between: seq<Step>, later: seq<Step>, token: Token)
    requires Base(y) && Matches(y.db.writer, token) && !Matches(Run(y, between).db.writer, token)
    ensures !Matches(Run(y, between + later).db.writer, token)
  {
    RunIsFenced(y, between);
    RunKeepsBase(y, between);
    RunSplits(y, between, later);
    RunIsFenced(Run(y, between), later);
  }

  /**
    What a token that is not current can do: it cannot renew, it cannot admit a
    new settlement, and releasing it leaves any reservation of another alone.
   */
  lemma SupersededIsPowerless(s: Store, token: Token, id: JobId, input: Input, uuid: nat, seconds: nat)
    requires WriterChecked(s.writer) && !Matches(s.writer, token)
    requires input.token == Some(token)
    ensures Renew(s, token, seconds).Failure?
    ensures Release(s, token).Success? ==>
      Release(s, token) == Lock(s) && Release(s, token).value.writer.reservation.None?
    ensures CreateJob(s, id, Settlement, input, uuid).Success? ==>
      CreateJob(s, id, Settlement, input, uuid).value.jobs == s.jobs
    ensures SendZkapp(s, id, input).Success? ==> SendZkapp(s, id, input).value.jobs == s.jobs
  {
    if Lock(s).Success? {
      LockIsWriterStep(s);
      PowerlessAdmission(s, token, id, input, uuid);
      PowerlessCommand(s, token, id, input);
    }
  }

  lemma PowerlessAdmission(s: Store, token: Token, id: JobId, input: Input, uuid: nat)
    requires Lock(s).Success? && !Matches(Lock(s).value.writer, token) && input.token == Some(token)
    ensures CreateJob(s, id, Settlement, input, uuid).Success? ==>
      CreateJob(s, id, Settlement, input, uuid).value.jobs == s.jobs
  {
    if InsertJob(Lock(s).value, id, Settlement, input).Success? {
      InsertKeepsWriter(Lock(s).value, id, Settlement, input);
    }
  }

  lemma PowerlessCommand(s: Store, token: Token, id: JobId, input: Input)
    requires Lock(s).Success? && !Matches(Lock(s).value.writer, token) && input.token == Some(token)
    ensures SendZkapp(s, id, input).Success? ==> SendZkapp(s, id, input).value.jobs == s.jobs
  {
    if InsertJob(Lock(s).value, id, Settlement, input).Success? {
      InsertKeepsWriter(Lock(s).value, id, Settlement, input);
    }
  }

  /** A lapsed preparation lease has no power either, although the row still shows its token. */
  lemma ExpiredIsPowerless(s: Store, token: Token, id: JobId, input: Input, uuid: nat, seconds: nat)
    requires WriterChecked(s.writer) && input.token == Some(token)
    requires s.writer.job.None? && s.writer.expires.Some? && s.writer.expires.value <= s.now
    ensures Renew(s, token, seconds).Failure?
    ensures Release(s, token).Success? ==> Release(s, token) == Lock(s)
    ensures CreateJob(s, id, Settlement, input, uuid).Success? ==>
      CreateJob(s, id, Settlement, input, uuid).value.jobs == s.jobs
    ensures SendZkapp(s, id, input).Success? ==> SendZkapp(s, id, input).value.jobs == s.jobs
  {
    if Lock(s).Success? {
      PowerlessAdmission(s, token, id, input, uuid);
      PowerlessCommand(s, token, id, input);
    }
  }

  /**
    While it prepares, a lease can be renewed exactly as long as the lock would
    leave it in place; and renewed, it is safe from the lock for that long.
   */
  lemma RenewedLeaseLasts(s: Store, token: Token, seconds: nat, elapsed: nat)
    requires s.ready && s.writer.job.None?
    requires s.writer.expires.None? ==> s.writer.reservation.None?
    ensures Renew(s, token, seconds).Success? <==> Matches(Lock(s).value.writer, token)
    ensures Renew(s, token, seconds).Success? && elapsed < seconds ==>
      Matches(Lock(Renew(s, token, seconds).value.(now := s.now + elapsed)).value.writer, token)
  {
  }

  /**
    However much time passes and whatever anyone else does, an attached job
    keeps the whole writer row until its own outcome is known.
   */
  lemma {:induction false} HeldUntilReleased(y: System, steps: seq<Step>, id: JobId)
    requires Base(y) && y.db.writer.job == Some(id)
    requires forall k :: 0 <= k < |steps| ==>
      id in Run(y, steps[..k]).db.jobs && !Released(Run(y, steps[..k]).db.jobs[id])
    ensures Run(y, steps).db.writer == y.db.writer
    decreases |steps|
  {
    if steps != [] {
      var n := |steps| - 1;
      var earlier := steps[..n];
      forall k | 0 <= k < n
        ensures id in Run(y, earlier[..k]).db.jobs && !Released(Run(y, earlier[..k]).db.jobs[id])
      {
        assert earlier[..k] == steps[..k];
      }
      HeldUntilReleased(y, earlier, id);
      RunKeepsBase(y, earlier);
      assert id in Run(y, steps[..n]).db.jobs && !Released(Run(y, steps[..n]).db.jobs[id]);
      StepIsWriterStep(Run(y, earlier), steps[n]);
    }
  }

  // ---------- letting go ----------

  /** No step takes the writer from a job whose outcome is open. */
  lemma DetachOnlyReleased(y: System, step: Step, id: JobId)
    requires Base(y) && y.db.writer.job == Some(id) && Next(y, step).db.writer.job != Some(id)
    ensures id in y.db.jobs && Released(y.db.jobs[id])
  {
    if ByIndexer(step) {
      IndexerLeavesWriter(y, step);
    } else if Possible(y, step) {
      TransactIsQuiet(y, step);
    }
  }

  /** The job's command may leave the pool. */
  predicate Discharged(s: Store, id: JobId) {
    (id in s.jobs && Released(s.jobs[id])) || Ledger.Recorded(s.ledger.history, id)
  }

  predicate DropsDischarged(s: Store, t: Store) {
    forall id :: id in s.pending && id !in t.pending ==> Discharged(t, id)
  }

  lemma ReceiptDrops(s: Store, id: JobId, tx: Hash, block: nat, hash: Hash, receipt: Receipt)
    requires ApplyReceipt(s, id, tx, block, hash, receipt).Success?
    ensures DropsDischarged(s, ApplyReceipt(s, id, tx, block, hash, receipt).value)
  {
    var app := ApplicationFor(s, id, block, hash, receipt);
    if !Ledger.Recorded(s.ledger.history, id) {
      var rows := Ledger.RowsOf(s.ledger.accounts, app);
      assert rows[0].job == id;
      Ledger.RecordedConcat(s.ledger.history, rows, id);
    }
  }

  lemma RollbackDrops(s: Store, ancestor: int, retry: Option<JobId>)
    ensures DropsDischarged(s, RollbackAfter(s, ancestor, retry))
  {
  }

  lemma ApplyingDrops(y: System, step: Step)
    requires step.StepApply? || step.StepReconcileApply?
    ensures DropsDischarged(y.db, Next(y, step).db)
  {
    var s := y.db;
    match step
    case StepApply(id) =>
      if y.phase.Recovering? && y.phase.todo != [] {
        var e := y.phase.todo[0];
        if ApplyReceipt(s, id, e.tx, e.block, e.hash, e.receipt).Success? {
          ReceiptDrops(s, id, e.tx, e.block, e.hash, e.receipt);
        }
      }
    case StepReconcileApply(id, mined, receipt) =>
      if id in s.jobs && s.jobs[id].txHash.Some? {
        var tx := s.jobs[id].txHash.value;
        if ApplyReceipt(s, id, tx, mined.number, mined.hash, receipt).Success? {
          ReceiptDrops(s, id, tx, mined.number, mined.hash, receipt);
        }
      }
  }

  lemma ReconcileDrops(s: Store, id: JobId, mined: Mined, final: bool)
    ensures DropsDischarged(s, Reconcile(s, id, mined, final))
  {
  }

  lemma OtherIndexerPools(y: System, step: Step)
    requires ByIndexer(step) && !step.StepRollback? && !step.StepApply? && !step.StepReconcileApply?
      && !step.StepReconcile?
    ensures Next(y, step).db.pending == y.db.pending
  {
  }

  lemma IndexerDrops(y: System, step: Step)
    requires ByIndexer(step)
    ensures DropsDischarged(y.db, Next(y, step).db)
  {
    if step.StepRollback? {
      RollbackDrops(y.db, step.ancestor, step.retry);
    } else if step.StepApply? || step.StepReconcileApply? {
      ApplyingDrops(y, step);
    } else if step.StepReconcile? {
      ReconcileDrops(y.db, step.id, step.mined, step.final);
    } else {
      OtherIndexerPools(y, step);
    }
  }

  lemma CancelDrops(s: Store, id: JobId)
    ensures DropsDischarged(s, Or(s, Cancel(s, id)))
  {
  }

  lemma FailureDrops(s: Store, id: JobId, attempts: nat, retryable: bool, delay: nat)
    ensures DropsDischarged(s, Or(s, RecordFailure(s, id, attempts, retryable, delay)))
  {
  }

  lemma AcquirePools(s: Store, owner: string, ttl: Option<nat>, checkpoint: Checkpoint, uuid: nat)
    ensures Or(s, Acquire(s, owner, ttl, checkpoint, uuid)).pending == s.pending
  {
    if Lock(s).Success? {
      LockIsWriterStep(s);
    }
  }

  lemma LeasePools(s: Store, step: Step)
    requires step.StepRenew? || step.StepRelease? || step.StepClaim?
    ensures Transact(s, step).pending == s.pending
  {
    if Lock(s).Success? {
      LockIsWriterStep(s);
    }
  }

  lemma InsertPools(s: Store, id: JobId, kind: Kind, input: Input)
    requires InsertJob(s, id, kind, input).Success?
    ensures InsertJob(s, id, kind, input).value.store.pending == s.pending
  {
  }

  lemma AttachPools(s: Store, id: JobId, kind: Kind, input: Input, uuid: nat)
    requires Attach(s, id, kind, input, uuid).Success?
    ensures Attach(s, id, kind, input, uuid).value.pending == s.pending
  {
  }

  lemma CreatePools(s: Store, id: JobId, kind: Kind, input: Input, uuid: nat)
    requires CreateJob(s, id, kind, input, uuid).Success?
    ensures CreateJob(s, id, kind, input, uuid).value.pending == s.pending
  {
    LockIsWriterStep(s);
    var locked := Lock(s).value;
    var made := InsertJob(locked, id, kind, input).value;
    InsertPools(locked, id, kind, input);
    if made.id == id && id !in locked.jobs {
      AttachPools(made.store, id, kind, input, uuid);
    }
  }

  lemma SendPools(s: Store, id: JobId, input: Input)
    requires SendZkapp(s, id, input).Success?
    ensures s.pending <= SendZkapp(s, id, input).value.pending
  {
    LockIsWriterStep(s);
    var locked := Lock(s).value;
    var made := InsertJob(locked, id, Settlement, input).value;
    InsertPools(locked, id, Settlement, input);
    if made.id == id && id !in locked.jobs {
      AttachPools(made.store, id, Settlement, input, 0);
    }
  }

  lemma WorkPools(s: Store, step: Step)
    requires !AdmissionStep(step) && !ByIndexer(step) && !step.StepCancel? && !step.StepRecordFailure?
    ensures s.pending <= Transact(s, step).pending
  {
  }

  /**
    A pending command leaves the pool only when, afterwards, its job's outcome
    is known or its application is in the account history.
   */
  lemma CommandsOutliveDoubt(y: System, step: Step)
    ensures DropsDischarged(y.db, Next(y, step).db)
  {
    var s := y.db;
    if ByIndexer(step) {
      IndexerDrops(y, step);
    } else if step.StepCancel? {
      CancelDrops(s, step.id);
    } else if step.StepRecordFailure? {
      FailureDrops(s, step.id, step.attempts, step.retryable, step.delay);
    } else if step.StepCreateJob? {
      if CreateJob(s, step.id, step.kind, step.input, step.uuid).Success? {
        CreatePools(s, step.id, step.kind, step.input, step.uuid);
      }
    } else if step.StepSendZkapp? {
      if SendZkapp(s, step.id, step.input).Success? {
        SendPools(s, step.id, step.input);
      }
    } else if step.StepAcquire? {
      AcquirePools(s, step.owner, step.ttl, step.checkpoint, step.uuid);
    } else if AdmissionStep(step) {
      LeasePools(s, step);
    } else {
      WorkPools(s, step);
    }
  }
}
