/**
  The pool of pending commands over whole runs: what is in it is still waiting
  for its outcome, and what is waiting is in it.
 */
module Pool {
  import opened Common
  import opened Chain
  import opened ActionLog
  import opened Gateway
  import opened Runs
  import opened Quiet
  import opened Safety
  import opened Ownership
  import opened LifeCycle
  import Core
  import Custody
  import Admission
  import Recovery
  import Replaying
  import Ledger

  // ---------- what a rollback does to the pool ----------

  /** Nothing of the job is signed, and it has been orphaned. */
  predicate UnsignedOrphan(jobs: Jobs, id: JobId) {
    id in jobs && jobs[id].status == Reorged && jobs[id].txHash.None? && jobs[id].prepared.None?
  }

  predicate IsCommand(jobs: Jobs, id: JobId) {
    id in jobs && jobs[id].input.submission.Some?
  }

  /** Commands of unsigned orphans leave, and the retried settlement's command comes back; nothing else changes. */
  lemma PoolAfterRollback(s: Store, ancestor: int, retry: Option<JobId>, id: JobId)
    ensures var t := RollbackAfter(s, ancestor, retry);
      id in t.pending <==>
        (id in s.pending && !UnsignedOrphan(t.jobs, id)) || (retry == Some(id) && IsCommand(t.jobs, id))
  {
  }

  /**
    The settlement picked for a retry is open again after the rollback, keeps
    what was paid for and signed, and is pending again if it is a command.
   */
  lemma RetryIsPooled(y: System, ancestor: nat, id: JobId)
    requires Next(y, StepRollback(ancestor, Some(id))) != y
    ensures var j, t := y.db.jobs[id], Next(y, StepRollback(ancestor, Some(id))).db;
      && id in y.db.jobs && id in t.jobs && !Released(t.jobs[id])
      && t.jobs[id] == j.(status := if j.approved then Approved else Queued, txHash := None, block := None)
      && (j.input.submission.Some? ==> id in t.pending)
  {
    Core.RollbackNext(y, StepRollback(ancestor, Some(id)));
    RetryOutcome(y.db, ancestor, id);
    PoolAfterRollback(y.db, ancestor, Some(id), id);
  }

  // ---------- what is pending is waiting ----------

  /** Not known to have failed, been cancelled, reverted or dropped. */
  predicate MayBePending(jobs: Jobs, id: JobId) {
    id in jobs && (!Released(jobs[id]) || jobs[id].status in {Confirmed, Executed})
  }

  predicate PendingWaits(s: Store) {
    forall id :: id in s.pending ==> MayBePending(s.jobs, id)
  }

  lemma WaitingEdge(step: Step, id: JobId, j: Job, k: Job)
    requires Moves(step, id, j, k) && Evolves(j, k)
    requires !Released(j) || j.status in {Confirmed, Executed}
    requires !(step.StepCancel? && step.id == id) && !(step.StepRecordFailure? && step.id == id)
    ensures !Released(k) || k.status in {Confirmed, Executed}
  {
  }

  lemma WorkKeepsWaiting(s: Store, step: Step, id: JobId)
    requires !ByIndexer(step) && IsQuiet(s, Transact(s, step)) && MayBePending(s.jobs, id)
    requires !(step.StepCancel? && step.id == id) && !(step.StepRecordFailure? && step.id == id)
    ensures MayBePending(Transact(s, step).jobs, id)
  {
    StatusMoves(s, step, id);
    assert Evolves(s.jobs[id], Transact(s, step).jobs[id]);
    WaitingEdge(step, id, s.jobs[id], Transact(s, step).jobs[id]);
  }

  lemma CancelWaits(s: Store, step: Step, id: JobId)
    requires step.StepCancel? && step.id == id && MayBePending(s.jobs, id)
    ensures id in Transact(s, step).pending ==> MayBePending(Transact(s, step).jobs, id)
  {
    CancelIff(s, id);
  }

  lemma FailureWaits(s: Store, step: Step, id: JobId)
    requires step.StepRecordFailure? && step.id == id && MayBePending(s.jobs, id)
    ensures id in Transact(s, step).pending ==> MayBePending(Transact(s, step).jobs, id)
  {
    if s.jobs[id].attempts == step.attempts {
      FailureIff(s, id, step.attempts, step.retryable, step.delay);
      FailureOutcome(s.jobs[id], s.now, step.retryable, step.delay);
    }
  }

  /** Only a command that is sent, or sent again, joins the pool. */
  lemma WorkJoins(s: Store, step: Step, id: JobId)
    requires !ByIndexer(step) && id in Transact(s, step).pending && id !in s.pending
    ensures step.StepSendZkapp? && id in Transact(s, step).jobs && !Released(Transact(s, step).jobs[id])
  {
    if step.StepSendZkapp? {
      if SendZkapp(s, step.id, step.input).Success? {
        Admission.SentIsPooled(s, step.id, step.input, id);
      }
    } else if step.StepCreateJob? {
      if CreateJob(s, step.id, step.kind, step.input, step.uuid).Success? {
        Custody.CreatePools(s, step.id, step.kind, step.input, step.uuid);
      }
    } else {
      Core.OthersRefer(s, step);
    }
  }

  lemma StayingWaits(s: Store, step: Step, id: JobId)
    requires !ByIndexer(step) && IsQuiet(s, Transact(s, step)) && MayBePending(s.jobs, id)
    requires id in Transact(s, step).pending
    ensures MayBePending(Transact(s, step).jobs, id)
  {
    if step.StepCancel? && step.id == id {
      CancelWaits(s, step, id);
    } else if step.StepRecordFailure? && step.id == id {
      FailureWaits(s, step, id);
    } else {
      WorkKeepsWaiting(s, step, id);
    }
  }

  lemma WorkWaits(y: System, step: Step)
    requires Base(y) && PendingWaits(y.db) && !ByIndexer(step) && Possible(y, step)
    ensures PendingWaits(Transact(y.db, step))
  {
    TransactIsQuiet(y, step);
    forall id | id in Transact(y.db, step).pending
      ensures MayBePending(Transact(y.db, step).jobs, id)
    {
      if id in y.db.pending {
        StayingWaits(y.db, step, id);
      } else {
        WorkJoins(y.db, step, id);
      }
    }
  }

  lemma RollbackWaits(s: Store, ancestor: nat, retry: Option<JobId>)
    requires PendingWaits(s) && RetryChoice(s.jobs, ancestor, retry)
    ensures PendingWaits(RollbackAfter(s, ancestor, retry))
  {
    var t := RollbackAfter(s, ancestor, retry);
    forall id | id in t.pending
      ensures MayBePending(t.jobs, id)
    {
      PoolAfterRollback(s, ancestor, retry, id);
      if retry == Some(id) {
        RetryOutcome(s, ancestor, id);
      } else {
        RolledRowWaits(s, ancestor, retry, id);
      }
    }
  }

  lemma RolledRowWaits(s: Store, ancestor: nat, retry: Option<JobId>, id: JobId)
    requires id in s.pending && MayBePending(s.jobs, id) && !UnsignedOrphan(RollbackAfter(s, ancestor, retry).jobs, id)
    ensures MayBePending(RollbackAfter(s, ancestor, retry).jobs, id)
  {
  }

  lemma RolledWaits(y: System, step: Step)
    requires PendingWaits(y.db) && step.StepRollback?
    ensures PendingWaits(Next(y, step).db)
  {
    if Next(y, step) != y {
      Core.RollbackNext(y, step);
      RollbackWaits(y.db, step.ancestor, step.retry);
    }
  }

  lemma ReconciledWaits(s: Store, o: JobId, mined: Mined, final: bool)
    requires PendingWaits(s)
    ensures PendingWaits(Reconcile(s, o, mined, final))
  {
    ReconcileIff(s, o, mined, final);
  }

  lemma ConfirmedWaits(s: Store, o: JobId, e: Event)
    requires PendingWaits(s)
    ensures PendingWaits(ConfirmRecovered(s, o, e))
  {
    if o in s.jobs {
      ConfirmIff(s, o, e);
    }
  }

  lemma RewritingWaits(y: System, step: Step)
    requires PendingWaits(y.db) && (step.StepReconcile? || step.StepConfirm? || step.StepInsertRecovered?)
    ensures PendingWaits(Next(y, step).db)
  {
    if Next(y, step) != y {
      match step
      case StepReconcile(o, mined, final) =>
        Core.ReconcileNext(y, step);
        ReconciledWaits(y.db, o, mined, final);
      case StepConfirm =>
        Core.ConfirmNext(y, step);
        ConfirmedWaits(y.db, y.phase.id, y.phase.todo[0]);
      case StepInsertRecovered(o) =>
        Core.InsertRecoveredNext(y, step);
    }
  }

  /** Where the indexer leaves the rows alone, no command joins. */
  lemma OthersOnlyLeave(y: System, step: Step)
    requires ByIndexer(step) && !RewritesJobs(step)
    ensures Next(y, step).db.pending <= y.db.pending
  {
  }

  lemma IndexerWaits(y: System, step: Step)
    requires PendingWaits(y.db) && ByIndexer(step)
    ensures PendingWaits(Next(y, step).db)
  {
    if step.StepRollback? {
      RolledWaits(y, step);
    } else if RewritesJobs(step) {
      RewritingWaits(y, step);
    } else {
      OtherJobsSame(y, step);
      OthersOnlyLeave(y, step);
    }
  }

  lemma StepKeepsWaits(y: System, step: Step)
    requires Base(y) && PendingWaits(y.db)
    ensures PendingWaits(Next(y, step).db)
  {
    if ByIndexer(step) {
      IndexerWaits(y, step);
    } else if Possible(y, step) {
      WorkWaits(y, step);
    }
  }

  /**
    In every run of either mode a pending command belongs to a stored job that
    has not failed, been cancelled, reverted or been dropped as an orphan.
   */
  lemma {:induction false} PendingIsWaiting(y: System, steps: seq<Step>)
    requires Base(y) && PendingWaits(y.db)
    ensures PendingWaits(Run(y, steps).db)
    decreases |steps|
  {
    if steps != [] {
      var earlier := steps[..|steps| - 1];
      PendingIsWaiting(y, earlier);
      RunKeepsBase(y, earlier);
      StepKeepsWaits(Run(y, earlier), steps[|steps| - 1]);
    }
  }

  // ---------- a command left behind ----------

  /** A confirmed job's command, which nothing will take out of the pool any more. */
  predicate LeftBehind(s: Store, id: JobId) {
    id in s.jobs && s.jobs[id].status == Confirmed && id in s.pending
  }

  lemma WorkLeavesNone(y: System, step: Step, id: JobId)
    requires Base(y) && !ByIndexer(step) && Possible(y, step) && !LeftBehind(y.db, id)
    ensures !LeftBehind(Transact(y.db, step), id)
  {
    var s, t := y.db, Transact(y.db, step);
    TransactIsQuiet(y, step);
    if id in t.pending && id !in s.pending {
      WorkJoins(s, step, id);
    } else if id in s.jobs {
      assert Evolves(s.jobs[id], t.jobs[id]);
    }
  }

  lemma RollbackLeavesNone(s: Store, ancestor: nat, retry: Option<JobId>, id: JobId)
    requires RetryChoice(s.jobs, ancestor, retry) && !LeftBehind(s, id)
    ensures !LeftBehind(RollbackAfter(s, ancestor, retry), id)
  {
    PoolAfterRollback(s, ancestor, retry, id);
    if retry == Some(id) {
      RetryOutcome(s, ancestor, id);
    } else if id in RollbackAfter(s, ancestor, retry).jobs {
      RollbackEdge(s, ancestor, retry, id);
    }
  }

  /** What reconciliation confirms, recovery has confirmed before. */
  lemma ReconcileLeavesNone(s: Store, o: JobId, mined: Mined, final: bool, id: JobId)
    requires HashUnique(s.jobs) && AllApplied(s) && ReceiptTruthful(s, o, mined, final) && !LeftBehind(s, id)
    ensures !LeftBehind(Reconcile(s, o, mined, final), id)
  {
    ReconcileIff(s, o, mined, final);
    if o == id && Polled(s, id, mined) && final && mined.succeeded {
      var tx := s.jobs[id].txHash.value;
      assert AlreadyApplied(s, tx);
      var other :| other in s.jobs && s.jobs[other].txHash == Some(tx) && s.jobs[other].status.Confirmed?
        && Ledger.Recorded(s.ledger.history, other);
      assert CarriesHash(s.jobs[other], tx) && CarriesHash(s.jobs[id], tx);
    }
  }

  lemma InsertLeavesNone(s: Store, o: JobId, e: Event, id: JobId)
    requires Core.References(s) && o !in s.jobs && !LeftBehind(s, id)
    ensures !LeftBehind(InsertRecovered(s, o, e), id)
  {
    RebuiltRow(s, o, e);
  }

  /** Recovery confirms a job whose command is in the pool, although applying the receipt had taken it out. */
  predicate ConfirmsPending(y: System, step: Step, id: JobId) {
    step.StepConfirm? && y.phase.Applied? && y.phase.id == id && id in y.db.pending
  }

  lemma ConfirmLeavesIff(y: System, id: JobId)
    requires Core.CoreHolds(y) && !LeftBehind(y.db, id)
    ensures LeftBehind(Next(y, StepConfirm).db, id) <==> ConfirmsPending(y, StepConfirm, id)
  {
    if y.phase.Applied? {
      ConfirmIff(y.db, y.phase.id, y.phase.todo[0]);
    }
  }

  lemma RewritingLeavesNone(y: System, step: Step, id: JobId)
    requires Core.CoreHolds(y) && !LeftBehind(y.db, id)
    requires step.StepRollback? || step.StepReconcile? || step.StepInsertRecovered?
    ensures !LeftBehind(Next(y, step).db, id)
  {
    if Next(y, step) != y {
      match step
      case StepRollback(ancestor, retry) =>
        Core.RollbackNext(y, step);
        RollbackLeavesNone(y.db, ancestor, retry, id);
      case StepReconcile(o, mined, final) =>
        Core.ReconcileNext(y, step);
        ReconcileLeavesNone(y.db, o, mined, final, id);
      case StepInsertRecovered(o) =>
        Core.InsertRecoveredNext(y, step);
        InsertLeavesNone(y.db, o, y.phase.todo[0], id);
    }
  }

  /**
    In either mode a confirmed job's command is left in the pool exactly when
    recovery finds it there as it confirms the job.
   */
  lemma LeftBehindIff(y: System, step: Step, id: JobId)
    requires Core.CoreHolds(y) && !LeftBehind(y.db, id)
    ensures LeftBehind(Next(y, step).db, id) <==> ConfirmsPending(y, step, id)
  {
    if !ByIndexer(step) {
      if Possible(y, step) {
        WorkLeavesNone(y, step, id);
      }
    } else if step.StepConfirm? {
      ConfirmLeavesIff(y, id);
    } else if RewritesJobs(step) {
      RewritingLeavesNone(y, step, id);
    } else {
      OtherJobsSame(y, step);
      OthersOnlyLeave(y, step);
    }
  }

  // ---------- what is waiting is pending ----------

  /** A command of our own that is neither decided, applied to the accounts, nor orphaned. */
  predicate Waiting(s: Store, id: JobId) {
    && Core.Own(s.jobs, id) && IsCommand(s.jobs, id) && !Released(s.jobs[id]) && s.jobs[id].status != Reorged
    && !Ledger.Recorded(s.ledger.history, id)
  }

  predicate WaitingPends(s: Store) {
    forall id :: id in s.jobs && Waiting(s, id) ==> id in s.pending
  }

  /** Whatever was pending and is still waiting stays pending. */
  lemma StaysPending(y: System, step: Step, id: JobId)
    requires id in y.db.pending && Waiting(Next(y, step).db, id)
    ensures id in Next(y, step).db.pending
  {
    Custody.CommandsOutliveDoubt(y, step);
  }

  lemma NewCommandPends(s: Store, step: Step, id: JobId)
    requires step.StepSendZkapp? && id !in s.jobs && Waiting(Transact(s, step), id)
    ensures id in Transact(s, step).pending
  {
    var input := step.input;
    assert SendZkapp(s, step.id, input).Success?;
    var admitted := AdmitSettlement(s, step.id, input, input.submission.value).value;
    AdmittedIsNew(s, step.id, input, input.submission.value, id);
    Admission.SentIsPooled(s, step.id, input, id);
  }

  lemma AdmittedIsNew(s: Store, o: JobId, input: Input, submission: Submission, id: JobId)
    requires AdmitSettlement(s, o, input, submission).Success? && id !in s.jobs
    requires id in AdmitSettlement(s, o, input, submission).value.store.jobs
    ensures AdmitSettlement(s, o, input, submission).value.id == id
  {
    LockShape(s);
    InsertShape(Lock(s).value, o, Settlement, input);
  }

  lemma CreatedIsNoCommand(s: Store, step: Step, id: JobId)
    requires step.StepCreateJob? && step.input.submission.None? && id !in s.jobs && id in Transact(s, step).jobs
    ensures !IsCommand(Transact(s, step).jobs, id)
  {
    CreateShape(s, step.id, step.kind, step.input, step.uuid);
  }

  lemma NewRowPends(y: System, step: Step, id: JobId)
    requires !ByIndexer(step) && Possible(y, step) && id !in y.db.jobs && Waiting(Transact(y.db, step), id)
    ensures id in Transact(y.db, step).pending
  {
    if step.StepSendZkapp? {
      NewCommandPends(y.db, step, id);
    } else if step.StepCreateJob? {
      CreatedIsNoCommand(y.db, step, id);
    } else {
      Core.OldJobsOnly(y.db, step);
    }
  }

  lemma QuietWaited(s: Store, t: Store, id: JobId)
    requires IsQuiet(s, t) && Waiting(t, id) && id in s.jobs
    ensures Waiting(s, id)
  {
    assert Evolves(s.jobs[id], t.jobs[id]);
  }

  lemma WorkPends(y: System, step: Step, id: JobId)
    requires Base(y) && WaitingPends(y.db) && !ByIndexer(step) && Possible(y, step) && Waiting(Next(y, step).db, id)
    ensures id in Next(y, step).db.pending
  {
    TransactIsQuiet(y, step);
    if id in y.db.jobs {
      QuietWaited(y.db, Transact(y.db, step), id);
      StaysPending(y, step, id);
    } else {
      NewRowPends(y, step, id);
    }
  }

  /** In Finalized mode a rollback reopens nothing but the submitted settlement it retries. */
  lemma RolledWaited(s: Store, ancestor: nat, retry: Option<JobId>, id: JobId)
    requires TablesSound(s) && MayRollBack(s, ancestor) && RetryChoice(s.jobs, ancestor, retry)
    requires RollbackAfter(s, ancestor, retry).ledger == s.ledger && Waiting(RollbackAfter(s, ancestor, retry), id)
    ensures Waiting(s, id)
  {
    RollbackPersists(s, ancestor, retry);
    RolledBackRow(s, ancestor, retry, id);
  }

  lemma ReconcileWaited(s: Store, o: JobId, mined: Mined, final: bool, id: JobId)
    requires TablesSound(s) && ReceiptTruthful(s, o, mined, final) && Waiting(Reconcile(s, o, mined, final), id)
    ensures Waiting(s, id)
  {
    if Reconcilable(s, o, mined) {
      ReconciledJob(s, o, mined, final);
    }
  }

  lemma ConfirmWaited(s: Store, o: JobId, e: Event, id: JobId)
    requires o in s.jobs && Waiting(ConfirmRecovered(s, o, e), id)
    ensures Waiting(s, id)
  {
    ConfirmIff(s, o, e);
  }

  lemma InsertWaited(s: Store, o: JobId, e: Event, id: JobId)
    requires o !in s.jobs && Waiting(InsertRecovered(s, o, e), id)
    ensures Waiting(s, id)
  {
    RebuiltRow(s, o, e);
  }

  lemma ReceiptGrows(s: Store, id: JobId, tx: Hash, block: nat, hash: Hash, receipt: Receipt, o: JobId)
    requires ApplyReceipt(s, id, tx, block, hash, receipt).Success? && Ledger.Recorded(s.ledger.history, o)
    ensures Ledger.Recorded(ApplyReceipt(s, id, tx, block, hash, receipt).value.ledger.history, o)
  {
    ApplyRecords(s.ledger, ApplicationFor(s, id, block, hash, receipt));
  }

  lemma ApplyGrows(y: System, step: Step, o: JobId)
    requires (step.StepApply? || step.StepReconcileApply?) && Ledger.Recorded(y.db.ledger.history, o)
    ensures Ledger.Recorded(Next(y, step).db.ledger.history, o)
  {
    var s := y.db;
    match step
    case StepApply(id) =>
      if y.phase.Recovering? && y.phase.todo != [] {
        var e := y.phase.todo[0];
        if ApplyReceipt(s, id, e.tx, e.block, e.hash, e.receipt).Success? {
          ReceiptGrows(s, id, e.tx, e.block, e.hash, e.receipt, o);
        }
      }
    case StepReconcileApply(id, mined, receipt) =>
      if id in s.jobs && s.jobs[id].txHash.Some? {
        var tx := s.jobs[id].txHash.value;
        if ApplyReceipt(s, id, tx, mined.number, mined.hash, receipt).Success? {
          ReceiptGrows(s, id, tx, mined.number, mined.hash, receipt, o);
        }
      }
  }

  lemma OthersKeepLedger(y: System, step: Step)
    requires ByIndexer(step) && !RewritesJobs(step) && !step.StepApply? && !step.StepReconcileApply?
    ensures Next(y, step).db.ledger == y.db.ledger
  {
  }

  lemma ApplyWaited(y: System, step: Step, id: JobId)
    requires ByIndexer(step) && !RewritesJobs(step) && Waiting(Next(y, step).db, id)
    ensures Waiting(y.db, id)
  {
    OtherJobsSame(y, step);
    if Ledger.Recorded(y.db.ledger.history, id) {
      if step.StepApply? || step.StepReconcileApply? {
        ApplyGrows(y, step, id);
      } else {
        OthersKeepLedger(y, step);
      }
    }
  }

  lemma RewritingWaited(y: System, step: Step, id: JobId)
    requires Inv(y) && (step.StepReconcile? || step.StepConfirm? || step.StepInsertRecovered?)
    requires Waiting(Next(y, step).db, id)
    ensures Waiting(y.db, id)
  {
    if Next(y, step) != y {
      match step
      case StepReconcile(o, mined, final) =>
        Core.ReconcileNext(y, step);
        ReconcileWaited(y.db, o, mined, final, id);
      case StepConfirm =>
        Core.ConfirmNext(y, step);
        ConfirmWaited(y.db, y.phase.id, y.phase.todo[0], id);
      case StepInsertRecovered(o) =>
        Core.InsertRecoveredNext(y, step);
        InsertWaited(y.db, o, y.phase.todo[0], id);
    }
  }

  lemma RollingWaited(y: System, step: Step, id: JobId)
    requires Inv(y) && step.StepRollback? && Next(y, step).db.ledger == y.db.ledger && Waiting(Next(y, step).db, id)
    ensures Waiting(y.db, id)
  {
    if Next(y, step) != y {
      Core.RollbackNext(y, step);
      RolledWaited(y.db, step.ancestor, step.retry, id);
    }
  }

  lemma StepKeepsPends(y: System, step: Step)
    requires Base(y) && Inv(y) && WaitingPends(y.db)
    requires step.StepRollback? ==> Next(y, step).db.ledger == y.db.ledger
    ensures WaitingPends(Next(y, step).db)
  {
    forall id | id in Next(y, step).db.jobs && Waiting(Next(y, step).db, id)
      ensures id in Next(y, step).db.pending
    {
      if !ByIndexer(step) {
        if Possible(y, step) {
          WorkPends(y, step, id);
        }
      } else {
        IndexerWaited(y, step, id);
        StaysPending(y, step, id);
      }
    }
  }

  lemma IndexerWaited(y: System, step: Step, id: JobId)
    requires Inv(y) && ByIndexer(step) && Waiting(Next(y, step).db, id)
    requires step.StepRollback? ==> Next(y, step).db.ledger == y.db.ledger
    ensures Waiting(y.db, id)
  {
    if step.StepRollback? {
      RollingWaited(y, step, id);
    } else if RewritesJobs(step) {
      RewritingWaited(y, step, id);
    } else {
      ApplyWaited(y, step, id);
    }
  }

  lemma InitialPends(outerKey: Key, feeKey: Key, accounts: Ledger.Accounts)
    ensures Inv(Initial(Finalized, outerKey, feeKey, accounts)) && Base(Initial(Finalized, outerKey, feeKey, accounts))
    ensures WaitingPends(Initial(Finalized, outerKey, feeKey, accounts).db)
  {
    Core.InitialCore(Finalized, outerKey, feeKey, accounts);
  }

  /**
    In every run of Finalized mode, whatever was retried, restarted, rolled back
    or recovered, a command whose job is still waiting is pending.
   */
  lemma {:induction false} WaitingIsPending(outerKey: Key, feeKey: Key, accounts: Ledger.Accounts, y: System,
                                            steps: seq<Step>)
    requires y == Initial(Finalized, outerKey, feeKey, accounts)
    ensures WaitingPends(Run(y, steps).db)
    decreases |steps|
  {
    InitialPends(outerKey, feeKey, accounts);
    if steps != [] {
      var earlier, last := steps[..|steps| - 1], steps[|steps| - 1];
      WaitingIsPending(outerKey, feeKey, accounts, y, earlier);
      RunKeepsInv(y, earlier);
      RunKeepsBase(y, earlier);
      if last.StepRollback? {
        Recovery.RollbackUndoesNothing(outerKey, feeKey, accounts, earlier, Run(y, earlier),
                                       Replaying.BookOf(y, Recovery.BLANK, earlier), last.ancestor, last.retry);
      }
      StepKeepsPends(Run(y, earlier), last);
    }
  }
}
