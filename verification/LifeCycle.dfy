/**
  The life of a job as its status tells it: which transaction moves a row from
  where to where, what it must have found there, and what a restart, a failure
  and an operator's decision do to it.
 */
module LifeCycle {
  import opened Common
  import opened Chain
  import opened Gateway
  import opened Runs
  import opened Quiet
  import opened Ownership
  import Core
  import Ledger

  // ---------- the edges ----------

  /** What an operator approves: the digest of the prepared input, or of the request while there is none. */
  function CurrentDigest(j: Job): Hash {
    match j.preflight
    case Some(digest) => digest
    case None => j.input.digest
  }

  predicate InProgress(status: Status) {
    status in {Validating, ProofRequested, Proving, Submitting}
  }

  predicate Finished(status: Status) {
    status in {Executed, Confirmed, Failed, ProofFailed, Rejected, EthereumReverted, Reorged}
  }

  /** A proof request may have been paid for, and nobody knows its id. */
  predicate InDoubt(j: Job) {
    j.intent.Some? && j.request.None?
  }

  predicate Unsent(j: Job) {
    j.request.None? && j.intent.None? && j.prepared.None? && j.txHash.None?
  }

  /** How one transaction may move the status of the row `id`, and what it must have found there. */
  predicate Edge(step: Step, id: JobId, j: Job, k: Job) {
    k.status == j.status ||
    match step
    case StepApprove(o, digest) =>
      o == id && j.status == AwaitingApproval && digest == CurrentDigest(j) && k.status == Approved && k.approved
    case StepCancel(o) =>
      o == id && Unsent(j) && j.status in {Queued, Validating, AwaitingApproval, Approved} && k.status == Rejected
    case StepRecoverInterrupted => InProgress(j.status) && k.status == AfterRestart(j)
    case StepClaim(o) =>
      o == id && !InDoubt(j) && k.attempts == j.attempts + 1
      && ((j.status == Queued && k.status == Validating) || (j.status == Approved && k.status == Proving))
    case StepEndPreflight(o, attempts, executeOnly) =>
      o == id && j.attempts == attempts && j.status == Validating && j.intent.None?
      && k.status == (if executeOnly then Executed else AwaitingApproval)
    case StepSetProving(o, attempts) =>
      o == id && j.attempts == attempts && !(Finished(j.status) && j.status != ProofFailed) && k.status == Proving
    case StepFinishProof(o, intent, _) =>
      o == id && j.intent == Some(intent) && j.status == Proving && k.status == ProofRequested
    case StepBeginSend(o, attempts, _, _) =>
      o == id && j.attempts == attempts && j.status in {Validating, Proving, ProofRequested} && k.status == Submitting
    case StepMarkSubmitted(o, attempts) =>
      o == id && j.attempts == attempts && j.status == Submitting && k.status == Submitted
    case StepRecordFailure(o, attempts, retryable, _) =>
      o == id && j.attempts == attempts && !Finished(j.status) && k.status == AfterError(j, retryable)
    case _ => false
  }

  /** A row in doubt is parked; a broadcast without stored bytes is polled; other work starts again. */
  function AfterRestart(j: Job): Status {
    if InDoubt(j) then Queued
    else if j.txHash.Some? && j.prepared.None? then Submitted
    else if j.approved then Approved else Queued
  }

  function AfterError(j: Job, retryable: bool): Status {
    if InDoubt(j) then Queued
    else if !retryable && j.prepared.None? && j.txHash.None? then Failed
    else if j.approved then Approved else Queued
  }

  /** Only an approval sets the flag, with the digest current at that moment, and nothing takes it back. */
  predicate FlagEdge(step: Step, id: JobId, j: Job, k: Job) {
    k.approved == j.approved ||
    (step == StepApprove(id, CurrentDigest(j)) && j.status == AwaitingApproval && k.approved && k.status == Approved)
  }

  predicate Moves(step: Step, id: JobId, j: Job, k: Job) {
    Edge(step, id, j, k) && FlagEdge(step, id, j, k)
    && (k.intent == j.intent || (step.StepBeginProof? && step.id == id && j.status == Proving))
  }

  // ---------- the worker's transactions ----------

  /** The row is of the generation that writes. */
  predicate Current(s: Store, id: JobId, attempts: nat) {
    id in s.jobs && s.jobs[id].attempts == attempts
  }

  predicate Preparing(s: Store, id: JobId, attempts: nat) {
    Current(s, id, attempts) && s.jobs[id].status == Validating && s.jobs[id].intent.None?
  }

  /** A guarded update: it takes place exactly under the guard, and then rewrites one row. */
  predicate Updates(s: Store, r: Result<Store>, id: JobId, guard: bool, k: Job) {
    if guard then r == Success(s.(jobs := s.jobs[id := k])) else r == Failure(Cancelled)
  }

  lemma PreflightUpdates(s: Store, id: JobId, attempts: nat, value: Hash, executeOnly: bool)
    requires id in s.jobs
    ensures var j, guard := s.jobs[id], Preparing(s, id, attempts);
      && Updates(s, SaveDigest(s, id, attempts, value), id, guard, j.(preflight := Some(value)))
      && Updates(s, SavePreflight(s, id, attempts, value), id, guard, j.(values := Some(value)))
      && Updates(s, EndPreflight(s, id, attempts, executeOnly), id, guard,
                 j.(status := if executeOnly then Executed else AwaitingApproval))
  {
  }

  lemma ProvingUpdates(s: Store, id: JobId, attempts: nat, intent: nat)
    requires id in s.jobs
    ensures var j := s.jobs[id];
      && Updates(s, SetProving(s, id, attempts), id,
                 Current(s, id, attempts) && !(Finished(j.status) && j.status != ProofFailed), j.(status := Proving))
      && Updates(s, BeginProofRequest(s, id, attempts, intent), id,
                 Current(s, id, attempts) && j.status == Proving && j.intent.None? && j.request.None?,
                 j.(intent := Some(intent)))
  {
  }

  /** The prover's answer resolves its own intent, whichever generation brings it. */
  lemma AnswerUpdates(s: Store, id: JobId, intent: nat, request: Hash)
    requires id in s.jobs
    ensures var j := s.jobs[id];
      Updates(s, FinishProofRequest(s, id, intent, request), id,
              j.intent == Some(intent) && (j.request.None? || j.request == Some(request))
              && j.status in {Queued, Approved, Proving, ProofRequested},
              j.(request := Some(request), nextAttempt := None,
                 status := if j.status == Proving then ProofRequested else j.status))
  {
  }

  lemma ProofUpdates(s: Store, id: JobId, attempts: nat, proof: Hash, values: Hash)
    requires id in s.jobs
    ensures var j := s.jobs[id];
      && Updates(s, SaveProof(s, id, attempts, proof, values), id,
                 Current(s, id, attempts) && j.status in {Proving, ProofRequested},
                 j.(proof := Some(proof), values := Some(values)))
      && Updates(s, BeginSend(s, id, attempts, proof, values), id,
                 Current(s, id, attempts) && j.status in {Validating, Proving, ProofRequested, Submitting},
                 j.(proof := Some(proof), values := Some(values), status := Submitting,
                    txHash := if j.prepared.Some? then Some(j.prepared.value.hash) else j.txHash))
  {
  }

  lemma SendingUpdates(s: Store, id: JobId, attempts: nat, prepared: Prepared)
    requires id in s.jobs
    ensures var j, guard := s.jobs[id], Current(s, id, attempts) && s.jobs[id].status == Submitting;
      && Updates(s, PersistPrepared(s, id, attempts, prepared), id, guard && j.prepared.None?,
                 j.(prepared := Some(prepared), txHash := Some(prepared.hash)))
      && MarkSubmitted(s, id, attempts)
           == if guard then s.(jobs := s.jobs[id := j.(status := Submitted, nextAttempt := None)]) else s
  {
  }

  // ---------- every HTTP and worker step ----------

  lemma RowMoves(s: Store, r: Result<Store>, step: Step, o: JobId, guard: bool, k: Job, id: JobId)
    requires o in s.jobs && Updates(s, r, o, guard, k) && (guard ==> Moves(step, o, s.jobs[o], k)) && id in s.jobs
    ensures id in Or(s, r).jobs && Moves(step, id, s.jobs[id], Or(s, r).jobs[id])
  {
    StaysPut(step, id, s.jobs[id]);
  }

  lemma StaysPut(step: Step, id: JobId, j: Job)
    ensures Moves(step, id, j, j)
  {
  }

  /** Nothing happens to a row that is not there. */
  lemma NoRow(s: Store, step: Step)
    requires ByWorker(step) && step.id !in s.jobs
    ensures Transact(s, step) == s
  {
  }

  lemma PreflightMoves(s: Store, step: Step, id: JobId)
    requires step.StepSaveDigest? || step.StepSavePreflight? || step.StepEndPreflight?
    requires id in s.jobs && step.id in s.jobs
    ensures id in Transact(s, step).jobs && Moves(step, id, s.jobs[id], Transact(s, step).jobs[id])
  {
    var j, guard := s.jobs[step.id], Preparing(s, step.id, step.attempts);
    match step
    case StepSaveDigest(o, attempts, digest) =>
      PreflightUpdates(s, o, attempts, digest, false);
      RowMoves(s, SaveDigest(s, o, attempts, digest), step, o, guard, j.(preflight := Some(digest)), id);
    case StepSavePreflight(o, attempts, values) =>
      PreflightUpdates(s, o, attempts, values, false);
      RowMoves(s, SavePreflight(s, o, attempts, values), step, o, guard, j.(values := Some(values)), id);
    case StepEndPreflight(o, attempts, executeOnly) =>
      PreflightUpdates(s, o, attempts, 0, executeOnly);
      RowMoves(s, EndPreflight(s, o, attempts, executeOnly), step, o, guard,
               j.(status := if executeOnly then Executed else AwaitingApproval), id);
  }

  lemma SealingMoves(s: Store, step: Step, id: JobId)
    requires (step.StepSetProving? || step.StepBeginProof?) && id in s.jobs && step.id in s.jobs
    ensures id in Transact(s, step).jobs && Moves(step, id, s.jobs[id], Transact(s, step).jobs[id])
  {
    var j := s.jobs[step.id];
    match step
    case StepSetProving(o, attempts) =>
      ProvingUpdates(s, o, attempts, 0);
      RowMoves(s, SetProving(s, o, attempts), step, o,
               Current(s, o, attempts) && !(Finished(j.status) && j.status != ProofFailed), j.(status := Proving), id);
    case StepBeginProof(o, attempts, intent) =>
      ProvingUpdates(s, o, attempts, intent);
      RowMoves(s, BeginProofRequest(s, o, attempts, intent), step, o,
               Current(s, o, attempts) && j.status == Proving && j.intent.None? && j.request.None?,
               j.(intent := Some(intent)), id);
  }

  lemma AnswerMoves(s: Store, step: Step, id: JobId)
    requires step.StepFinishProof? && id in s.jobs && step.id in s.jobs
    ensures id in Transact(s, step).jobs && Moves(step, id, s.jobs[id], Transact(s, step).jobs[id])
  {
    var o, j := step.id, s.jobs[step.id];
    AnswerUpdates(s, o, step.intent, step.request);
    RowMoves(s, FinishProofRequest(s, o, step.intent, step.request), step, o,
             j.intent == Some(step.intent) && (j.request.None? || j.request == Some(step.request))
             && j.status in {Queued, Approved, Proving, ProofRequested},
             j.(request := Some(step.request), nextAttempt := None,
                status := if j.status == Proving then ProofRequested else j.status), id);
  }

  lemma ProofMoves(s: Store, step: Step, id: JobId)
    requires (step.StepSaveProof? || step.StepBeginSend?) && id in s.jobs && step.id in s.jobs
    ensures id in Transact(s, step).jobs && Moves(step, id, s.jobs[id], Transact(s, step).jobs[id])
  {
    var o, j := step.id, s.jobs[step.id];
    ProofUpdates(s, o, step.attempts, step.proof, step.values);
    match step
    case StepSaveProof(_, attempts, proof, values) =>
      RowMoves(s, SaveProof(s, o, attempts, proof, values), step, o,
               Current(s, o, attempts) && j.status in {Proving, ProofRequested},
               j.(proof := Some(proof), values := Some(values)), id);
    case StepBeginSend(_, attempts, proof, values) =>
      RowMoves(s, BeginSend(s, o, attempts, proof, values), step, o,
               Current(s, o, attempts) && j.status in {Validating, Proving, ProofRequested, Submitting},
               j.(proof := Some(proof), values := Some(values), status := Submitting,
                  txHash := if j.prepared.Some? then Some(j.prepared.value.hash) else j.txHash), id);
  }

  lemma SigningMoves(s: Store, step: Step, id: JobId)
    requires step.StepPersist? && id in s.jobs && step.id in s.jobs
    ensures id in Transact(s, step).jobs && Moves(step, id, s.jobs[id], Transact(s, step).jobs[id])
  {
    var o, j, prepared := step.id, s.jobs[step.id], step.prepared;
    SendingUpdates(s, o, step.attempts, prepared);
    RowMoves(s, PersistPrepared(s, o, step.attempts, prepared), step, o,
             Current(s, o, step.attempts) && j.status == Submitting && j.prepared.None?,
             j.(prepared := Some(prepared), txHash := Some(prepared.hash)), id);
  }

  lemma SubmittedMoves(s: Store, step: Step, id: JobId)
    requires step.StepMarkSubmitted? && id in s.jobs && step.id in s.jobs
    ensures id in Transact(s, step).jobs && Moves(step, id, s.jobs[id], Transact(s, step).jobs[id])
  {
    StaysPut(step, id, s.jobs[id]);
    SendingUpdates(s, step.id, step.attempts, Prepared(0, 0));
  }

  /** What a failure does to a row of the failed generation, column by column. */
  lemma FailureOutcome(j: Job, now: nat, retryable: bool, delay: nat)
    ensures var k := AfterFailure(j, now, retryable, delay);
      && k == j.(status := k.status, nextAttempt := k.nextAttempt, retries := k.retries)
      && (Finished(j.status) ==> k == j)
      && (!Finished(j.status) ==> k.status == AfterError(j, retryable))
      && (!Finished(j.status) && (InDoubt(j) || k.status == Failed) ==> k.nextAttempt.None? && k.retries == j.retries)
      && (!Finished(j.status) && !InDoubt(j) && k.status != Failed ==>
            k.nextAttempt == Some(now + delay) && (j.retries < 2147483647 ==> k.retries == j.retries + 1))
  {
  }

  lemma FailureMoves(s: Store, step: Step, id: JobId)
    requires step.StepRecordFailure? && id in s.jobs
    ensures id in Transact(s, step).jobs && Moves(step, id, s.jobs[id], Transact(s, step).jobs[id])
  {
    if id == step.id {
      FailureOutcome(s.jobs[id], s.now, step.retryable, step.delay);
    } else {
      FailureShape(s, step.id, step.attempts, step.retryable, step.delay);
    }
  }

  /** The whole effect of a restart on one row: a new generation for work in progress, and nothing else. */
  lemma RestartOutcome(s: Store, id: JobId)
    requires id in s.jobs
    ensures var j, t := s.jobs[id], RecoverInterrupted(s);
      && t == s.(jobs := t.jobs) && t.jobs.Keys == s.jobs.Keys
      && t.jobs[id] == if InProgress(j.status) then j.(status := AfterRestart(j), attempts := j.attempts + 1) else j
  {
  }

  /** An operator's approval succeeds exactly for the digest that waits for it, and does nothing but release the job. */
  lemma ApproveIff(s: Store, id: JobId, digest: Hash)
    ensures var r := Approve(s, id, digest);
      && (r.Success? <==> id in s.jobs && s.jobs[id].status == AwaitingApproval && digest == CurrentDigest(s.jobs[id]))
      && (r.Success? ==> r.value == s.(jobs := s.jobs[id := s.jobs[id].(status := Approved, approved := true)]))
  {
  }

  /** A job is cancelled exactly before anything of it was sealed or signed, and its command leaves the pool. */
  lemma CancelIff(s: Store, id: JobId)
    ensures var r := Cancel(s, id);
      && (r.Success? <==> id in s.jobs && Unsent(s.jobs[id])
                          && s.jobs[id].status in {Queued, Validating, AwaitingApproval, Approved})
      && (r.Success? ==> r.value == s.(jobs := s.jobs[id := s.jobs[id].(status := Rejected)],
                                       pending := s.pending - {id}))
  {
  }

  lemma DecisionMoves(s: Store, step: Step, id: JobId)
    requires (step.StepApprove? || step.StepCancel?) && id in s.jobs
    ensures id in Transact(s, step).jobs && Moves(step, id, s.jobs[id], Transact(s, step).jobs[id])
  {
    if step.StepApprove? {
      ApproveIff(s, step.id, step.digest);
    } else {
      CancelIff(s, step.id);
    }
  }

  lemma QueueMoves(s: Store, step: Step, id: JobId)
    requires (step.StepClaim? || step.StepRecoverInterrupted?) && id in s.jobs
    ensures id in Transact(s, step).jobs && Moves(step, id, s.jobs[id], Transact(s, step).jobs[id])
  {
    if step.StepClaim? {
      ClaimShape(s, step.id);
    } else {
      RestartOutcome(s, id);
    }
  }

  lemma AdmissionMoves(s: Store, step: Step, id: JobId)
    requires (step.StepCreateJob? || step.StepSendZkapp?) && id in s.jobs
    ensures id in Transact(s, step).jobs && Moves(step, id, s.jobs[id], Transact(s, step).jobs[id])
  {
    if step.StepCreateJob? {
      if CreateJob(s, step.id, step.kind, step.input, step.uuid).Success? {
        CreateJobSpares(s, step.id, step.kind, step.input, step.uuid, id);
      }
    } else if SendZkapp(s, step.id, step.input).Success? {
      SendZkappSpares(s, step.id, step.input, id);
    }
  }

  predicate ByWorker(step: Step) {
    step.StepSaveDigest? || step.StepSavePreflight? || step.StepEndPreflight? || step.StepSetProving?
    || step.StepBeginProof? || step.StepFinishProof? || step.StepSaveProof? || step.StepBeginSend? || step.StepPersist?
    || step.StepMarkSubmitted? || step.StepRecordFailure?
  }

  lemma WorkerMoves(s: Store, step: Step, id: JobId)
    requires ByWorker(step) && id in s.jobs && step.id in s.jobs
    ensures id in Transact(s, step).jobs && Moves(step, id, s.jobs[id], Transact(s, step).jobs[id])
  {
    if step.StepRecordFailure? {
      FailureMoves(s, step, id);
    } else if step.StepSetProving? || step.StepBeginProof? {
      SealingMoves(s, step, id);
    } else if step.StepFinishProof? {
      AnswerMoves(s, step, id);
    } else if step.StepSaveProof? || step.StepBeginSend? {
      ProofMoves(s, step, id);
    } else if step.StepPersist? {
      SigningMoves(s, step, id);
    } else if step.StepMarkSubmitted? {
      SubmittedMoves(s, step, id);
    } else {
      PreflightMoves(s, step, id);
    }
  }

  /** No HTTP or worker step moves a row along anything but these edges. */
  lemma StatusMoves(s: Store, step: Step, id: JobId)
    requires !ByIndexer(step) && id in s.jobs
    ensures id in Transact(s, step).jobs && Moves(step, id, s.jobs[id], Transact(s, step).jobs[id])
  {
    if ByWorker(step) {
      if step.id in s.jobs {
        WorkerMoves(s, step, id);
      } else {
        NoRow(s, step);
        StaysPut(step, id, s.jobs[id]);
      }
    } else if step.StepApprove? || step.StepCancel? {
      DecisionMoves(s, step, id);
    } else if step.StepClaim? || step.StepRecoverInterrupted? {
      QueueMoves(s, step, id);
    } else if step.StepCreateJob? || step.StepSendZkapp? {
      AdmissionMoves(s, step, id);
    } else {
      WriterStepsSpareJobs(s, step);
    }
  }

  // ---------- the indexer ----------

  /** What the indexer may do to a row it leaves in place. */
  predicate IndexerEdge(step: Step, id: JobId, j: Job, k: Job) {
    && k.approved == j.approved && k.intent == j.intent
    && (k.status == j.status ||
        match step
        case StepRollback(ancestor, retry) =>
          || k.status == Reorged
          || (k.status == (if j.approved then Approved else Queued) && j.status in {Submitted, Confirmed}
              && j.block.Some? && j.block.value.number > ancestor && (j.kind == Bridge || retry == Some(id)))
        case StepConfirm => k.status == Confirmed
        case StepReconcile(o, mined, final) =>
          o == id && j.status in {Submitted, Confirmed, Reorged} &&
          k.status == (if final && !mined.succeeded then EthereumReverted else if final then Confirmed else Submitted)
        case _ => false)
  }

  lemma RollbackEdge(s: Store, ancestor: nat, retry: Option<JobId>, id: JobId)
    requires id in s.jobs && id in RollbackAfter(s, ancestor, retry).jobs
    ensures IndexerEdge(StepRollback(ancestor, retry), id, s.jobs[id], RollbackAfter(s, ancestor, retry).jobs[id])
  {
  }

  lemma RollingMoves(y: System, step: Step, id: JobId)
    requires step.StepRollback? && id in y.db.jobs && id in Next(y, step).db.jobs
    ensures IndexerEdge(step, id, y.db.jobs[id], Next(y, step).db.jobs[id])
  {
    if id in RollbackAfter(y.db, step.ancestor, step.retry).jobs {
      RollbackEdge(y.db, step.ancestor, step.retry, id);
    }
  }

  lemma ReconcileEdge(s: Store, o: JobId, mined: Mined, final: bool, id: JobId)
    requires id in s.jobs
    ensures id in Reconcile(s, o, mined, final).jobs
    ensures IndexerEdge(StepReconcile(o, mined, final), id, s.jobs[id], Reconcile(s, o, mined, final).jobs[id])
  {
  }

  lemma ReconcilingMoves(y: System, step: Step, id: JobId)
    requires step.StepReconcile? && id in y.db.jobs && id in Next(y, step).db.jobs
    ensures IndexerEdge(step, id, y.db.jobs[id], Next(y, step).db.jobs[id])
  {
    if Next(y, step) != y {
      Core.ReconcileNext(y, step);
      ReconcileEdge(y.db, step.id, step.mined, step.final, id);
    }
  }

  lemma ConfirmEdge(s: Store, o: JobId, e: Event, id: JobId)
    requires id in s.jobs
    ensures id in ConfirmRecovered(s, o, e).jobs
    ensures IndexerEdge(StepConfirm, id, s.jobs[id], ConfirmRecovered(s, o, e).jobs[id])
  {
  }

  lemma RecoveringMoves(y: System, step: Step, id: JobId)
    requires (step.StepConfirm? || step.StepInsertRecovered?) && id in y.db.jobs && id in Next(y, step).db.jobs
    ensures IndexerEdge(step, id, y.db.jobs[id], Next(y, step).db.jobs[id])
  {
    if Next(y, step) != y {
      if step.StepConfirm? {
        Core.ConfirmNext(y, step);
        ConfirmEdge(y.db, y.phase.id, y.phase.todo[0], id);
      } else {
        Core.InsertRecoveredNext(y, step);
      }
    }
  }

  /** No step of the indexer moves a row along anything but these edges. */
  lemma IndexerMoves(y: System, step: Step, id: JobId)
    requires ByIndexer(step) && id in y.db.jobs && id in Next(y, step).db.jobs
    ensures IndexerEdge(step, id, y.db.jobs[id], Next(y, step).db.jobs[id])
  {
    if !RewritesJobs(step) {
      OtherJobsSame(y, step);
    } else if step.StepRollback? {
      RollingMoves(y, step, id);
    } else if step.StepReconcile? {
      ReconcilingMoves(y, step, id);
    } else {
      RecoveringMoves(y, step, id);
    }
  }

  // ---------- whose turn it is ----------

  /** A job that takes up the worker. */
  predicate TakesUp(status: Status) {
    InProgress(status) || status in {AwaitingApproval, Approved, Submitted}
  }

  /** Queued or approved, due, not in doubt, not behind another's reservation, and alone but for other bridges. */
  predicate HasTurn(s: Store, id: JobId) {
    && id in s.jobs && s.jobs[id].status in {Queued, Approved} && !InDoubt(s.jobs[id])
    && (s.jobs[id].nextAttempt.Some? ==> s.jobs[id].nextAttempt.value <= s.now)
    && (s.writer.reservation.Some? ==> s.writer.job == Some(id))
    && (forall o :: o in s.jobs && o != id && TakesUp(s.jobs[o].status) ==> s.jobs[id].kind == s.jobs[o].kind == Bridge)
  }

  /** A claim is the next generation of a job that has its turn, and nothing otherwise. */
  lemma ClaimIff(s: Store, id: JobId)
    ensures !s.ready ==> Claim(s, id) == s
    ensures s.ready && !HasTurn(Lock(s).value, id) ==> Claim(s, id) == Lock(s).value
    ensures s.ready && HasTurn(Lock(s).value, id) ==>
      var j := s.jobs[id];
      Claim(s, id) == Lock(s).value.(jobs := s.jobs[id :=
        j.(attempts := j.attempts + 1, status := if j.status == Approved then Proving else Validating)])
  {
  }

  /** A failure is recorded in its generation's row; the command leaves the pool exactly when the job ends by it. */
  lemma FailureIff(s: Store, id: JobId, attempts: nat, retryable: bool, delay: nat)
    requires id in s.jobs && s.jobs[id].attempts == attempts
    ensures RecordFailure(s, id, attempts, retryable, delay).Success?
    ensures var j, t := s.jobs[id], RecordFailure(s, id, attempts, retryable, delay).value;
      && t == s.(jobs := s.jobs[id := t.jobs[id]], pending := t.pending)
      && t.jobs[id] == AfterFailure(j, s.now, retryable, delay)
      && t.pending ==
           (if !Finished(j.status) && AfterError(j, retryable) == Failed then s.pending - {id} else s.pending)
  {
    FailureOutcome(s.jobs[id], s.now, retryable, delay);
  }

  /** A job that failed and will be tried again is not claimed before its delay is over. */
  lemma RetryWaits(s: Store, id: JobId, attempts: nat, retryable: bool, delay: nat, later: Store)
    requires id in s.jobs && s.jobs[id].attempts == attempts && !Finished(s.jobs[id].status) && !InDoubt(s.jobs[id])
    requires id in later.jobs && later.jobs[id] == RecordFailure(s, id, attempts, retryable, delay).value.jobs[id]
    requires later.now < s.now + delay
    ensures Claim(later, id).jobs == later.jobs
  {
    FailureIff(s, id, attempts, retryable, delay);
    FailureOutcome(s.jobs[id], s.now, retryable, delay);
    ClaimIff(later, id);
    if later.ready {
      LockShape(later);
    }
  }

  // ---------- what the chain does to a row ----------

  /** The node reports the transaction in a block of the local chain. */
  predicate Polled(s: Store, id: JobId, mined: Mined) {
    && id in s.jobs && s.jobs[id].txHash.Some? && s.jobs[id].status in {Submitted, Confirmed, Reorged}
    && mined.number in s.rows && s.rows[mined.number].canonical && s.rows[mined.number].hash == mined.hash
  }

  /** A final revert ends the job and retires its command; else the receipt's place is noted, but for an orphan. */
  lemma ReconcileIff(s: Store, id: JobId, mined: Mined, final: bool)
    ensures var t := Reconcile(s, id, mined, final);
      if !Polled(s, id, mined) then t == s
      else if final && !mined.succeeded then
        t == s.(jobs := s.jobs[id := s.jobs[id].(status := EthereumReverted)], pending := s.pending - {id})
      else if s.jobs[id].status == Reorged then t == s
      else
        t == s.(jobs := s.jobs[id := s.jobs[id].(status := if final then Confirmed else Submitted,
                                                 block := Some(Inclusion(mined.number, mined.hash)))])
  {
  }

  /** An event that recovery has applied is noted in its job, and in no other. */
  lemma ConfirmIff(s: Store, id: JobId, e: Event)
    requires id in s.jobs
    ensures ConfirmRecovered(s, id, e) ==
      s.(jobs := s.jobs[id := s.jobs[id].(status := Confirmed, values := Some(e.tx), txHash := Some(e.tx),
                                          block := Some(Inclusion(e.block, e.hash)))])
  {
  }

  predicate AboveBlock(j: Job, ancestor: int) {
    j.block.Some? && j.block.value.number > ancestor
  }

  /** A settlement of our own whose receipt the rollback orphans. */
  predicate OrphanedReceipt(j: Job, ancestor: int) {
    j.kind == Settlement && !j.input.recovered && AboveBlock(j, ancestor) && j.status in {Submitted, Confirmed}
  }

  /** A rollback retries nothing exactly when it orphans no receipt of our own; else the earliest, the older first. */
  lemma RetryIff(jobs: Jobs, ancestor: int, retry: Option<JobId>)
    requires RetryChoice(jobs, ancestor, retry)
    ensures retry.None? <==> forall id :: id in jobs ==> !OrphanedReceipt(jobs[id], ancestor)
    ensures retry.Some? ==> retry.value in jobs && OrphanedReceipt(jobs[retry.value], ancestor)
    ensures retry.Some? ==> forall id :: id in jobs && OrphanedReceipt(jobs[id], ancestor) ==>
      var first, other := jobs[retry.value].block.value.number, jobs[id].block.value.number;
      first <= other && (first == other ==> jobs[retry.value].created <= jobs[id].created)
  {
  }

  /** The settlement that a rollback retries keeps what was paid for and signed, and starts again from the queue. */
  lemma RetryOutcome(s: Store, ancestor: int, id: JobId)
    requires RetryChoice(s.jobs, ancestor, Some(id))
    ensures var j, t := s.jobs[id], RollbackAfter(s, ancestor, Some(id));
      id in t.jobs &&
      t.jobs[id] == j.(status := if j.approved then Approved else Queued, txHash := None, block := None)
  {
  }

  /** Beside a retried settlement no other one stays in the queue, in progress or confirmed. */
  lemma OnlyRetryGoesOn(s: Store, ancestor: int, retry: JobId, id: JobId)
    requires id in RollbackAfter(s, ancestor, Some(retry)).jobs && id != retry
    requires RollbackAfter(s, ancestor, Some(retry)).jobs[id].kind == Settlement
    ensures RollbackAfter(s, ancestor, Some(retry)).jobs[id].status in
      {Reorged, Executed, Failed, ProofFailed, Rejected, EthereumReverted}
  {
  }

  /** Without one, a rollback leaves every row at or below the ancestor, and every row without a receipt, as it was. */
  lemma LowRowsStay(s: Store, ancestor: int, id: JobId)
    requires id in s.jobs && !AboveBlock(s.jobs[id], ancestor)
    ensures id in RollbackAfter(s, ancestor, None).jobs && RollbackAfter(s, ancestor, None).jobs[id] == s.jobs[id]
  {
  }

  /** An orphaned bridge of our own goes back to the queue; an orphaned rebuilt row is deleted, or reorged if in use. */
  lemma HighRowsGo(s: Store, ancestor: int, retry: Option<JobId>, id: JobId)
    requires id in s.jobs && AboveBlock(s.jobs[id], ancestor)
    ensures var j, t := s.jobs[id], RollbackAfter(s, ancestor, retry);
      && (!j.input.recovered && j.kind == Bridge && j.status in {Submitted, Confirmed} ==>
            id in t.jobs &&
            t.jobs[id] == j.(status := if j.approved then Approved else Queued, txHash := None, block := None))
      && (j.input.recovered && (s.writer.job == Some(id) || id in s.pending || j.prepared.Some?) ==>
            id in t.jobs && t.jobs[id] == j.(status := Reorged))
      && (j.input.recovered && s.writer.job != Some(id) && id !in s.pending && j.prepared.None? ==> id !in t.jobs)
  {
  }

  /**
    A rollback closes the gateway, keeps the writer and the keys, marks exactly
    the events above the ancestor as removed, and lets each be indexed again.
   */
  lemma RollbackReindexes(s: Store, ancestor: int, retry: Option<JobId>, tx: Hash)
    ensures var t := RollbackAfter(s, ancestor, retry);
      && !t.ready && t.writer == s.writer && t.keys == s.keys && t.now == s.now
      && t.events.Keys == s.events.Keys && t.cursor <= ancestor && t.cursor <= s.cursor
      && (t.cursor == ancestor || t.cursor == s.cursor)
      && (tx in s.events && s.events[tx].block > ancestor ==>
            t.events[tx] == s.events[tx].(removed := true) && t.events[tx].block > t.cursor)
      && (tx in s.events && s.events[tx].block <= ancestor ==> t.events[tx] == s.events[tx])
  {
  }

  /** A row rebuilt from Ethereum is confirmed at its event, names the configured accounts, and was never ours. */
  lemma RebuiltRow(s: Store, id: JobId, e: Event)
    ensures var j := InsertRecovered(s, id, e).jobs[id];
      && InsertRecovered(s, id, e) == s.(jobs := s.jobs[id := j])
      && j.kind == e.kind && j.status == Confirmed && j.txHash == Some(e.tx) && j.values == Some(e.tx)
      && j.block == Some(Inclusion(e.block, e.hash)) && j.created == s.now && j.attempts == 0
      && j.input.recovered && j.input.key.None? && j.input.token.None? && j.input.binding.None?
      && j.intent.None? && j.request.None? && j.prepared.None? && j.proof.None? && !j.approved && j.nextAttempt.None?
      && (e.kind == Bridge ==> j.input.submission.None?)
      && (e.kind == Settlement ==>
            j.input.submission.Some? && j.input.submission.value.outer == s.outerKey
            && j.input.submission.value.feePayer == s.feeKey
            && (s.feeKey in s.ledger.accounts ==>
                  j.input.submission.value.nonce == s.ledger.accounts[s.feeKey].nonce.GetOr(0)))
  {
  }
}
