/**
  Live jobs without consensus finality: of any two, one is signed and outside
  the writer row, and only some steps put a job there or take it away again.
 */
module OneWriter {
  import opened Common
  import opened Chain
  import opened Gateway
  import opened Runs
  import opened Quiet
  import opened Safety
  import opened Ownership
  import Core
  import Ledger

  /** The job's transaction may be on the chain, and its outcome is not known. */
  predicate SignedOpen(j: Job) {
    (j.txHash.Some? || j.prepared.Some?) && !j.status.Confirmed? && !j.status.EthereumReverted?
  }

  /** Signed, open, and not the writer's. */
  predicate Stray(s: Store, id: JobId) {
    id in s.jobs && SignedOpen(s.jobs[id]) && s.writer.job != Some(id)
  }

  predicate OneLive(jobs: Jobs) {
    forall id, o :: id in jobs && o in jobs && !Released(jobs[id]) && !Released(jobs[o]) ==> id == o
  }

  // ---------- two facts that hold in either mode ----------

  /** Work that is not signed yet is the writer's. */
  predicate UnsignedAttached(s: Store) {
    forall id :: id in s.jobs && !Released(s.jobs[id]) && !SignedOpen(s.jobs[id]) ==> s.writer.job == Some(id)
  }

  predicate Signed(j: Job) {
    j.txHash.Some? || j.prepared.Some?
  }

  predicate Sent(j: Job) {
    j.status.Submitted? || j.status.Confirmed?
  }

  /** What is submitted or confirmed was signed. */
  predicate SentSigned(jobs: Jobs) {
    forall id :: id in jobs && Sent(jobs[id]) ==> Signed(jobs[id])
  }

  ghost predicate Ruled(y: System) {
    Base(y) && UnsignedAttached(y.db) && SentSigned(y.db.jobs)
  }

  lemma OpenIsLive(j: Job)
    ensures SignedOpen(j) ==> !Released(j)
    ensures Signed(j) && !Released(j) ==> SignedOpen(j)
  {
  }

  // ---------- HTTP and worker steps ----------

  lemma QuietUnsigned(s: Store, t: Store)
    requires IsQuiet(s, t) && UnsignedAttached(s)
    ensures UnsignedAttached(t)
  {
    forall id | id in t.jobs && !Released(t.jobs[id]) && !SignedOpen(t.jobs[id])
      ensures t.writer.job == Some(id)
    {
      if id in s.jobs {
        assert Evolves(s.jobs[id], t.jobs[id]);
      }
    }
  }

  lemma SendingSigned(y: System, step: Step)
    requires HoldingStored(y) && Possible(y, step) && SentSigned(y.db.jobs)
    requires step.StepMarkSubmitted? || step.StepRecoverInterrupted?
    ensures SentSigned(Transact(y.db, step).jobs)
  {
  }

  /** Every other work step leaves the sent jobs sent as they were, or is told by how jobs evolve. */
  predicate Submits(s: Store, t: Store) {
    forall id :: id in t.jobs && t.jobs[id].status.Submitted? ==> id in s.jobs && s.jobs[id].status.Submitted?
  }

  lemma OneStatusSubmits(s: Store, t: Store, id: JobId)
    requires t.jobs == s.jobs || (id in s.jobs && exists k :: t.jobs == s.jobs[id := k] && !k.status.Submitted?)
      || (id in s.jobs && exists k :: t.jobs == s.jobs[id := k] && k.status == s.jobs[id].status)
    ensures Submits(s, t)
  {
  }

  lemma PreflightSubmits(s: Store, step: Step)
    requires step.StepSaveDigest? || step.StepSavePreflight? || step.StepEndPreflight? || step.StepSetProving?
    ensures Submits(s, Transact(s, step))
  {
    var t := Transact(s, step);
    assert t == s || t.jobs == s.jobs[step.id := t.jobs[step.id]];
    OneStatusSubmits(s, t, step.id);
  }

  lemma ProvingSubmits(s: Store, step: Step)
    requires step.StepBeginProof? || step.StepFinishProof? || step.StepSaveProof?
    ensures Submits(s, Transact(s, step))
  {
    var t := Transact(s, step);
    assert t == s || t.jobs == s.jobs[step.id := t.jobs[step.id]];
    OneStatusSubmits(s, t, step.id);
  }

  lemma SendingSubmits(s: Store, step: Step)
    requires step.StepBeginSend? || step.StepPersist?
    ensures Submits(s, Transact(s, step))
  {
    var t := Transact(s, step);
    assert t == s || t.jobs == s.jobs[step.id := t.jobs[step.id]];
    OneStatusSubmits(s, t, step.id);
  }

  lemma FailureSubmits(s: Store, id: JobId, attempts: nat, retryable: bool, delay: nat)
    ensures Submits(s, Or(s, RecordFailure(s, id, attempts, retryable, delay)))
  {
    FailureShape(s, id, attempts, retryable, delay);
    if id in s.jobs {
      FailureStatus(s.jobs[id], s.now, retryable, delay);
    }
  }

  lemma FailureStatus(j: Job, now: nat, retryable: bool, delay: nat)
    ensures AfterFailure(j, now, retryable, delay).status.Submitted? ==> j.status.Submitted?
  {
  }

  lemma ClaimSubmits(s: Store, id: JobId)
    ensures Submits(s, Claim(s, id))
  {
    ClaimShape(s, id);
  }

  lemma ApproveSubmits(s: Store, id: JobId, digest: Hash)
    ensures Submits(s, Or(s, Approve(s, id, digest)))
  {
  }

  lemma CancelSubmits(s: Store, id: JobId)
    ensures Submits(s, Or(s, Cancel(s, id)))
  {
  }

  lemma QueueSubmits(s: Store, step: Step)
    requires step.StepApprove? || step.StepCancel? || step.StepClaim? || step.StepRecordFailure?
    ensures Submits(s, Transact(s, step))
  {
    match step
    case StepApprove(id, digest) => ApproveSubmits(s, id, digest);
    case StepCancel(id) => CancelSubmits(s, id);
    case StepClaim(id) => ClaimSubmits(s, id);
    case StepRecordFailure(id, attempts, retryable, delay) => FailureSubmits(s, id, attempts, retryable, delay);
  }

  lemma AdmissionSubmits(s: Store, t: Store)
    requires (forall o :: Spares(s, t, o)) && AdmissionsAttach(s, t)
    ensures Submits(s, t)
  {
    forall id | id in t.jobs && t.jobs[id].status.Submitted?
      ensures id in s.jobs && s.jobs[id].status.Submitted?
    {
      assert Spares(s, t, id);
    }
  }

  lemma CreationSubmits(s: Store, step: Step)
    requires (step.StepCreateJob? || step.StepSendZkapp?) && AdmissionsAttach(s, Transact(s, step))
    ensures Submits(s, Transact(s, step))
  {
    forall o
      ensures Spares(s, Transact(s, step), o)
    {
      if step.StepCreateJob? {
        if CreateJob(s, step.id, step.kind, step.input, step.uuid).Success? {
          CreateJobSpares(s, step.id, step.kind, step.input, step.uuid, o);
        }
      } else if SendZkapp(s, step.id, step.input).Success? {
        SendZkappSpares(s, step.id, step.input, o);
      }
    }
    AdmissionSubmits(s, Transact(s, step));
  }

  lemma ClaimedSubmits(s: Store, step: Step)
    requires step.StepSaveDigest? || step.StepSavePreflight? || step.StepEndPreflight? || step.StepSetProving?
      || step.StepBeginProof? || step.StepFinishProof? || step.StepSaveProof? || step.StepBeginSend?
      || step.StepPersist?
    ensures Submits(s, Transact(s, step))
  {
    if step.StepBeginSend? || step.StepPersist? {
      SendingSubmits(s, step);
    } else if step.StepBeginProof? || step.StepFinishProof? || step.StepSaveProof? {
      ProvingSubmits(s, step);
    } else {
      PreflightSubmits(s, step);
    }
  }

  lemma WorkSubmits(y: System, step: Step)
    requires !ByIndexer(step) && !step.StepMarkSubmitted? && !step.StepRecoverInterrupted?
    requires IsQuiet(y.db, Transact(y.db, step))
    ensures Submits(y.db, Transact(y.db, step))
  {
    var s := y.db;
    if step.StepCreateJob? || step.StepSendZkapp? {
      CreationSubmits(s, step);
    } else if step.StepRecordFailure? || step.StepClaim? || step.StepApprove? || step.StepCancel? {
      QueueSubmits(s, step);
    } else if step.Tick? || step.StepAcquire? || step.StepRenew? || step.StepRelease?
      || step.StepCallProver? || step.StepProverAnswers? || step.StepBroadcast?
    {
      WriterStepsSpareJobs(s, step);
    } else {
      ClaimedSubmits(s, step);
    }
  }

  lemma SubmitsKeepsSigned(s: Store, t: Store)
    requires SentSigned(s.jobs) && IsQuiet(s, t) && Submits(s, t)
    ensures SentSigned(t.jobs)
  {
    forall id | id in t.jobs && Sent(t.jobs[id])
      ensures Signed(t.jobs[id])
    {
      if id in s.jobs {
        assert Evolves(s.jobs[id], t.jobs[id]);
      }
    }
  }

  lemma WorkKeepsRuled(y: System, step: Step)
    requires Ruled(y) && Possible(y, step) && !ByIndexer(step)
    ensures Ruled(Next(y, step))
  {
    WorkKeepsBase(y, step);
    TransactIsQuiet(y, step);
    QuietUnsigned(y.db, Transact(y.db, step));
    if step.StepMarkSubmitted? || step.StepRecoverInterrupted? {
      SendingSigned(y, step);
    } else {
      WorkSubmits(y, step);
      SubmitsKeepsSigned(y.db, Transact(y.db, step));
    }
  }

  // ---------- the indexer ----------

  lemma RollbackRuled(s: Store, ancestor: int, retry: Option<JobId>)
    requires SaneJobs(s.jobs) && UnsignedAttached(s) && SentSigned(s.jobs)
    ensures UnsignedAttached(RollbackAfter(s, ancestor, retry)) && SentSigned(RollbackAfter(s, ancestor, retry).jobs)
  {
    var t := RollbackAfter(s, ancestor, retry);
    forall id | id in t.jobs
      ensures Signed(s.jobs[id]) ==> Signed(t.jobs[id])
      ensures Sent(t.jobs[id]) ==> Sent(s.jobs[id])
      ensures !Released(t.jobs[id]) && !Signed(t.jobs[id]) ==> !Released(s.jobs[id])
    {
      RolledBackRow(s, ancestor, retry, id);
    }
    forall id | id in t.jobs && !Released(t.jobs[id]) && !SignedOpen(t.jobs[id])
      ensures t.writer.job == Some(id)
    {
      OpenIsLive(t.jobs[id]);
      OpenIsLive(s.jobs[id]);
    }
  }

  lemma ConfirmRuled(s: Store, id: JobId, e: Event)
    requires UnsignedAttached(s) && SentSigned(s.jobs) && id in s.jobs
    ensures UnsignedAttached(ConfirmRecovered(s, id, e)) && SentSigned(ConfirmRecovered(s, id, e).jobs)
  {
  }

  lemma InsertRuled(s: Store, id: JobId, e: Event)
    requires UnsignedAttached(s) && SentSigned(s.jobs) && id !in s.jobs
    ensures UnsignedAttached(InsertRecovered(s, id, e)) && SentSigned(InsertRecovered(s, id, e).jobs)
  {
  }

  lemma ReconcileRuled(s: Store, id: JobId, mined: Mined, final: bool)
    requires UnsignedAttached(s) && SentSigned(s.jobs)
    ensures UnsignedAttached(Reconcile(s, id, mined, final)) && SentSigned(Reconcile(s, id, mined, final).jobs)
  {
  }

  lemma SameJobsRuled(s: Store, t: Store)
    requires UnsignedAttached(s) && SentSigned(s.jobs) && t.jobs == s.jobs && t.writer == s.writer
    ensures UnsignedAttached(t) && SentSigned(t.jobs)
  {
  }

  predicate JobsRuled(s: Store) {
    UnsignedAttached(s) && SentSigned(s.jobs)
  }

  lemma RecoveringKeepsRuled(y: System, step: Step)
    requires Base(y) && JobsRuled(y.db) && (step.StepInsertRecovered? || step.StepConfirm?)
    ensures JobsRuled(Next(y, step).db)
  {
    if Next(y, step).db != y.db {
      if step.StepConfirm? {
        ConfirmRuled(y.db, y.phase.id, y.phase.todo[0]);
      } else {
        InsertRuled(y.db, step.id, y.phase.todo[0]);
      }
    }
  }

  lemma RewritingKeepsRuled(y: System, step: Step)
    requires Ruled(y) && RewritesJobs(step)
    ensures JobsRuled(Next(y, step).db)
  {
    if step.StepRollback? {
      RollbackRuled(y.db, step.ancestor, step.retry);
    } else if step.StepReconcile? {
      ReconcileRuled(y.db, step.id, step.mined, step.final);
    } else {
      RecoveringKeepsRuled(y, step);
    }
  }

  lemma StepKeepsRuled(y: System, step: Step)
    requires Ruled(y)
    ensures Ruled(Next(y, step))
  {
    if !ByIndexer(step) {
      if Possible(y, step) {
        WorkKeepsRuled(y, step);
      }
    } else {
      StepKeepsBase(y, step);
      if RewritesJobs(step) {
        RewritingKeepsRuled(y, step);
      } else {
        IndexerLeavesWriter(y, step);
        OtherJobsSame(y, step);
        SameJobsRuled(y.db, Next(y, step).db);
      }
    }
  }

  lemma {:induction false} RunKeepsRuled(y: System, steps: seq<Step>)
    requires Ruled(y)
    ensures Ruled(Run(y, steps))
    decreases |steps|
  {
    if steps != [] {
      RunKeepsRuled(y, steps[..|steps| - 1]);
      StepKeepsRuled(Run(y, steps[..|steps| - 1]), steps[|steps| - 1]);
    }
  }

  // ---------- one step and the rule ----------

  /** Of two live jobs, one is signed and outside the writer row. */
  lemma TwoLiveIff(s: Store)
    requires UnsignedAttached(s)
    ensures OneLive(s.jobs) <==> !exists id, o :: Stray(s, id) && o in s.jobs && o != id && !Released(s.jobs[o])
  {
    forall id, o | id in s.jobs && o in s.jobs && !Released(s.jobs[id]) && !Released(s.jobs[o]) && id != o
      ensures Stray(s, id) || Stray(s, o)
    {
    }
    forall id | Stray(s, id)
      ensures !Released(s.jobs[id])
    {
      OpenIsLive(s.jobs[id]);
    }
  }

  /** While the gateway is open, no two jobs are live. */
  predicate OpenRule(y: System) {
    y.db.ready ==> OneLive(y.db.jobs)
  }

  /** A confirmed job whose receipt is found not final any more. */
  ghost predicate Reopens(y: System, id: JobId, mined: Mined, final: bool) {
    y.phase.Reconciling? && ReceiptTruthful(y.db, id, mined, final) && Reconcilable(y.db, id, mined)
    && y.db.jobs[id].status.Confirmed? && !final
  }

  predicate OtherLive(s: Store, id: JobId) {
    exists o :: o in s.jobs && o != id && !Released(s.jobs[o])
  }

  /** After the step two jobs are live while the gateway is open, told from the tables before it. */
  ghost predicate Doubles(y: System, step: Step) {
    match step
    case StepReconcile(id, mined, final) => y.db.ready && Reopens(y, id, mined, final) && OtherLive(y.db, id)
    case StepReady => y.phase.Reconciling? && exists id :: Stray(y.db, id) && OtherLive(y.db, id)
    case _ => false
  }

  lemma QuietOneLive(s: Store, t: Store)
    requires IsQuiet(s, t) && OneLive(s.jobs)
    ensures OneLive(t.jobs)
  {
    forall id | id in t.jobs && !Released(t.jobs[id])
      ensures id in s.jobs ==> !Released(s.jobs[id])
    {
      if id in s.jobs {
        assert Evolves(s.jobs[id], t.jobs[id]);
      }
    }
  }

  lemma ReadyTaken(y: System)
    requires y.phase.Reconciling?
    ensures Next(y, StepReady).db == y.db.(ready := true)
  {
  }

  lemma StrayBesideLive(s: Store)
    requires UnsignedAttached(s)
    ensures OneLive(s.jobs) <==> !exists id :: Stray(s, id) && OtherLive(s, id)
  {
    TwoLiveIff(s);
  }

  lemma ReadyIff(y: System)
    requires UnsignedAttached(y.db) && OpenRule(y)
    ensures OpenRule(Next(y, StepReady)) <==> !Doubles(y, StepReady)
  {
    if y.phase.Reconciling? {
      ReadyTaken(y);
      StrayBesideLive(y.db);
    }
  }

  lemma ReopenedIff(y: System, id: JobId, mined: Mined, final: bool)
    requires y.db.ready && OneLive(y.db.jobs) && Reopens(y, id, mined, final)
    ensures OneLive(Reconcile(y.db, id, mined, final).jobs) <==> !OtherLive(y.db, id)
  {
    var jobs := Reconcile(y.db, id, mined, final).jobs;
    assert id in jobs && !Released(jobs[id]);
    assert forall o :: o in y.db.jobs && o != id ==> o in jobs && jobs[o] == y.db.jobs[o];
  }

  lemma ReconcileTaken(y: System, id: JobId, mined: Mined, final: bool)
    requires Reopens(y, id, mined, final)
    ensures Next(y, StepReconcile(id, mined, final)).db == Reconcile(y.db, id, mined, final)
    ensures Reconcile(y.db, id, mined, final).ready == y.db.ready
  {
  }

  lemma ReopeningIff(y: System, id: JobId, mined: Mined, final: bool)
    requires OpenRule(y) && Reopens(y, id, mined, final)
    ensures OpenRule(Next(y, StepReconcile(id, mined, final))) <==> !Doubles(y, StepReconcile(id, mined, final))
  {
    ReconcileTaken(y, id, mined, final);
    if y.db.ready {
      ReopenedIff(y, id, mined, final);
    }
  }

  lemma ReconcileIff(y: System, id: JobId, mined: Mined, final: bool)
    requires Ruled(y) && OpenRule(y)
    ensures OpenRule(Next(y, StepReconcile(id, mined, final))) <==> !Doubles(y, StepReconcile(id, mined, final))
  {
    if Reopens(y, id, mined, final) {
      ReopeningIff(y, id, mined, final);
    } else {
      NotReopened(y, id, mined, final);
    }
  }

  lemma NotReopened(y: System, id: JobId, mined: Mined, final: bool)
    requires Ruled(y) && OpenRule(y) && !Reopens(y, id, mined, final)
    ensures OpenRule(Next(y, StepReconcile(id, mined, final)))
  {
    var s, t := y.db, Next(y, StepReconcile(id, mined, final)).db;
    forall o | o in t.jobs && !Released(t.jobs[o])
      ensures o in s.jobs && !Released(s.jobs[o])
    {
    }
  }

  lemma InsertOneLive(s: Store, id: JobId, e: Event)
    requires OneLive(s.jobs) && id !in s.jobs
    ensures OneLive(InsertRecovered(s, id, e).jobs)
  {
  }

  lemma ConfirmOneLive(s: Store, id: JobId, e: Event)
    requires OneLive(s.jobs) && id in s.jobs
    ensures OneLive(ConfirmRecovered(s, id, e).jobs)
  {
  }

  lemma RewritingOneLive(y: System, step: Step)
    requires Ruled(y) && OpenRule(y) && RewritesJobs(step) && !step.StepReconcile?
    ensures OpenRule(Next(y, step))
  {
    if Next(y, step).db != y.db && Next(y, step).db.ready {
      match step
      case StepInsertRecovered(id) => InsertOneLive(y.db, id, y.phase.todo[0]);
      case StepConfirm => ConfirmOneLive(y.db, y.phase.id, y.phase.todo[0]);
      case StepRollback(_, _) =>
    }
  }

  lemma OtherReadySame(y: System, step: Step)
    requires ByIndexer(step) && !RewritesJobs(step) && !step.StepReady?
    ensures Next(y, step).db.ready == y.db.ready
  {
  }

  lemma WorkOneLive(y: System, step: Step)
    requires Ruled(y) && OpenRule(y) && !ByIndexer(step)
    ensures OpenRule(Next(y, step))
  {
    if Possible(y, step) {
      TransactIsQuiet(y, step);
      if y.db.ready {
        QuietOneLive(y.db, Transact(y.db, step));
      }
    }
  }

  lemma StepDoublesIff(y: System, step: Step)
    requires Ruled(y) && OpenRule(y)
    ensures OpenRule(Next(y, step)) <==> !Doubles(y, step)
  {
    if !ByIndexer(step) {
      WorkOneLive(y, step);
    } else if step.StepReady? {
      ReadyIff(y);
    } else if step.StepReconcile? {
      ReconcileIff(y, step.id, step.mined, step.final);
    } else if RewritesJobs(step) {
      RewritingOneLive(y, step);
    } else {
      OtherJobsSame(y, step);
      OtherReadySame(y, step);
    }
  }

  // ---------- where jobs outside the writer row come from ----------

  /** The rollback touches a confirmed job: it is orphaned, invalidated or sent back to the queue. */
  predicate Unsettles(s: Store, ancestor: int, retry: Option<JobId>, id: JobId)
    requires id in s.jobs
  {
    || Orphaned(s.jobs[id], ancestor)
    || (retry.Some? && retry != Some(id) && s.jobs[id].kind.Settlement?)
    || (Above(s.jobs[id], ancestor) && (s.jobs[id].kind.Bridge? || retry == Some(id)))
  }

  /** A finished job is put in doubt while it no longer holds the writer row. */
  ghost predicate Orphans(y: System, step: Step, id: JobId) {
    match step
    case StepRollback(ancestor, retry) =>
      && y.phase.Indexing? && MayRollBack(y.db, ancestor) && RetryChoice(y.db.jobs, ancestor, retry)
      && id in y.db.jobs && y.db.writer.job != Some(id) && !Deleted(y.db, ancestor, id)
      && ((y.db.jobs[id].status.Confirmed? && Unsettles(y.db, ancestor, retry, id))
          || (y.db.jobs[id].status.EthereumReverted? && Orphaned(y.db.jobs[id], ancestor) && Signed(y.db.jobs[id])))
    case StepReconcile(o, mined, final) => o == id && Reopens(y, id, mined, final) && y.db.writer.job != Some(id)
    case _ => false
  }

  lemma RollbackStrayIff(s: Store, ancestor: int, retry: Option<JobId>, id: JobId)
    requires SaneJobs(s.jobs) && JobsRuled(s) && !Stray(s, id)
    ensures Stray(RollbackAfter(s, ancestor, retry), id) <==>
      (id in s.jobs && s.writer.job != Some(id) && !Deleted(s, ancestor, id)
       && ((s.jobs[id].status.Confirmed? && Unsettles(s, ancestor, retry, id))
           || (s.jobs[id].status.EthereumReverted? && Orphaned(s.jobs[id], ancestor) && Signed(s.jobs[id]))))
  {
    if id in s.jobs {
      OpenIsLive(s.jobs[id]);
      RolledBackRow(s, ancestor, retry, id);
    }
  }

  lemma ReconcileStrayIff(y: System, id: JobId, o: JobId, mined: Mined, final: bool)
    requires JobsRuled(y.db) && !Stray(y.db, id)
    ensures Stray(Next(y, StepReconcile(o, mined, final)).db, id) <==>
      (o == id && Reopens(y, id, mined, final) && y.db.writer.job != Some(id))
  {
    if id in y.db.jobs {
      OpenIsLive(y.db.jobs[id]);
    }
  }

  lemma QuietStray(s: Store, t: Store, id: JobId)
    requires IsQuiet(s, t) && UnsignedAttached(s) && !Stray(s, id)
    ensures !Stray(t, id)
  {
    if id in s.jobs {
      assert Evolves(s.jobs[id], t.jobs[id]);
      OpenIsLive(s.jobs[id]);
    }
  }

  lemma RecoveringStray(y: System, step: Step, id: JobId)
    requires Base(y) && (step.StepInsertRecovered? || step.StepConfirm?) && !Stray(y.db, id)
    ensures !Stray(Next(y, step).db, id)
  {
  }

  lemma WorkStray(y: System, step: Step, id: JobId)
    requires Ruled(y) && !Stray(y.db, id) && !ByIndexer(step)
    ensures !Stray(Next(y, step).db, id)
  {
    if Possible(y, step) {
      TransactIsQuiet(y, step);
      QuietStray(y.db, Transact(y.db, step), id);
    }
  }

  lemma RollingStrayIff(y: System, step: Step, id: JobId)
    requires Ruled(y) && !Stray(y.db, id) && step.StepRollback?
    ensures Stray(Next(y, step).db, id) <==> Orphans(y, step, id)
  {
    RollbackStrayIff(y.db, step.ancestor, step.retry, id);
  }

  lemma RewritingStrayIff(y: System, step: Step, id: JobId)
    requires Ruled(y) && !Stray(y.db, id) && (step.StepInsertRecovered? || step.StepConfirm? || step.StepReconcile?)
    ensures Stray(Next(y, step).db, id) <==> Orphans(y, step, id)
  {
    if step.StepReconcile? {
      ReconcileStrayIff(y, id, step.id, step.mined, step.final);
    } else {
      RecoveringStray(y, step, id);
    }
  }

  /**
    A signed job comes to be open outside the writer row exactly when a rollback
    or a reconciliation puts a finished job in doubt that has left the row.
   */
  lemma StrayIff(y: System, step: Step, id: JobId)
    requires Ruled(y) && !Stray(y.db, id)
    ensures Stray(Next(y, step).db, id) <==> Orphans(y, step, id)
  {
    if !ByIndexer(step) {
      WorkStray(y, step, id);
    } else if step.StepRollback? {
      RollingStrayIff(y, step, id);
    } else if RewritesJobs(step) {
      RewritingStrayIff(y, step, id);
    } else {
      OtherJobsSame(y, step);
      IndexerLeavesWriter(y, step);
    }
  }

  // ---------- where they go ----------

  /**
    A job outside the writer row is dealt with: a rollback deletes it, recovery
    confirms it from its event, or reconciliation finds its receipt final.  A
    reorged job's final success is left for recovery to confirm.
   */
  ghost predicate Ends(y: System, step: Step, id: JobId) {
    match step
    case StepRollback(ancestor, retry) =>
      && y.phase.Indexing? && MayRollBack(y.db, ancestor) && RetryChoice(y.db.jobs, ancestor, retry)
      && id in y.db.jobs && Deleted(y.db, ancestor, id)
    case StepConfirm => y.phase.Applied? && y.phase.id == id
    case StepReconcile(o, mined, final) =>
      && o == id && y.phase.Reconciling? && ReceiptTruthful(y.db, id, mined, final) && Reconcilable(y.db, id, mined)
      && final && !(y.db.jobs[id].status.Reorged? && mined.succeeded)
    case _ => false
  }

  /** The writer row is given up, kept, or taken by a job that did not exist. */
  predicate TakenByNew(s: Store, t: Store) {
    t.writer.job.None? || t.writer.job == s.writer.job || t.writer.job.value !in s.jobs
  }

  lemma CreateTakenByNew(s: Store, id: JobId, kind: Kind, input: Input, uuid: nat)
    requires CreateJob(s, id, kind, input, uuid).Success?
    ensures TakenByNew(s, CreateJob(s, id, kind, input, uuid).value)
  {
    LockShape(s);
    var locked := Lock(s).value;
    InsertShape(locked, id, kind, input);
    var made := InsertJob(locked, id, kind, input).value;
    if made.id == id && id !in locked.jobs {
      AttachShape(made.store, id, kind, input, uuid);
    }
  }

  lemma SendTakenByNew(s: Store, id: JobId, input: Input)
    requires SendZkapp(s, id, input).Success?
    ensures TakenByNew(s, SendZkapp(s, id, input).value)
  {
    LockShape(s);
    var locked := Lock(s).value;
    InsertShape(locked, id, Settlement, input);
    var made := InsertJob(locked, id, Settlement, input).value;
    if made.id == id && id !in locked.jobs {
      AttachShape(made.store, id, Settlement, input, 0);
    }
  }

  lemma WorkTakenByNew(s: Store, step: Step)
    requires !ByIndexer(step)
    ensures TakenByNew(s, Transact(s, step))
  {
    if step.StepCreateJob? {
      if CreateJob(s, step.id, step.kind, step.input, step.uuid).Success? {
        CreateTakenByNew(s, step.id, step.kind, step.input, step.uuid);
      }
    } else if step.StepSendZkapp? {
      if SendZkapp(s, step.id, step.input).Success? {
        SendTakenByNew(s, step.id, step.input);
      }
    } else {
      Core.OthersRefer(s, step);
    }
  }

  lemma QuietKeepsStray(s: Store, t: Store, id: JobId)
    requires IsQuiet(s, t) && TakenByNew(s, t) && Stray(s, id)
    ensures Stray(t, id)
  {
    assert Evolves(s.jobs[id], t.jobs[id]);
  }

  lemma WorkKeepsStray(y: System, step: Step, id: JobId)
    requires Ruled(y) && Stray(y.db, id) && !ByIndexer(step)
    ensures Stray(Next(y, step).db, id)
  {
    if Possible(y, step) {
      TransactIsQuiet(y, step);
      WorkTakenByNew(y.db, step);
      QuietKeepsStray(y.db, Transact(y.db, step), id);
    }
  }

  /** The retried job keeps its signed bytes, so only deletion ends one. */
  lemma RollbackEndsIff(s: Store, ancestor: int, retry: Option<JobId>, id: JobId)
    requires SaneJobs(s.jobs) && Stray(s, id)
    ensures Stray(RollbackAfter(s, ancestor, retry), id) <==> !Deleted(s, ancestor, id)
  {
    RolledBackRow(s, ancestor, retry, id);
  }

  lemma RollingEndsIff(y: System, step: Step, id: JobId)
    requires SaneJobs(y.db.jobs) && Stray(y.db, id) && step.StepRollback?
    ensures !Stray(Next(y, step).db, id) <==> Ends(y, step, id)
  {
    RollbackEndsIff(y.db, step.ancestor, step.retry, id);
  }

  lemma ReconcileEndsIff(y: System, id: JobId, o: JobId, mined: Mined, final: bool)
    requires Stray(y.db, id)
    ensures !Stray(Next(y, StepReconcile(o, mined, final)).db, id) <==> Ends(y, StepReconcile(o, mined, final), id)
  {
  }

  lemma RecoveringEndsIff(y: System, step: Step, id: JobId)
    requires ApplyingOwner(y) && Stray(y.db, id) && (step.StepInsertRecovered? || step.StepConfirm?)
    ensures !Stray(Next(y, step).db, id) <==> Ends(y, step, id)
  {
  }

  /** A job outside the writer row stops being open there exactly when it is dealt with. */
  lemma StrayEndsIff(y: System, step: Step, id: JobId)
    requires Ruled(y) && Stray(y.db, id)
    ensures !Stray(Next(y, step).db, id) <==> Ends(y, step, id)
  {
    if !ByIndexer(step) {
      WorkKeepsStray(y, step, id);
    } else if step.StepRollback? {
      RollingEndsIff(y, step, id);
    } else if step.StepReconcile? {
      ReconcileEndsIff(y, id, step.id, step.mined, step.final);
    } else if RewritesJobs(step) {
      RecoveringEndsIff(y, step, id);
    } else {
      OtherJobsSame(y, step);
      IndexerLeavesWriter(y, step);
    }
  }
}
