/**
  Properties of whole runs that hold in both finality modes: who may change a
  job, what crosses to the prover and to the chain, and when the writer and
  the command pool let go of a job.
 */
module Ownership {
  import opened Common
  import opened Chain
  import opened ActionLog
  import opened Gateway
  import opened Runs
  import opened Quiet
  import Ledger

  // ---------- what every step keeps of a stored job ----------

  predicate Persists(j: Job, k: Job) {
    k.kind == j.kind && k.input == j.input && j.attempts <= k.attempts
    && Kept(j.intent, k.intent) && Kept(j.request, k.request) && Kept(j.prepared, k.prepared)
  }

  /** Only a row rebuilt from Ethereum, with nothing signed, is ever deleted. */
  predicate JobsPersist(before: Jobs, after: Jobs) {
    forall id :: id in before ==>
      if id in after then Persists(before[id], after[id]) else before[id].input.recovered && before[id].prepared.None?
  }

  predicate Aftermath(status: Status) {
    status.Confirmed? || status.Submitted? || status.Reorged? || status.EthereumReverted?
  }

  /** A rebuilt row never enters the work queue. */
  predicate RecoveredIdle(jobs: Jobs) {
    forall id :: id in jobs && jobs[id].input.recovered ==>
      Aftermath(jobs[id].status) && jobs[id].intent.None? && jobs[id].request.None? && jobs[id].prepared.None?
  }

  /** Any job of our own with a transaction hash holds the signed bytes of that very hash. */
  predicate HashesMatch(jobs: Jobs) {
    forall id :: id in jobs && !jobs[id].input.recovered && jobs[id].txHash.Some? ==>
      jobs[id].prepared.Some? && jobs[id].txHash.value == jobs[id].prepared.value.hash
  }

  predicate SaneJobs(jobs: Jobs) {
    NoProofFailures(jobs) && RecoveredIdle(jobs) && HashesMatch(jobs)
  }

  // ---------- what the outside holds ----------

  predicate ClaimsKnown(y: System) {
    forall c :: c in y.out.claims ==>
      c.job in y.db.jobs && !y.db.jobs[c.job].input.recovered && c.attempts <= y.db.jobs[c.job].attempts
  }

  predicate Sealed(jobs: Jobs, c: Call) {
    c.job in jobs && jobs[c.job].intent == Some(c.intent)
  }

  predicate CallsSealed(y: System) {
    && (forall c :: c in y.out.intents ==> Sealed(y.db.jobs, c))
    && (forall i :: 0 <= i < |y.out.calls| ==> Sealed(y.db.jobs, y.out.calls[i]))
  }

  /** No job is in the prover's call log twice, and one still holding its intent is not in it at all. */
  predicate CalledOnce(y: System) {
    && (forall i, j :: 0 <= i < j < |y.out.calls| ==>
          y.out.calls[i].job != y.out.calls[j].job && y.out.calls[i].intent != y.out.calls[j].intent)
    && (forall i, c :: 0 <= i < |y.out.calls| && c in y.out.intents ==>
          y.out.calls[i].job != c.job && y.out.calls[i].intent != c.intent)
    && (forall c, d :: c in y.out.intents && d in y.out.intents && c != d ==> c.job != d.job && c.intent != d.intent)
  }

  predicate OneAnswer(out: Outside) {
    && (forall a, b :: a in out.answers && b in out.answers && a.intent == b.intent ==> a == b)
    && (forall a :: a in out.answers ==> exists i :: 0 <= i < |out.calls| && out.calls[i].intent == a.intent)
  }

  /** A stored request id is the prover's answer to this job's own call. */
  predicate Answered(out: Outside, id: JobId, j: Job) {
    j.request.Some? ==>
      j.intent.Some? && Call(id, j.intent.value) in out.calls && Answer(j.intent.value, j.request.value) in out.answers
  }

  predicate RequestsAnswered(y: System) {
    forall id :: id in y.db.jobs ==> Answered(y.out, id, y.db.jobs[id])
  }

  predicate HoldingStored(y: System) {
    && (forall h :: h in y.out.holding ==> h.job in y.db.jobs && y.db.jobs[h.job].prepared == Some(h.prepared))
    && (forall i :: 0 <= i < |y.out.broadcasts| ==>
          var b := y.out.broadcasts[i];
          b.job in y.db.jobs && y.db.jobs[b.job].prepared.Some? && y.db.jobs[b.job].prepared.value.raw == b.raw)
  }

  predicate ApplyingOwner(y: System) {
    y.phase.Applied? ==>
      y.phase.todo != [] && y.phase.id in y.db.jobs && CarriesHash(y.db.jobs[y.phase.id], y.phase.todo[0].tx)
  }

  predicate Base(y: System) {
    && WriterChecked(y.db.writer) && SaneJobs(y.db.jobs)
    && ClaimsKnown(y) && CallsSealed(y) && CalledOnce(y) && OneAnswer(y.out) && RequestsAnswered(y) && HoldingStored(y)
    && ApplyingOwner(y)
  }

  // ---------- persistence ----------

  lemma QuietPersists(s: Store, t: Store)
    requires IsQuiet(s, t)
    ensures JobsPersist(s.jobs, t.jobs)
  {
    forall id | id in s.jobs
      ensures id in t.jobs && Persists(s.jobs[id], t.jobs[id])
    {
      assert Evolves(s.jobs[id], t.jobs[id]);
    }
  }

  lemma RolledBackRow(s: Store, ancestor: int, retry: Option<JobId>, id: JobId)
    requires id in s.jobs
    ensures var j, k := s.jobs[id], RolledBack(s, ancestor, retry, id);
      && Persists(j, k) && k.request == j.request && k.intent == j.intent && k.prepared == j.prepared
      && (k.txHash == j.txHash || k.txHash.None?)
      && (k.status.ProofFailed? ==> j.status.ProofFailed?)
      && (j.input.recovered ==> k.status == j.status || k.status.Reorged?)
  {
  }

  lemma RollbackJobsSane(s: Store, ancestor: int, retry: Option<JobId>)
    ensures IndexerJobs(s.jobs, RollbackAfter(s, ancestor, retry).jobs)
  {
    var jobs := RollbackAfter(s, ancestor, retry).jobs;
    forall id | id in jobs
      ensures id in s.jobs && jobs[id] == RolledBack(s, ancestor, retry, id)
      ensures Persists(s.jobs[id], jobs[id]) && jobs[id].request == s.jobs[id].request
    {
      RolledBackRow(s, ancestor, retry, id);
    }
    if SaneJobs(s.jobs) {
      forall id | id in jobs
        ensures !jobs[id].status.ProofFailed?
        ensures jobs[id].input.recovered ==> Aftermath(jobs[id].status)
        ensures jobs[id].input.recovered ==> jobs[id].intent.None? && jobs[id].request.None? && jobs[id].prepared.None?
        ensures !jobs[id].input.recovered && jobs[id].txHash.Some? ==>
          jobs[id].prepared.Some? && jobs[id].txHash.value == jobs[id].prepared.value.hash
      {
        RolledBackRow(s, ancestor, retry, id);
      }
    }
  }

  /** The indexer's row changes persist what must, stay sane and touch no request id. */
  predicate IndexerJobs(before: Jobs, after: Jobs) {
    && JobsPersist(before, after)
    && (SaneJobs(before) ==> SaneJobs(after))
    && (forall id :: id in after ==>
          if id in before then after[id].request == before[id].request else after[id].request.None?)
  }

  lemma UnchangedJobs(jobs: Jobs)
    ensures IndexerJobs(jobs, jobs)
  {
  }

  predicate SaneRow(j: Job) {
    && !j.status.ProofFailed?
    && (j.input.recovered ==> Aftermath(j.status) && j.intent.None? && j.request.None? && j.prepared.None?)
    && (!j.input.recovered && j.txHash.Some? ==> j.prepared.Some? && j.txHash.value == j.prepared.value.hash)
  }

  lemma SaneByRow(jobs: Jobs)
    ensures SaneJobs(jobs) <==> forall id :: id in jobs ==> SaneRow(jobs[id])
  {
  }

  /** One row rewritten by the indexer. */
  lemma OneRowJobs(jobs: Jobs, id: JobId, k: Job)
    requires id in jobs && Persists(jobs[id], k) && k.request == jobs[id].request && (SaneRow(jobs[id]) ==> SaneRow(k))
    ensures IndexerJobs(jobs, jobs[id := k])
  {
    SaneByRow(jobs);
    SaneByRow(jobs[id := k]);
  }

  lemma ConfirmJobs(s: Store, id: JobId, e: Event)
    requires id in s.jobs && CarriesHash(s.jobs[id], e.tx)
    ensures IndexerJobs(s.jobs, ConfirmRecovered(s, id, e).jobs)
  {
    OneRowJobs(s.jobs, id, ConfirmRecovered(s, id, e).jobs[id]);
  }

  lemma ReconcileJobs(s: Store, id: JobId, mined: Mined, final: bool)
    ensures IndexerJobs(s.jobs, Reconcile(s, id, mined, final).jobs)
  {
    UnchangedJobs(s.jobs);
    if Reconcilable(s, id, mined) {
      var k := Reconcile(s, id, mined, final).jobs[id];
      OneRowJobs(s.jobs, id, k);
      assert Reconcile(s, id, mined, final).jobs == s.jobs || Reconcile(s, id, mined, final).jobs == s.jobs[id := k];
    }
  }

  lemma InsertRecoveredJobs(s: Store, id: JobId, e: Event)
    requires id !in s.jobs
    ensures IndexerJobs(s.jobs, InsertRecovered(s, id, e).jobs)
  {
  }

  lemma ReceiptKeepsJobs(s: Store, id: JobId, tx: Hash, block: nat, hash: Hash, receipt: Receipt)
    ensures ApplyReceipt(s, id, tx, block, hash, receipt).Success? ==>
      ApplyReceipt(s, id, tx, block, hash, receipt).value.jobs == s.jobs
  {
  }

  predicate RewritesJobs(step: Step) {
    step.StepRollback? || step.StepInsertRecovered? || step.StepConfirm? || step.StepReconcile?
  }

  lemma OtherIndexerSteps(y: System, step: Step)
    requires ByIndexer(step) && !RewritesJobs(step) && !step.StepApply? && !step.StepReconcileApply?
    ensures IndexerNext(y, step).db.jobs == y.db.jobs
  {
  }

  lemma ApplyingSteps(y: System, step: Step)
    requires step.StepApply? || step.StepReconcileApply?
    ensures IndexerNext(y, step).db.jobs == y.db.jobs
  {
    match step
    case StepApply(id) =>
      if y.phase.Recovering? && y.phase.todo != [] {
        var e := y.phase.todo[0];
        ReceiptKeepsJobs(y.db, id, e.tx, e.block, e.hash, e.receipt);
      }
    case StepReconcileApply(id, mined, receipt) =>
      if id in y.db.jobs && y.db.jobs[id].txHash.Some? {
        ReceiptKeepsJobs(y.db, id, y.db.jobs[id].txHash.value, mined.number, mined.hash, receipt);
      }
  }

  lemma OtherJobsSame(y: System, step: Step)
    requires ByIndexer(step) && !RewritesJobs(step)
    ensures Next(y, step).db.jobs == y.db.jobs
  {
    if step.StepApply? || step.StepReconcileApply? {
      ApplyingSteps(y, step);
    } else {
      OtherIndexerSteps(y, step);
    }
  }

  lemma IndexerJobsHold(y: System, step: Step)
    requires ByIndexer(step) && ApplyingOwner(y)
    ensures IndexerJobs(y.db.jobs, IndexerNext(y, step).db.jobs)
  {
    UnchangedJobs(y.db.jobs);
    if !RewritesJobs(step) {
      if step.StepApply? || step.StepReconcileApply? {
        ApplyingSteps(y, step);
      } else {
        OtherIndexerSteps(y, step);
      }
    } else {
      match step
      case StepRollback(ancestor, retry) => RollbackJobsSane(y.db, ancestor, retry);
      case StepInsertRecovered(id) =>
        if y.phase.Recovering? && y.phase.todo != [] && id !in y.db.jobs {
          InsertRecoveredJobs(y.db, id, y.phase.todo[0]);
        }
      case StepConfirm =>
        if y.phase.Applied? {
          ConfirmJobs(y.db, y.phase.id, y.phase.todo[0]);
        }
      case StepReconcile(id, mined, final) => ReconcileJobs(y.db, id, mined, final);
    }
  }

  // ---------- HTTP and worker steps ----------

  predicate Claimed(y: System, step: Step) {
    match step
    case StepSaveDigest(id, attempts, _) => ClaimOf(id, attempts) in y.out.claims
    case StepSavePreflight(id, attempts, _) => ClaimOf(id, attempts) in y.out.claims
    case StepEndPreflight(id, attempts, _) => ClaimOf(id, attempts) in y.out.claims
    case StepSetProving(id, attempts) => ClaimOf(id, attempts) in y.out.claims
    case StepBeginProof(id, attempts, _) => ClaimOf(id, attempts) in y.out.claims
    case StepSaveProof(id, attempts, _, _) => ClaimOf(id, attempts) in y.out.claims
    case StepBeginSend(id, attempts, _, _) => ClaimOf(id, attempts) in y.out.claims
    case StepPersist(id, attempts, _) => ClaimOf(id, attempts) in y.out.claims
    case StepMarkSubmitted(id, attempts) => ClaimOf(id, attempts) in y.out.claims
    case StepRecordFailure(id, attempts, _, _) => ClaimOf(id, attempts) in y.out.claims
    case _ => false
  }

  lemma PreflightTouchesOne(s: Store, step: Step, o: JobId)
    requires step.StepSaveDigest? || step.StepSavePreflight? || step.StepEndPreflight? || step.StepSetProving?
    requires o in s.jobs && o != step.id
    ensures o in Transact(s, step).jobs && Transact(s, step).jobs[o] == s.jobs[o]
  {
  }

  lemma SendingTouchesOne(s: Store, step: Step, o: JobId)
    requires step.StepBeginProof? || step.StepSaveProof? || step.StepBeginSend? || step.StepPersist?
      || step.StepMarkSubmitted?
    requires o in s.jobs && o != step.id
    ensures o in Transact(s, step).jobs && Transact(s, step).jobs[o] == s.jobs[o]
  {
  }

  /** A claimed generation's write changes its own job only. */
  lemma ClaimedTouchesOne(y: System, step: Step, o: JobId)
    requires Claimed(y, step) && o in y.db.jobs && o != step.id
    ensures o in Transact(y.db, step).jobs && Transact(y.db, step).jobs[o] == y.db.jobs[o]
  {
    if step.StepRecordFailure? {
      FailureShape(y.db, step.id, step.attempts, step.retryable, step.delay);
    } else if step.StepSaveDigest? || step.StepSavePreflight? || step.StepEndPreflight? || step.StepSetProving? {
      PreflightTouchesOne(y.db, step, o);
    } else {
      SendingTouchesOne(y.db, step, o);
    }
  }

  /** No HTTP or worker step touches a rebuilt row. */
  lemma RecoveredUntouched(y: System, step: Step, o: JobId)
    requires Possible(y, step) && !ByIndexer(step)
    requires ClaimsKnown(y) && RecoveredIdle(y.db.jobs) && o in y.db.jobs && y.db.jobs[o].input.recovered
    ensures o in Transact(y.db, step).jobs && Transact(y.db, step).jobs[o] == y.db.jobs[o]
  {
    if Claimed(y, step) {
      assert o != step.id;
      ClaimedTouchesOne(y, step, o);
    } else {
      UnclaimedSpares(y, step, o);
    }
  }

  predicate Spares(s: Store, t: Store, o: JobId) {
    o in s.jobs ==> o in t.jobs && t.jobs[o] == s.jobs[o]
  }

  lemma InsertSpares(s: Store, id: JobId, kind: Kind, input: Input, o: JobId)
    ensures InsertJob(s, id, kind, input).Success? ==> Spares(s, InsertJob(s, id, kind, input).value.store, o)
  {
  }

  lemma AttachSpares(s: Store, id: JobId, kind: Kind, input: Input, uuid: nat)
    ensures Attach(s, id, kind, input, uuid).Success? ==> Attach(s, id, kind, input, uuid).value.jobs == s.jobs
  {
  }

  lemma CreateJobSpares(s: Store, id: JobId, kind: Kind, input: Input, uuid: nat, o: JobId)
    requires CreateJob(s, id, kind, input, uuid).Success?
    ensures Spares(s, CreateJob(s, id, kind, input, uuid).value, o)
  {
    CreateShape(s, id, kind, input, uuid);
  }

  lemma SendZkappSpares(s: Store, id: JobId, input: Input, o: JobId)
    requires SendZkapp(s, id, input).Success?
    ensures Spares(s, SendZkapp(s, id, input).value, o)
  {
    var locked := Lock(s).value;
    InsertSpares(locked, id, Settlement, input, o);
    AttachSpares(InsertJob(locked, id, Settlement, input).value.store, id, Settlement, input, 0);
  }

  lemma QueueStepsSpareRecovered(s: Store, step: Step, o: JobId)
    requires step.StepApprove? || step.StepCancel? || step.StepFinishProof?
    requires RecoveredIdle(s.jobs) && o in s.jobs && s.jobs[o].input.recovered
    ensures Spares(s, Transact(s, step), o)
  {
  }

  lemma ClaimSparesRecovered(s: Store, id: JobId, o: JobId)
    requires RecoveredIdle(s.jobs) && o in s.jobs && s.jobs[o].input.recovered
    ensures Spares(s, Claim(s, id), o)
  {
    ClaimShape(s, id);
  }

  lemma UnclaimedSpares(y: System, step: Step, o: JobId)
    requires !Claimed(y, step) && Possible(y, step) && !ByIndexer(step)
    requires RecoveredIdle(y.db.jobs) && o in y.db.jobs && y.db.jobs[o].input.recovered
    ensures Spares(y.db, Transact(y.db, step), o)
  {
    var s := y.db;
    if step.StepCreateJob? {
      if CreateJob(s, step.id, step.kind, step.input, step.uuid).Success? {
        CreateJobSpares(s, step.id, step.kind, step.input, step.uuid, o);
      }
    } else if step.StepSendZkapp? {
      if SendZkapp(s, step.id, step.input).Success? {
        SendZkappSpares(s, step.id, step.input, o);
      }
    } else if step.StepApprove? || step.StepCancel? || step.StepFinishProof? {
      QueueStepsSpareRecovered(s, step, o);
    } else if step.StepRecoverInterrupted? {
      assert Interrupted(s.jobs[o]) == s.jobs[o];
    } else if step.StepClaim? {
      ClaimSparesRecovered(s, step.id, o);
    } else {
      WriterStepsSpareJobs(s, step);
    }
  }

  lemma WriterStepsSpareJobs(s: Store, step: Step)
    requires step.Tick? || step.StepAcquire? || step.StepRenew? || step.StepRelease?
      || step.StepCallProver? || step.StepProverAnswers? || step.StepBroadcast?
    ensures Transact(s, step).jobs == s.jobs
  {
    if step.StepAcquire? {
      AcquireShape(s, step.owner, step.ttl, step.checkpoint, step.uuid);
    } else if step.StepRelease? {
      ReleaseShape(s, step.token);
    }
  }

  /** Only a prover response writes a request id. */
  predicate RequestsKept(before: Jobs, after: Jobs) {
    forall id :: id in after ==>
      if id in before then after[id].request == before[id].request else after[id].request.None?
  }

  lemma AdmissionKeepsRequests(s: Store, t: Store)
    requires forall o :: Spares(s, t, o)
    requires AdmissionsAttach(s, t)
    ensures RequestsKept(s.jobs, t.jobs)
  {
    forall id | id in t.jobs
      ensures if id in s.jobs then t.jobs[id].request == s.jobs[id].request else t.jobs[id].request.None?
    {
      assert Spares(s, t, id);
    }
  }

  /** One job rewritten with the same request id. */
  lemma PutKeepsRequests(s: Store, t: Store, id: JobId)
    requires t.jobs == s.jobs || (id in s.jobs && exists k :: t == Put(s, id, k) && k.request == s.jobs[id].request)
    ensures RequestsKept(s.jobs, t.jobs)
  {
  }

  lemma PreflightKeepsRequests(s: Store, step: Step)
    requires step.StepSaveDigest? || step.StepSavePreflight? || step.StepEndPreflight?
    ensures RequestsKept(s.jobs, Transact(s, step).jobs)
  {
    var t := Transact(s, step);
    if t != s {
      assert t == Put(s, step.id, t.jobs[step.id]);
    }
    PutKeepsRequests(s, t, step.id);
  }

  lemma SetProvingKeepsRequests(s: Store, step: Step)
    requires step.StepSetProving? || step.StepBeginProof?
    ensures RequestsKept(s.jobs, Transact(s, step).jobs)
  {
    var t := Transact(s, step);
    if t != s {
      assert t == Put(s, step.id, t.jobs[step.id]);
    }
    PutKeepsRequests(s, t, step.id);
  }

  lemma ProvingKeepsRequests(s: Store, step: Step)
    requires step.StepSaveProof? || step.StepMarkSubmitted?
    ensures RequestsKept(s.jobs, Transact(s, step).jobs)
  {
    var t := Transact(s, step);
    if t != s {
      assert t == Put(s, step.id, t.jobs[step.id]);
    }
    PutKeepsRequests(s, t, step.id);
  }

  lemma SendingKeepsRequests(s: Store, step: Step)
    requires step.StepBeginSend? || step.StepPersist?
    ensures RequestsKept(s.jobs, Transact(s, step).jobs)
  {
    var t := Transact(s, step);
    if t != s {
      assert t == Put(s, step.id, t.jobs[step.id]);
    }
    PutKeepsRequests(s, t, step.id);
  }

  lemma FailureKeepsRequest(j: Job, now: nat, retryable: bool, delay: nat)
    ensures AfterFailure(j, now, retryable, delay).request == j.request
  {
  }

  lemma FailureKeepsRequests(s: Store, step: Step)
    requires step.StepRecordFailure?
    ensures RequestsKept(s.jobs, Transact(s, step).jobs)
  {
    FailureShape(s, step.id, step.attempts, step.retryable, step.delay);
    if step.id in s.jobs {
      FailureKeepsRequest(s.jobs[step.id], s.now, step.retryable, step.delay);
    }
  }

  lemma ClaimedKeepsRequests(y: System, step: Step)
    requires Claimed(y, step)
    ensures RequestsKept(y.db.jobs, Transact(y.db, step).jobs)
  {
    if step.StepSaveDigest? || step.StepSavePreflight? || step.StepEndPreflight? {
      PreflightKeepsRequests(y.db, step);
    } else if step.StepSetProving? || step.StepBeginProof? {
      SetProvingKeepsRequests(y.db, step);
    } else if step.StepSaveProof? || step.StepMarkSubmitted? {
      ProvingKeepsRequests(y.db, step);
    } else if step.StepBeginSend? || step.StepPersist? {
      SendingKeepsRequests(y.db, step);
    } else {
      FailureKeepsRequests(y.db, step);
    }
  }

  lemma UnclaimedKeepsRequests(y: System, step: Step)
    requires !Claimed(y, step) && Possible(y, step) && !ByIndexer(step) && !step.StepFinishProof?
    requires IsQuiet(y.db, Transact(y.db, step))
    ensures RequestsKept(y.db.jobs, Transact(y.db, step).jobs)
  {
    var s, t := y.db, Transact(y.db, step);
    if step.StepCreateJob? {
      forall o ensures Spares(s, t, o) {
        if CreateJob(s, step.id, step.kind, step.input, step.uuid).Success? {
          CreateJobSpares(s, step.id, step.kind, step.input, step.uuid, o);
        }
      }
      AdmissionKeepsRequests(s, t);
    } else if step.StepSendZkapp? {
      forall o ensures Spares(s, t, o) {
        if SendZkapp(s, step.id, step.input).Success? {
          SendZkappSpares(s, step.id, step.input, o);
        }
      }
      AdmissionKeepsRequests(s, t);
    } else if step.StepApprove? || step.StepCancel? || step.StepRecoverInterrupted? || step.StepClaim? {
      QueueStepsKeepRequests(s, step);
    } else {
      WriterStepsSpareJobs(s, step);
    }
  }

  lemma QueueStepsKeepRequests(s: Store, step: Step)
    requires step.StepApprove? || step.StepCancel? || step.StepRecoverInterrupted? || step.StepClaim?
    ensures RequestsKept(s.jobs, Transact(s, step).jobs)
  {
    if step.StepClaim? {
      ClaimShape(s, step.id);
    } else if step.StepRecoverInterrupted? {
      assert forall id :: id in s.jobs ==> Interrupted(s.jobs[id]).request == s.jobs[id].request;
    } else if step.StepApprove? {
      ApproveKeepsRequests(s, step.id, step.digest);
    } else {
      CancelKeepsRequests(s, step.id);
    }
  }

  lemma ApproveKeepsRequests(s: Store, id: JobId, digest: Hash)
    ensures RequestsKept(s.jobs, Or(s, Approve(s, id, digest)).jobs)
  {
  }

  lemma CancelKeepsRequests(s: Store, id: JobId)
    ensures RequestsKept(s.jobs, Or(s, Cancel(s, id)).jobs)
  {
  }

  // ---------- one step keeps the base invariant ----------

  lemma WorkKeepsJobsSane(y: System, step: Step)
    requires Base(y) && Possible(y, step) && !ByIndexer(step)
    ensures IsQuiet(y.db, Transact(y.db, step)) && SaneJobs(Transact(y.db, step).jobs)
  {
    var s, t := y.db, Transact(y.db, step);
    TransactIsQuiet(y, step);
    forall id | id in t.jobs
      ensures !t.jobs[id].status.ProofFailed?
      ensures t.jobs[id].input.recovered ==> id in s.jobs && t.jobs[id] == s.jobs[id]
      ensures !t.jobs[id].input.recovered && t.jobs[id].txHash.Some? ==>
        t.jobs[id].prepared.Some? && t.jobs[id].txHash.value == t.jobs[id].prepared.value.hash
    {
      if id in s.jobs {
        assert Evolves(s.jobs[id], t.jobs[id]);
        if s.jobs[id].input.recovered {
          RecoveredUntouched(y, step, id);
        }
      }
    }
  }

  /** The one claim a step can add is of a job that is still our own. */
  lemma NewClaimKnown(y: System, step: Step, c: ClaimOf)
    requires ClaimsKnown(y) && RecoveredIdle(y.db.jobs) && Possible(y, step) && !ByIndexer(step)
    requires c in Next(y, step).out.claims && c !in y.out.claims
    ensures c.job in Transact(y.db, step).jobs && c.attempts == Transact(y.db, step).jobs[c.job].attempts
    ensures c.job in y.db.jobs && !y.db.jobs[c.job].input.recovered
  {
    assert step.StepClaim?;
    if c.job in y.db.jobs && y.db.jobs[c.job].input.recovered {
      ClaimSparesRecovered(y.db, step.id, c.job);
    }
  }

  lemma WorkKeepsClaims(y: System, step: Step)
    requires Base(y) && Possible(y, step) && !ByIndexer(step)
    ensures ClaimsKnown(Next(y, step))
  {
    var t := Transact(y.db, step);
    WorkKeepsJobsSane(y, step);
    QuietPersists(y.db, t);
    forall c | c in Next(y, step).out.claims
      ensures c.job in t.jobs && !t.jobs[c.job].input.recovered && c.attempts <= t.jobs[c.job].attempts
    {
      if c !in y.out.claims {
        NewClaimKnown(y, step, c);
      }
      assert Persists(y.db.jobs[c.job], t.jobs[c.job]);
    }
  }

  lemma SealsKept(y: System, step: Step)
    requires Base(y) && Possible(y, step) && !ByIndexer(step)
    ensures forall c :: Sealed(y.db.jobs, c) ==> Sealed(Transact(y.db, step).jobs, c)
  {
    var s, t := y.db, Transact(y.db, step);
    WorkKeepsJobsSane(y, step);
    QuietPersists(s, t);
    forall c | Sealed(s.jobs, c) ensures Sealed(t.jobs, c) {
      assert Persists(s.jobs[c.job], t.jobs[c.job]);
    }
  }

  /** A job that seals an intent had none, so it is not in the log and holds no other. */
  lemma BeginSealsFresh(y: System, step: Step)
    requires Base(y) && step.StepBeginProof? && Possible(y, step)
    ensures CallsSealed(Next(y, step)) && CalledOnce(Next(y, step)) && OneAnswer(Next(y, step).out)
  {
    SealsKept(y, step);
    SealedOnce(y, step);
  }

  lemma SealedOnce(y: System, step: Step)
    requires CallsSealed(y) && CalledOnce(y) && step.StepBeginProof? && Possible(y, step)
    ensures CalledOnce(Next(y, step))
    ensures forall c :: c in Next(y, step).out.intents && c !in y.out.intents ==> Sealed(Next(y, step).db.jobs, c)
    ensures Next(y, step).out.calls == y.out.calls && Next(y, step).out.answers == y.out.answers
  {
    if BeginProofRequest(y.db, step.id, step.attempts, step.intent).Success? {
      assert y.db.jobs[step.id].intent.None?;
      assert forall c :: Sealed(y.db.jobs, c) ==> c.job != step.id;
    }
  }

  lemma OtherStepsLeaveProver(y: System, step: Step)
    requires !ByIndexer(step) && !step.StepBeginProof? && !step.StepCallProver? && !step.StepProverAnswers?
    ensures var o := Observe(y, Transact(y.db, step), step);
      o.intents == y.out.intents && o.calls == y.out.calls && o.answers == y.out.answers
  {
  }

  lemma AnswerOnce(y: System, step: Step)
    requires OneAnswer(y.out) && step.StepProverAnswers? && Possible(y, step)
    ensures OneAnswer(Observe(y, y.db, step))
  {
    var i :| 0 <= i < |y.out.calls| && y.out.calls[i] == Call(step.id, step.intent);
    assert y.out.calls[i].intent == step.intent;
  }

  lemma WorkKeepsCalls(y: System, step: Step)
    requires Base(y) && Possible(y, step) && !ByIndexer(step)
    ensures CallsSealed(Next(y, step)) && CalledOnce(Next(y, step)) && OneAnswer(Next(y, step).out)
  {
    if step.StepBeginProof? {
      BeginSealsFresh(y, step);
    } else if step.StepCallProver? {
      CallMovesIntent(y, step);
    } else if step.StepProverAnswers? {
      AnswerOnce(y, step);
    } else {
      SealsKept(y, step);
      OtherStepsLeaveProver(y, step);
    }
  }

  lemma CallMovesIntent(y: System, step: Step)
    requires CallsSealed(y) && CalledOnce(y) && OneAnswer(y.out) && step.StepCallProver? && Possible(y, step)
    ensures CallsSealed(Next(y, step)) && CalledOnce(Next(y, step)) && OneAnswer(Next(y, step).out)
  {
    var z := Next(y, step);
    assert z.db == y.db;
    forall a | a in z.out.answers
      ensures exists i :: 0 <= i < |z.out.calls| && z.out.calls[i].intent == a.intent
    {
      var i :| 0 <= i < |y.out.calls| && y.out.calls[i].intent == a.intent;
      assert z.out.calls[i].intent == a.intent;
    }
  }

  lemma OutsideGrows(y: System, step: Step)
    requires Possible(y, step) && !ByIndexer(step)
    ensures var o := Next(y, step).out;
      (forall c :: c in y.out.calls ==> c in o.calls) && (forall a :: a in y.out.answers ==> a in o.answers)
  {
  }

  /** A prover's response names an existing call and an existing answer. */
  lemma FinishAnswered(y: System, step: Step)
    requires RequestsAnswered(y) && Possible(y, step) && step.StepFinishProof?
    ensures RequestsAnswered(Next(y, step))
  {
    var t := Transact(y.db, step);
    assert Next(y, step).out == y.out;
    forall id | id in t.jobs
      ensures Answered(y.out, id, t.jobs[id])
    {
      assert Answered(y.out, id, y.db.jobs[id]);
    }
  }

  lemma KeptAnswered(y: System, step: Step)
    requires RequestsAnswered(y) && Possible(y, step) && !ByIndexer(step)
    requires JobsPersist(y.db.jobs, Next(y, step).db.jobs) && RequestsKept(y.db.jobs, Next(y, step).db.jobs)
    ensures RequestsAnswered(Next(y, step))
  {
    var z := Next(y, step);
    OutsideGrows(y, step);
    forall id | id in z.db.jobs
      ensures Answered(z.out, id, z.db.jobs[id])
    {
      if id in y.db.jobs {
        assert Answered(y.out, id, y.db.jobs[id]);
        assert Persists(y.db.jobs[id], z.db.jobs[id]);
      }
    }
  }

  lemma WorkKeepsAnswers(y: System, step: Step)
    requires Base(y) && Possible(y, step) && !ByIndexer(step)
    ensures RequestsAnswered(Next(y, step))
  {
    if step.StepFinishProof? {
      FinishAnswered(y, step);
    } else {
      WorkKeepsJobsSane(y, step);
      QuietPersists(y.db, Next(y, step).db);
      if Claimed(y, step) {
        ClaimedKeepsRequests(y, step);
      } else {
        UnclaimedKeepsRequests(y, step);
      }
      KeptAnswered(y, step);
    }
  }

  lemma SignedKept(y: System, step: Step)
    requires Base(y) && Possible(y, step) && !ByIndexer(step)
    ensures forall id :: id in y.db.jobs && y.db.jobs[id].prepared.Some? ==>
      id in Transact(y.db, step).jobs && Transact(y.db, step).jobs[id].prepared == y.db.jobs[id].prepared
  {
    var s, t := y.db, Transact(y.db, step);
    WorkKeepsJobsSane(y, step);
    forall id | id in s.jobs && s.jobs[id].prepared.Some?
      ensures id in t.jobs && t.jobs[id].prepared == s.jobs[id].prepared
    {
      assert Evolves(s.jobs[id], t.jobs[id]);
    }
  }

  lemma NewHoldingStored(y: System, step: Step, h: Holding)
    requires Possible(y, step) && !ByIndexer(step)
    requires h in Next(y, step).out.holding && h !in y.out.holding
    ensures h.job in Next(y, step).db.jobs && Next(y, step).db.jobs[h.job].prepared == Some(h.prepared)
  {
  }

  lemma WorkKeepsHolding(y: System, step: Step)
    requires Base(y) && Possible(y, step) && !ByIndexer(step)
    ensures HoldingStored(Next(y, step))
  {
    var s, z := y.db, Next(y, step);
    SignedKept(y, step);
    forall h | h in z.out.holding
      ensures h.job in z.db.jobs && z.db.jobs[h.job].prepared == Some(h.prepared)
    {
      if h !in y.out.holding {
        NewHoldingStored(y, step, h);
      }
    }
    if step.StepBroadcast? {
      assert z.out.broadcasts == y.out.broadcasts + [Sent(step.id, step.prepared.raw)];
    } else {
      assert z.out.broadcasts == y.out.broadcasts;
    }
  }

  lemma WorkKeepsOwner(y: System, step: Step)
    requires Base(y) && Possible(y, step) && !ByIndexer(step)
    ensures ApplyingOwner(Next(y, step))
  {
    if y.phase.Applied? {
      SignedKept(y, step);
      if y.db.jobs[y.phase.id].input.recovered {
        RecoveredUntouched(y, step, y.phase.id);
      }
    }
  }

  lemma WorkKeepsBase(y: System, step: Step)
    requires Base(y) && Possible(y, step) && !ByIndexer(step)
    ensures Base(Next(y, step))
  {
    WorkKeepsJobsSane(y, step);
    WorkKeepsClaims(y, step);
    WorkKeepsCalls(y, step);
    WorkKeepsAnswers(y, step);
    WorkKeepsHolding(y, step);
    WorkKeepsOwner(y, step);
  }

  lemma PersistKeepsOutside(y: System, z: System)
    requires Base(y) && z.out == y.out && IndexerJobs(y.db.jobs, z.db.jobs)
    ensures ClaimsKnown(z) && CallsSealed(z) && HoldingStored(z) && RequestsAnswered(z)
  {
    forall id | id in z.db.jobs
      ensures Answered(z.out, id, z.db.jobs[id])
    {
      if id in y.db.jobs {
        assert Answered(y.out, id, y.db.jobs[id]);
        assert Persists(y.db.jobs[id], z.db.jobs[id]);
      }
    }
  }

  lemma IndexerLeavesWriter(y: System, step: Step)
    requires ByIndexer(step)
    ensures Next(y, step).out == y.out && Next(y, step).db.writer == y.db.writer
  {
  }

  lemma IndexerKeepsOwner(y: System, step: Step)
    requires ApplyingOwner(y) && ByIndexer(step)
    ensures ApplyingOwner(Next(y, step))
  {
  }

  lemma StepKeepsBase(y: System, step: Step)
    requires Base(y)
    ensures Base(Next(y, step))
  {
    if ByIndexer(step) {
      IndexerJobsHold(y, step);
      IndexerLeavesWriter(y, step);
      IndexerKeepsOwner(y, step);
      PersistKeepsOutside(y, Next(y, step));
    } else if Possible(y, step) {
      WorkKeepsBase(y, step);
    }
  }

  lemma {:induction false} RunKeepsBase(y: System, steps: seq<Step>)
    requires Base(y)
    ensures Base(Run(y, steps))
    decreases |steps|
  {
    if steps != [] {
      RunKeepsBase(y, steps[..|steps| - 1]);
      StepKeepsBase(Run(y, steps[..|steps| - 1]), steps[|steps| - 1]);
    }
  }
}
