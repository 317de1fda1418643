/**
  What every step keeps in either finality mode: where recovered rows come
  from, who may be referred to, how final blocks and events are ordered, and
  what the indexer's position in its pass says.
 */
module Core {
  import opened Common
  import opened Chain
  import opened ActionLog
  import opened Gateway
  import opened Runs
  import opened Quiet
  import opened Safety
  import opened Ownership
  import Ledger

  // ---------- the order of events ----------

  predicate Earlier(a: Event, b: Event) {
    a.block < b.block || (a.block == b.block && a.log < b.log)
  }

  predicate LogsDistinct(events: map<Hash, Event>) {
    forall a, b :: a in events && b in events && a != b ==>
      !(events[a].block == events[b].block && events[a].hash == events[b].hash && events[a].log == events[b].log)
  }

  predicate FinalityDown(rows: Rows) {
    forall m, n :: m in rows && n in rows && rows[m].canonical && m < n && rows[n].finalized ==> rows[m].finalized
  }

  predicate TodoOrdered(todo: seq<Event>) {
    forall i, j :: 0 <= i < j < |todo| ==> todo[i].tx != todo[j].tx && Before(todo[i], todo[j])
  }

  // ---------- the invariant ----------

  /** A row of our own, admitted and not rebuilt from Ethereum; it is never deleted. */
  predicate Own(jobs: Jobs, id: JobId) {
    id in jobs && !jobs[id].input.recovered
  }

  /** The writer, the pool and the idempotency keys refer to rows of our own only. */
  predicate References(s: Store) {
    && (s.writer.job.Some? ==> Own(s.jobs, s.writer.job.value))
    && (forall id :: id in s.pending ==> Own(s.jobs, id))
    && (forall k :: k in s.keys ==> Own(s.jobs, s.keys[k]))
  }

  /** A rebuilt row is tied to a firm event of its own inclusion block. */
  predicate Placed(s: Store, j: Job) {
    j.txHash.Some? && Firm(s, j.txHash.value) &&
    var e := s.events[j.txHash.value];
    j.block == Some(Inclusion(e.block, e.hash))
  }

  predicate RecoveredPlaced(s: Store) {
    forall id :: id in s.jobs && s.jobs[id].input.recovered ==> Placed(s, s.jobs[id])
  }

  /** Submissions name the gateway's own accounts. */
  predicate Names(outerKey: Key, feeKey: Key, submission: Option<Submission>) {
    submission.Some? ==> submission.value.outer == outerKey && submission.value.feePayer == feeKey
  }

  predicate JobsConfigured(s: Store) {
    forall id :: id in s.jobs ==> Names(s.outerKey, s.feeKey, s.jobs[id].input.submission)
  }

  /** Blocks and events by themselves. */
  predicate ChainSound(s: Store) {
    EventsKeyed(s) && FlagsSane(s.rows) && FinalityDown(s.rows) && LogsDistinct(s.events)
  }

  ghost predicate RowsSound(s: Store) {
    HashUnique(s.jobs) && RecoveredPlaced(s) && References(s) && JobsConfigured(s)
  }

  ghost predicate PassSound(s: Store, phase: Phase) {
    match phase
    case Recovering(todo) => TodoPending(s, todo) && TodoOrdered(todo) && Below(s.rows, s.cursor)
    case Applied(todo, id) =>
      todo != [] && TodoPending(s, todo) && TodoOrdered(todo) && Below(s.rows, s.cursor)
      && id in s.jobs && CarriesHash(s.jobs[id], todo[0].tx) && Ledger.Recorded(s.ledger.history, id)
    case Reconciling => AllApplied(s)
    case _ => true
  }

  ghost predicate CoreHolds(y: System) {
    Base(y) && ChainSound(y.db) && RowsSound(y.db) && PassSound(y.db, y.phase)
  }

  lemma SaneStored(jobs: Jobs)
    requires SaneJobs(jobs)
    ensures HashesStored(jobs)
  {
  }

  // ---------- HTTP and worker steps: references ----------

  /** What a step that admits nothing may do to the three kinds of reference. */
  predicate RefersLess(s: Store, t: Store) {
    (t.writer.job.None? || t.writer.job == s.writer.job) && t.pending <= s.pending && t.keys == s.keys
  }

  lemma OwnStays(s: Store, t: Store, id: JobId)
    requires JobsEvolve(s.jobs, t.jobs) && Own(s.jobs, id)
    ensures Own(t.jobs, id)
  {
    assert Evolves(s.jobs[id], t.jobs[id]);
  }

  lemma RefersLessKeeps(s: Store, t: Store)
    requires JobsEvolve(s.jobs, t.jobs) && References(s) && RefersLess(s, t)
    ensures References(t)
  {
    if t.writer.job.Some? {
      OwnStays(s, t, t.writer.job.value);
    }
    forall id | id in t.pending
      ensures Own(t.jobs, id)
    {
      OwnStays(s, t, id);
    }
    forall k | k in t.keys
      ensures Own(t.jobs, t.keys[k])
    {
      OwnStays(s, t, s.keys[k]);
    }
  }

  lemma AcquireRefers(s: Store, owner: string, ttl: Option<nat>, checkpoint: Checkpoint, uuid: nat)
    ensures RefersLess(s, Or(s, Acquire(s, owner, ttl, checkpoint, uuid)))
  {
    if Lock(s).Success? {
      LockShape(s);
    }
  }

  lemma LeaseRefers(s: Store, step: Step)
    requires step.StepRenew? || step.StepRelease? || step.StepClaim?
    ensures RefersLess(s, Transact(s, step))
  {
    if Lock(s).Success? {
      LockShape(s);
    }
  }

  lemma QueueRefers(s: Store, step: Step)
    requires step.Tick? || step.StepApprove? || step.StepCancel? || step.StepRecoverInterrupted?
      || step.StepSaveDigest? || step.StepSavePreflight? || step.StepEndPreflight? || step.StepSetProving?
    ensures RefersLess(s, Transact(s, step))
  {
  }

  lemma ProverRefers(s: Store, step: Step)
    requires step.StepCallProver? || step.StepProverAnswers? || step.StepBroadcast? || step.StepBeginProof?
      || step.StepFinishProof? || step.StepSaveProof?
    ensures RefersLess(s, Transact(s, step))
  {
  }

  lemma SenderRefers(s: Store, step: Step)
    requires step.StepBeginSend? || step.StepPersist? || step.StepMarkSubmitted?
    ensures RefersLess(s, Transact(s, step))
  {
  }

  lemma FailureRefers(s: Store, step: Step)
    requires step.StepRecordFailure?
    ensures RefersLess(s, Transact(s, step))
  {
  }

  predicate Admits(step: Step) {
    step.StepCreateJob? || step.StepSendZkapp?
  }

  lemma OthersRefer(s: Store, step: Step)
    requires !ByIndexer(step) && !Admits(step)
    ensures RefersLess(s, Transact(s, step))
  {
    if step.StepAcquire? {
      AcquireRefers(s, step.owner, step.ttl, step.checkpoint, step.uuid);
    } else if step.StepRenew? || step.StepRelease? || step.StepClaim? {
      LeaseRefers(s, step);
    } else if step.Tick? || step.StepApprove? || step.StepCancel? || step.StepRecoverInterrupted?
      || step.StepSaveDigest? || step.StepSavePreflight? || step.StepEndPreflight? || step.StepSetProving?
    {
      QueueRefers(s, step);
    } else if step.StepBeginSend? || step.StepPersist? || step.StepMarkSubmitted? {
      SenderRefers(s, step);
    } else if step.StepRecordFailure? {
      FailureRefers(s, step);
    } else {
      ProverRefers(s, step);
    }
  }

  // ---------- HTTP and worker steps: admission ----------

  /** A new row of our own, referred to by the writer and perhaps by its key. */
  lemma NewRowRefers(s: Store, t: Store, id: JobId, j: Job)
    requires References(s) && id !in s.jobs && !j.input.recovered && t.jobs == s.jobs[id := j]
    requires t.writer.job == Some(id) && t.pending == s.pending
    requires forall k :: k in t.keys ==> (k in s.keys && t.keys[k] == s.keys[k]) || t.keys[k] == id
    ensures References(t)
  {
  }

  lemma KeyOwned(s: Store, k: Hash)
    requires References(s) && k in s.keys
    ensures Own(s.jobs, s.keys[k])
  {
  }

  lemma CreateRefers(s: Store, id: JobId, kind: Kind, input: Input, uuid: nat)
    requires References(s) && !input.recovered && CreateJob(s, id, kind, input, uuid).Success?
    ensures References(CreateJob(s, id, kind, input, uuid).value)
  {
    LockShape(s);
    var locked := Lock(s).value;
    assert References(locked);
    InsertShape(locked, id, kind, input);
    var made := InsertJob(locked, id, kind, input).value;
    if input.key.Some? && input.key.value in locked.keys {
      KeyOwned(locked, input.key.value);
    } else {
      AttachShape(made.store, id, kind, input, uuid);
      NewRowRefers(s, CreateJob(s, id, kind, input, uuid).value, id, NewJob(kind, input, s.now));
    }
  }

  lemma AdmitRefers(s: Store, id: JobId, input: Input, submission: Submission)
    requires References(s) && !input.recovered && AdmitSettlement(s, id, input, submission).Success?
    ensures References(AdmitSettlement(s, id, input, submission).value.store)
    ensures var admitted := AdmitSettlement(s, id, input, submission).value; Own(admitted.store.jobs, admitted.id)
  {
    LockShape(s);
    var locked := Lock(s).value;
    assert References(locked);
    InsertShape(locked, id, Settlement, input);
    var made := InsertJob(locked, id, Settlement, input).value;
    if input.key.Some? && input.key.value in locked.keys {
      KeyOwned(locked, input.key.value);
    } else {
      AttachShape(made.store, id, Settlement, input, 0);
      NewRowRefers(s, AdmitSettlement(s, id, input, submission).value.store, id, NewJob(Settlement, input, s.now));
    }
  }

  lemma SendRefers(s: Store, id: JobId, input: Input)
    requires References(s) && !input.recovered && SendZkapp(s, id, input).Success?
    ensures References(SendZkapp(s, id, input).value)
  {
    AdmitRefers(s, id, input, input.submission.value);
  }

  lemma WorkKeepsReferences(y: System, step: Step)
    requires References(y.db) && Possible(y, step) && !ByIndexer(step) && IsQuiet(y.db, Transact(y.db, step))
    ensures References(Transact(y.db, step))
  {
    var s := y.db;
    if step.StepCreateJob? {
      if CreateJob(s, step.id, step.kind, step.input, step.uuid).Success? {
        CreateRefers(s, step.id, step.kind, step.input, step.uuid);
      }
    } else if step.StepSendZkapp? {
      if SendZkapp(s, step.id, step.input).Success? {
        SendRefers(s, step.id, step.input);
      }
    } else {
      OthersRefer(s, step);
      RefersLessKeeps(s, Transact(s, step));
    }
  }

  // ---------- HTTP and worker steps: configuration ----------

  lemma PayerNamed(s: Store, submission: Submission)
    requires PayerCheck(s, submission).Success?
    ensures Names(s.outerKey, s.feeKey, Some(submission))
  {
  }

  /** A command's submission is checked against the configured accounts when it is admitted. */
  lemma AdmitConfigured(s: Store, id: JobId, input: Input)
    requires JobsConfigured(s) && input.submission.Some?
      && AdmitSettlement(s, id, input, input.submission.value).Success?
    ensures JobsConfigured(AdmitSettlement(s, id, input, input.submission.value).value.store)
  {
    LockShape(s);
    var locked := Lock(s).value;
    InsertShape(locked, id, Settlement, input);
    var made := InsertJob(locked, id, Settlement, input).value;
    if made.id == id && id !in locked.jobs {
      AttachShape(made.store, id, Settlement, input, 0);
      PayerNamed(AttachSettlement(made.store, id, input).value, input.submission.value);
    }
  }

  lemma CreateConfigured(s: Store, id: JobId, kind: Kind, input: Input, uuid: nat)
    requires JobsConfigured(s) && input.submission.None? && CreateJob(s, id, kind, input, uuid).Success?
    ensures JobsConfigured(CreateJob(s, id, kind, input, uuid).value)
  {
    LockShape(s);
    var locked := Lock(s).value;
    InsertShape(locked, id, kind, input);
    var made := InsertJob(locked, id, kind, input).value;
    if made.id == id && id !in locked.jobs {
      AttachShape(made.store, id, kind, input, uuid);
    }
  }

  lemma QueueKeys(s: Store, step: Step)
    requires step.StepClaim? || step.StepRecordFailure? || step.StepApprove? || step.StepCancel?
    ensures Transact(s, step).jobs.Keys == s.jobs.Keys
  {
    match step
    case StepClaim(id) => ClaimShape(s, id);
    case StepRecordFailure(id, attempts, retryable, delay) => FailureShape(s, id, attempts, retryable, delay);
    case _ =>
  }

  lemma OldJobsOnly(s: Store, step: Step)
    requires !ByIndexer(step) && !Admits(step)
    ensures Transact(s, step).jobs.Keys == s.jobs.Keys
  {
    if step.StepClaim? || step.StepRecordFailure? || step.StepApprove? || step.StepCancel? {
      QueueKeys(s, step);
    } else if step.Tick? || step.StepAcquire? || step.StepRenew? || step.StepRelease?
      || step.StepCallProver? || step.StepProverAnswers? || step.StepBroadcast?
    {
      WriterStepsSpareJobs(s, step);
    } else {
      WorkerKeys(s, step);
    }
  }

  lemma WorkerKeys(s: Store, step: Step)
    requires step.StepBeginProof? || step.StepFinishProof? || step.StepSaveProof?
      || step.StepBeginSend? || step.StepPersist? || step.StepMarkSubmitted? || step.StepRecoverInterrupted?
      || step.StepSaveDigest? || step.StepSavePreflight? || step.StepEndPreflight? || step.StepSetProving?
    ensures Transact(s, step).jobs.Keys == s.jobs.Keys
  {
    if step.StepBeginProof? || step.StepFinishProof? || step.StepSaveProof?
      || step.StepBeginSend? || step.StepPersist? || step.StepMarkSubmitted?
    {
      SenderKeys(s, step);
    }
  }

  lemma SenderKeys(s: Store, step: Step)
    requires step.StepBeginProof? || step.StepFinishProof? || step.StepSaveProof?
      || step.StepBeginSend? || step.StepPersist? || step.StepMarkSubmitted?
    ensures Transact(s, step).jobs.Keys == s.jobs.Keys
  {
  }

  lemma WorkKeepsConfigured(y: System, step: Step)
    requires JobsConfigured(y.db) && Possible(y, step) && !ByIndexer(step) && IsQuiet(y.db, Transact(y.db, step))
    ensures JobsConfigured(Transact(y.db, step))
  {
    var s, t := y.db, Transact(y.db, step);
    if step.StepCreateJob? {
      if CreateJob(s, step.id, step.kind, step.input, step.uuid).Success? {
        CreateConfigured(s, step.id, step.kind, step.input, step.uuid);
      }
    } else if step.StepSendZkapp? {
      if SendZkapp(s, step.id, step.input).Success? {
        AdmitConfigured(s, step.id, step.input);
      }
    } else {
      OldJobsOnly(s, step);
      forall id | id in t.jobs
        ensures Names(t.outerKey, t.feeKey, t.jobs[id].input.submission)
      {
        assert Evolves(s.jobs[id], t.jobs[id]);
      }
    }
  }

  // ---------- HTTP and worker steps: the rest ----------

  lemma QuietFirm(s: Store, t: Store)
    requires SameIndex(s, t)
    ensures forall tx :: Firm(s, tx) <==> Firm(t, tx)
  {
    assert s.mode == t.mode && s.rows == t.rows && s.events == t.events;
    forall tx
      ensures Firm(s, tx) <==> Firm(t, tx)
    {
      assert FinalEvent(s, tx) <==> FinalEvent(t, tx);
      assert CanonicalEvent(s, tx) <==> CanonicalEvent(t, tx);
    }
  }

  lemma QuietChain(s: Store, t: Store)
    requires SameIndex(s, t) && ChainSound(s)
    ensures ChainSound(t)
  {
  }

  lemma WorkKeepsPlaced(y: System, step: Step)
    requires ClaimsKnown(y) && RecoveredIdle(y.db.jobs) && RecoveredPlaced(y.db)
    requires Possible(y, step) && !ByIndexer(step) && IsQuiet(y.db, Transact(y.db, step))
    ensures RecoveredPlaced(Transact(y.db, step))
  {
    var s, t := y.db, Transact(y.db, step);
    QuietFirm(s, t);
    forall id | id in t.jobs && t.jobs[id].input.recovered
      ensures Placed(t, t.jobs[id])
    {
      assert id in s.jobs && Evolves(s.jobs[id], t.jobs[id]);
      RecoveredUntouched(y, step, id);
      assert Placed(s, s.jobs[id]);
    }
  }

  lemma QuietUnique(s: Store, t: Store)
    requires HashUnique(s.jobs) && HashesFresh(s.jobs, t.jobs)
    ensures HashUnique(t.jobs)
  {
  }

  lemma QuietPass(s: Store, t: Store, phase: Phase)
    requires IsQuiet(s, t) && PassSound(s, phase)
    requires phase.Applied? ==> phase.id in t.jobs && CarriesHash(t.jobs[phase.id], phase.todo[0].tx)
    ensures PassSound(t, phase)
  {
    QuietFinalEvents(s, t);
    forall tx | AlreadyApplied(s, tx)
      ensures AlreadyApplied(t, tx)
    {
      QuietApplied(s, t, tx);
    }
  }

  lemma WorkKeepsCore(y: System, step: Step)
    requires CoreHolds(y) && Possible(y, step) && !ByIndexer(step)
    ensures CoreHolds(Next(y, step))
  {
    var s, t := y.db, Transact(y.db, step);
    WorkKeepsBase(y, step);
    TransactIsQuiet(y, step);
    QuietChain(s, t);
    QuietUnique(s, t);
    WorkKeepsPlaced(y, step);
    WorkKeepsReferences(y, step);
    WorkKeepsConfigured(y, step);
    QuietPass(s, t, y.phase);
  }

  // ---------- the indexer: what each step makes of the tables ----------

  lemma RollbackNext(y: System, step: Step)
    requires step.StepRollback? && Next(y, step) != y
    ensures y.phase.Indexing? && MayRollBack(y.db, step.ancestor) && RetryChoice(y.db.jobs, step.ancestor, step.retry)
    ensures Next(y, step) == y.(db := RollbackAfter(y.db, step.ancestor, step.retry))
  {
  }

  lemma IndexRowNext(y: System, step: Step)
    requires step.StepIndexRow? && Next(y, step) != y
    ensures y.phase.Indexing? && Below(y.db.rows, step.block.number - 1)
    ensures Next(y, step) == y.(db := y.db.(rows := InsertBlock(y.db.rows, step.block)))
  {
  }

  lemma FinalizeNext(y: System, step: Step)
    requires step.StepFinalize? && Next(y, step) != y
    ensures y.phase.Indexing? && MayFinalize(y.db, step.through)
    ensures Next(y, step) == y.(db := y.db.(rows := Finalize(y.db.rows, step.through)), phase := Exploring)
  {
  }

  lemma IndexEventNext(y: System, step: Step)
    requires step.StepIndexEvent? && Next(y, step) != y
    ensures y.phase.Exploring? && step.event.block > y.db.cursor && !step.event.removed
    ensures MinedOnce(y.db, step.event) && LogIndexFree(y.db, step.event)
    ensures Next(y, step) == y.(db := y.db.(events := y.db.events[step.event.tx := step.event]))
  {
  }

  function Advanced(cursor: int, head: nat): (c: int)
    ensures c >= cursor && c >= head
  {
    if cursor < head then head else cursor
  }

  lemma EndEventsNext(y: System, step: Step)
    requires step.StepEndEvents? && Next(y, step) != y
    ensures y.phase.Exploring? && Below(y.db.rows, step.head) && EventList(y.db, step.todo)
    ensures Next(y, step) == y.(db := y.db.(cursor := Advanced(y.db.cursor, step.head)), phase := Recovering(step.todo))
  {
  }

  lemma InsertRecoveredNext(y: System, step: Step)
    requires step.StepInsertRecovered? && Next(y, step) != y
    ensures y.phase.Recovering? && y.phase.todo != [] && !AlreadyApplied(y.db, y.phase.todo[0].tx)
    ensures OwnerChoice(y.db.jobs, y.phase.todo[0].tx, None) && step.id !in y.db.jobs
    ensures Next(y, step) == y.(db := InsertRecovered(y.db, step.id, y.phase.todo[0]))
  {
  }

  /** An application: the committed receipt of the first pending event, or an abandoned pass. */
  lemma ApplyNext(y: System, step: Step)
    requires step.StepApply? && Next(y, step) != y
    ensures y.phase.Recovering? && y.phase.todo != [] && !AlreadyApplied(y.db, y.phase.todo[0].tx)
    ensures OwnerChoice(y.db.jobs, y.phase.todo[0].tx, Some(step.id))
    ensures Next(y, step) == y.(phase := Idle) ||
      (Next(y, step).phase == Applied(y.phase.todo, step.id) && Next(y, step).out == y.out
       && AppliedTo(y.db, step.id, y.phase.todo[0]) == Success(Next(y, step).db))
  {
  }

  function AppliedTo(s: Store, id: JobId, e: Event): Result<Store> {
    ApplyReceipt(s, id, e.tx, e.block, e.hash, e.receipt)
  }

  lemma ConfirmNext(y: System, step: Step)
    requires step.StepConfirm? && Next(y, step) != y
    ensures y.phase.Applied? && y.phase.todo != []
    ensures Next(y, step)
      == System(ConfirmRecovered(y.db, y.phase.id, y.phase.todo[0]), y.out, Recovering(y.phase.todo[1..]))
  {
  }

  lemma ReconcileNext(y: System, step: Step)
    requires step.StepReconcile? && Next(y, step) != y
    ensures y.phase.Reconciling? && ReceiptTruthful(y.db, step.id, step.mined, step.final)
    ensures Next(y, step) == y.(db := Reconcile(y.db, step.id, step.mined, step.final))
  {
  }

  lemma ReadyNext(y: System, step: Step)
    requires step.StepReady? && Next(y, step) != y
    ensures y.phase.Reconciling? && Next(y, step) == y.(db := y.db.(ready := true), phase := Idle)
  {
  }

  lemma SkipNext(y: System, step: Step)
    requires step.StepSkip? && Next(y, step) != y
    ensures y.phase.Recovering? && y.phase.todo != [] && AlreadyApplied(y.db, y.phase.todo[0].tx)
    ensures Next(y, step) == y.(phase := Recovering(y.phase.todo[1..]))
  {
  }

  lemma MovingNext(y: System, step: Step)
    requires (step.StepBeginTick? || step.StepAbortTick? || step.StepEndRecovery?) && Next(y, step) != y
    ensures Next(y, step) == y.(phase := Next(y, step).phase)
    ensures Next(y, step).phase.Idle? || Next(y, step).phase.Indexing?
      || (Next(y, step).phase.Reconciling? && y.phase == Recovering([]))
  {
  }

  // ---------- the indexer: firm events ----------

  predicate FirmPersists(s: Store, t: Store) {
    forall tx :: tx in s.events && Firm(s, tx) ==> Firm(t, tx) && t.events[tx] == s.events[tx]
  }

  lemma FinalIsCanonical(s: Store, tx: Hash)
    requires FinalEvent(s, tx)
    ensures CanonicalEvent(s, tx) && Firm(s, tx)
  {
  }

  lemma PlacedPersists(s: Store, t: Store)
    requires RecoveredPlaced(s) && FirmPersists(s, t) && t.jobs == s.jobs
    ensures RecoveredPlaced(t)
  {
    forall id | id in t.jobs && t.jobs[id].input.recovered
      ensures Placed(t, t.jobs[id])
    {
      assert Placed(s, s.jobs[id]);
    }
  }

  lemma IndexRowChain(s: Store, b: Block)
    requires ChainSound(s) && Below(s.rows, b.number - 1)
    ensures ChainSound(s.(rows := InsertBlock(s.rows, b))) && FirmPersists(s, s.(rows := InsertBlock(s.rows, b)))
  {
    var t := s.(rows := InsertBlock(s.rows, b));
    assert forall n: nat :: Canonical(s.rows, n) ==> n < b.number;
    assert forall n :: n in s.rows && s.rows[n].finalized ==> Canonical(s.rows, n);
    forall tx | Firm(s, tx)
      ensures Firm(t, tx)
    {
      assert Canonical(s.rows, s.events[tx].block);
    }
  }

  lemma FinalizeChain(s: Store, through: Option<nat>)
    requires ChainSound(s) && MayFinalize(s, through)
    ensures ChainSound(s.(rows := Finalize(s.rows, through))) && FirmPersists(s, s.(rows := Finalize(s.rows, through)))
  {
  }

  lemma IndexEventChain(s: Store, e: Event)
    requires ChainSound(s) && MinedOnce(s, e) && LogIndexFree(s, e)
    ensures ChainSound(s.(events := s.events[e.tx := e])) && FirmPersists(s, s.(events := s.events[e.tx := e]))
  {
  }

  lemma RollbackChain(s: Store, ancestor: nat, retry: Option<JobId>)
    requires ChainSound(s)
    ensures ChainSound(RollbackAfter(s, ancestor, retry))
  {
  }

  /** A firm event at or below the ancestor survives a rollback unchanged. */
  lemma RollbackFirm(s: Store, ancestor: nat, retry: Option<JobId>, tx: Hash)
    requires Firm(s, tx) && s.events[tx].block <= ancestor
    ensures var t := RollbackAfter(s, ancestor, retry); Firm(t, tx) && t.events[tx] == s.events[tx]
  {
  }

  // ---------- the indexer: rollback ----------

  /** What is left after a rollback was there before, with its hash unless that was of stored bytes. */
  lemma RollbackRow(s: Store, ancestor: nat, retry: Option<JobId>, id: JobId)
    requires RecoveredPlaced(s) && SaneJobs(s.jobs) && id in s.jobs
    ensures var j, k := s.jobs[id], RolledBack(s, ancestor, retry, id);
      && k.input == j.input
      && (forall tx :: CarriesHash(k, tx) <==> CarriesHash(j, tx))
      && (j.input.recovered ==> k.txHash == j.txHash && k.block == j.block)
  {
    var j := s.jobs[id];
    if j.input.recovered {
      assert Placed(s, j);
    } else {
      assert j.txHash.Some? ==> j.prepared.Some? && j.txHash.value == j.prepared.value.hash;
    }
  }

  /** A rebuilt row goes exactly when its block does, because nothing refers to it. */
  lemma RecoveredGoes(s: Store, ancestor: nat, id: JobId)
    requires SaneJobs(s.jobs) && References(s) && id in s.jobs && s.jobs[id].input.recovered
    ensures Deleted(s, ancestor, id) <==> Above(s.jobs[id], ancestor)
  {
  }

  lemma RollbackPlaced(s: Store, ancestor: nat, retry: Option<JobId>)
    requires RecoveredPlaced(s) && SaneJobs(s.jobs) && References(s)
    ensures RecoveredPlaced(RollbackAfter(s, ancestor, retry))
  {
    var t := RollbackAfter(s, ancestor, retry);
    forall id | id in t.jobs && t.jobs[id].input.recovered
      ensures Placed(t, t.jobs[id])
    {
      RollbackRow(s, ancestor, retry, id);
      RecoveredGoes(s, ancestor, id);
      assert Placed(s, s.jobs[id]);
      RollbackFirm(s, ancestor, retry, s.jobs[id].txHash.value);
    }
  }

  lemma OwnRemains(s: Store, ancestor: nat, retry: Option<JobId>, id: JobId)
    requires Own(s.jobs, id)
    ensures Own(RollbackAfter(s, ancestor, retry).jobs, id)
  {
  }

  lemma RollbackReferences(s: Store, ancestor: nat, retry: Option<JobId>)
    requires References(s) && RetryChoice(s.jobs, ancestor, retry)
    ensures References(RollbackAfter(s, ancestor, retry))
  {
    var t := RollbackAfter(s, ancestor, retry);
    if t.writer.job.Some? {
      OwnRemains(s, ancestor, retry, t.writer.job.value);
    }
    forall id | id in t.pending
      ensures Own(t.jobs, id)
    {
      OwnRemains(s, ancestor, retry, id);
    }
    forall k | k in t.keys
      ensures Own(t.jobs, t.keys[k])
    {
      OwnRemains(s, ancestor, retry, s.keys[k]);
    }
  }

  lemma RollbackUnique(s: Store, ancestor: nat, retry: Option<JobId>)
    requires HashUnique(s.jobs) && RecoveredPlaced(s) && SaneJobs(s.jobs)
    ensures HashUnique(RollbackAfter(s, ancestor, retry).jobs)
  {
    var jobs := RollbackAfter(s, ancestor, retry).jobs;
    forall id, tx | id in jobs && CarriesHash(jobs[id], tx)
      ensures id in s.jobs && CarriesHash(s.jobs[id], tx)
    {
      RollbackRow(s, ancestor, retry, id);
    }
  }

  lemma RollbackConfigured(s: Store, ancestor: nat, retry: Option<JobId>)
    requires JobsConfigured(s)
    ensures JobsConfigured(RollbackAfter(s, ancestor, retry))
  {
    var t := RollbackAfter(s, ancestor, retry);
    forall id | id in t.jobs
      ensures Names(t.outerKey, t.feeKey, t.jobs[id].input.submission)
    {
      RolledBackRow(s, ancestor, retry, id);
    }
  }

  // ---------- the indexer: recovery and reconciliation ----------

  lemma InsertUnique(s: Store, id: JobId, e: Event)
    requires HashUnique(s.jobs) && OwnerChoice(s.jobs, e.tx, None) && id !in s.jobs
    ensures HashUnique(InsertRecovered(s, id, e).jobs)
  {
  }

  lemma InsertRows(s: Store, id: JobId, e: Event)
    requires RecoveredPlaced(s) && References(s) && JobsConfigured(s) && id !in s.jobs
    requires FinalEvent(s, e.tx) && s.events[e.tx] == e
    ensures var t := InsertRecovered(s, id, e); RecoveredPlaced(t) && References(t) && JobsConfigured(t)
  {
    var t := InsertRecovered(s, id, e);
    FinalIsCanonical(s, e.tx);
    assert Firm(t, e.tx);
    forall o | o in t.jobs && t.jobs[o].input.recovered
      ensures Placed(t, t.jobs[o])
    {
      if o != id {
        assert Placed(s, s.jobs[o]);
      }
    }
  }

  lemma InsertApplied(s: Store, id: JobId, e: Event)
    requires id !in s.jobs
    ensures forall tx :: AlreadyApplied(s, tx) ==> AlreadyApplied(InsertRecovered(s, id, e), tx)
    ensures forall tx :: FinalEvent(InsertRecovered(s, id, e), tx) <==> FinalEvent(s, tx)
  {
    var t := InsertRecovered(s, id, e);
    forall tx | AlreadyApplied(s, tx)
      ensures AlreadyApplied(t, tx)
    {
      var o :| o in s.jobs && s.jobs[o].txHash == Some(tx) && s.jobs[o].status.Confirmed?
        && Ledger.Recorded(s.ledger.history, o);
      assert o in t.jobs && t.jobs[o] == s.jobs[o];
    }
  }

  lemma ConfirmUnique(s: Store, id: JobId, e: Event)
    requires HashUnique(s.jobs) && HashesStored(s.jobs) && id in s.jobs && CarriesHash(s.jobs[id], e.tx)
    ensures HashUnique(ConfirmRecovered(s, id, e).jobs)
  {
    assert HashStored(s.jobs[id]);
    var jobs := ConfirmRecovered(s, id, e).jobs;
    assert forall o, tx :: o in jobs && CarriesHash(jobs[o], tx) ==> CarriesHash(s.jobs[o], tx);
  }

  lemma ConfirmRows(s: Store, id: JobId, e: Event)
    requires RecoveredPlaced(s) && References(s) && JobsConfigured(s) && SaneJobs(s.jobs)
    requires id in s.jobs && CarriesHash(s.jobs[id], e.tx) && FinalEvent(s, e.tx) && s.events[e.tx] == e
    ensures var t := ConfirmRecovered(s, id, e); RecoveredPlaced(t) && References(t) && JobsConfigured(t)
  {
    var t := ConfirmRecovered(s, id, e);
    FinalIsCanonical(s, e.tx);
    assert Firm(t, e.tx);
    forall o | o in t.jobs && t.jobs[o].input.recovered
      ensures Placed(t, t.jobs[o])
    {
      assert Placed(s, s.jobs[o]);
    }
  }

  /** What a truthful receipt changes of a row: its status, and an inclusion block a firm event confirms. */
  lemma ReconcileRow(s: Store, id: JobId, mined: Mined, final: bool)
    requires RecoveredPlaced(s) && ReceiptTruthful(s, id, mined, final) && Reconcilable(s, id, mined)
    ensures var j, k := s.jobs[id], Reconcile(s, id, mined, final).jobs[id];
      && k == j.(status := k.status, block := k.block)
      && (j.input.recovered ==> k.block == j.block)
      && (j.status.Confirmed? && FinalEvent(s, j.txHash.value) ==> k.status.Confirmed?)
  {
    if s.jobs[id].input.recovered {
      assert Placed(s, s.jobs[id]);
    }
    if FinalEvent(s, s.jobs[id].txHash.value) {
      FinalIsCanonical(s, s.jobs[id].txHash.value);
    }
  }

  lemma OneStatusRows(s: Store, t: Store, id: JobId)
    requires RowsSound(s) && id in s.jobs && t.jobs.Keys == s.jobs.Keys
    requires forall o :: o in s.jobs && o != id ==> t.jobs[o] == s.jobs[o]
    requires t.jobs[id] == s.jobs[id].(status := t.jobs[id].status, block := t.jobs[id].block)
    requires s.jobs[id].input.recovered ==> t.jobs[id].block == s.jobs[id].block
    requires t == s.(jobs := t.jobs, pending := t.pending) && t.pending <= s.pending
    ensures RowsSound(t)
  {
    assert forall o, tx :: o in t.jobs && CarriesHash(t.jobs[o], tx) ==> CarriesHash(s.jobs[o], tx);
    forall o | o in t.jobs && t.jobs[o].input.recovered
      ensures Placed(t, t.jobs[o])
    {
      assert Placed(s, s.jobs[o]);
    }
  }

  lemma ReconcileRows(s: Store, id: JobId, mined: Mined, final: bool)
    requires RowsSound(s) && ReceiptTruthful(s, id, mined, final)
    ensures RowsSound(Reconcile(s, id, mined, final))
  {
    if Reconcilable(s, id, mined) {
      ReconcileRow(s, id, mined, final);
      OneStatusRows(s, Reconcile(s, id, mined, final), id);
    }
  }

  lemma ReconcileApplied(s: Store, id: JobId, mined: Mined, final: bool)
    requires RecoveredPlaced(s) && ReceiptTruthful(s, id, mined, final) && AllApplied(s)
    ensures AllApplied(Reconcile(s, id, mined, final))
  {
    var t := Reconcile(s, id, mined, final);
    forall tx | FinalEvent(t, tx)
      ensures AlreadyApplied(t, tx)
    {
      assert FinalEvent(s, tx);
      var o :| o in s.jobs && s.jobs[o].txHash == Some(tx) && s.jobs[o].status.Confirmed?
        && Ledger.Recorded(s.ledger.history, o);
      if Reconcilable(s, id, mined) {
        ReconcileRow(s, id, mined, final);
      }
      assert t.jobs[o].txHash == Some(tx) && t.jobs[o].status.Confirmed?;
    }
  }

  /** Reconciliation finds every final receipt already applied, so it applies nothing itself. */
  lemma ReconcileAppliesNothing(s: Store, id: JobId, mined: Mined, receipt: Receipt)
    requires HashUnique(s.jobs) && AllApplied(s)
    requires Reconcilable(s, id, mined) && mined.succeeded && ReceiptTruthful(s, id, mined, true)
    ensures Or(s, ReconcileReceipt(s, id, mined, receipt)) == s
  {
    var tx := s.jobs[id].txHash.value;
    assert FinalEvent(s, tx);
    assert AlreadyApplied(s, tx);
    var o :| o in s.jobs && s.jobs[o].txHash == Some(tx) && s.jobs[o].status.Confirmed?
      && Ledger.Recorded(s.ledger.history, o);
    assert CarriesHash(s.jobs[o], tx) && CarriesHash(s.jobs[id], tx);
    assert o == id;
  }

  // ---------- every step of the indexer ----------

  lemma BlocksKeepChain(y: System, step: Step)
    requires ChainSound(y.db) && (step.StepIndexRow? || step.StepFinalize?) && Next(y, step) != y
    ensures ChainSound(Next(y, step).db) && FirmPersists(y.db, Next(y, step).db)
    ensures Next(y, step).db == y.db.(rows := Next(y, step).db.rows) && !Next(y, step).phase.Applied?
    ensures !Next(y, step).phase.Recovering? && !Next(y, step).phase.Reconciling?
  {
    if step.StepIndexRow? {
      IndexRowNext(y, step);
      IndexRowChain(y.db, step.block);
    } else {
      FinalizeNext(y, step);
      FinalizeChain(y.db, step.through);
    }
  }

  lemma IndexingKeepsCore(y: System, step: Step)
    requires CoreHolds(y) && (step.StepIndexRow? || step.StepFinalize? || step.StepIndexEvent?)
    ensures ChainSound(Next(y, step).db) && RowsSound(Next(y, step).db)
    ensures PassSound(Next(y, step).db, Next(y, step).phase)
  {
    if Next(y, step) != y {
      if step.StepIndexEvent? {
        IndexEventNext(y, step);
        IndexEventChain(y.db, step.event);
      } else {
        BlocksKeepChain(y, step);
      }
      PlacedPersists(y.db, Next(y, step).db);
    }
  }

  lemma RollbackKeepsCore(y: System, step: Step)
    requires CoreHolds(y) && step.StepRollback?
    ensures ChainSound(Next(y, step).db) && RowsSound(Next(y, step).db)
    ensures PassSound(Next(y, step).db, Next(y, step).phase)
  {
    if Next(y, step) != y {
      RollbackNext(y, step);
      RollbackChain(y.db, step.ancestor, step.retry);
      RollbackUnique(y.db, step.ancestor, step.retry);
      RollbackPlaced(y.db, step.ancestor, step.retry);
      RollbackReferences(y.db, step.ancestor, step.retry);
      RollbackConfigured(y.db, step.ancestor, step.retry);
    }
  }

  lemma EventListPending(s: Store, head: nat, todo: seq<Event>)
    requires Below(s.rows, head) && EventList(s, todo)
    ensures PassSound(s.(cursor := Advanced(s.cursor, head)), Recovering(todo))
  {
    var t := s.(cursor := Advanced(s.cursor, head));
    assert forall tx :: FinalEvent(t, tx) <==> FinalEvent(s, tx);
    assert forall m: nat :: Canonical(t.rows, m) ==> Canonical(s.rows, m);
  }

  lemma EndEventsKeepsCore(y: System, step: Step)
    requires CoreHolds(y) && step.StepEndEvents?
    ensures ChainSound(Next(y, step).db) && RowsSound(Next(y, step).db)
    ensures PassSound(Next(y, step).db, Next(y, step).phase)
  {
    if Next(y, step) != y {
      EndEventsNext(y, step);
      EventListPending(y.db, step.head, step.todo);
      PlacedPersists(y.db, Next(y, step).db);
    }
  }

  lemma InsertKeepsCore(y: System, step: Step)
    requires CoreHolds(y) && step.StepInsertRecovered?
    ensures ChainSound(Next(y, step).db) && RowsSound(Next(y, step).db)
    ensures PassSound(Next(y, step).db, Next(y, step).phase)
  {
    if Next(y, step) != y {
      InsertRecoveredNext(y, step);
      var e := y.phase.todo[0];
      InsertUnique(y.db, step.id, e);
      InsertRows(y.db, step.id, e);
      InsertApplied(y.db, step.id, e);
    }
  }

  lemma TailOrdered(todo: seq<Event>)
    requires todo != [] && TodoOrdered(todo)
    ensures TodoOrdered(todo[1..])
  {
  }

  lemma SkipKeepsCore(y: System, step: Step)
    requires CoreHolds(y) && step.StepSkip?
    ensures ChainSound(Next(y, step).db) && RowsSound(Next(y, step).db)
    ensures PassSound(Next(y, step).db, Next(y, step).phase)
  {
    if Next(y, step) != y {
      SkipNext(y, step);
      SkipSafe(y.db, y.phase.todo);
      TailOrdered(y.phase.todo);
    }
  }

  lemma ReceiptKeepsRows(s: Store, t: Store, id: JobId, e: Event)
    requires AppliedTo(s, id, e) == Success(t)
    ensures t == s.(ledger := t.ledger, actions := t.actions, pending := t.pending) && t.pending <= s.pending
    ensures Ledger.Recorded(t.ledger.history, id)
    ensures forall o :: Ledger.Recorded(s.ledger.history, o) ==> Ledger.Recorded(t.ledger.history, o)
  {
    ApplyRecords(s.ledger, ApplicationFor(s, id, e.block, e.hash, e.receipt));
  }

  lemma LedgerKeepsRows(s: Store, t: Store)
    requires t == s.(ledger := t.ledger, actions := t.actions, pending := t.pending) && t.pending <= s.pending
    requires forall o :: Ledger.Recorded(s.ledger.history, o) ==> Ledger.Recorded(t.ledger.history, o)
    ensures RowsSound(s) ==> RowsSound(t)
    ensures ChainSound(s) ==> ChainSound(t)
    ensures forall tx :: FinalEvent(t, tx) <==> FinalEvent(s, tx)
    ensures forall tx :: AlreadyApplied(s, tx) ==> AlreadyApplied(t, tx)
  {
    if RecoveredPlaced(s) {
      assert FirmPersists(s, t);
      PlacedPersists(s, t);
    }
    forall tx | AlreadyApplied(s, tx)
      ensures AlreadyApplied(t, tx)
    {
      var o :| o in s.jobs && s.jobs[o].txHash == Some(tx) && s.jobs[o].status.Confirmed?
        && Ledger.Recorded(s.ledger.history, o);
      assert t.jobs[o] == s.jobs[o];
    }
  }

  lemma ApplyKeepsCore(y: System, step: Step)
    requires CoreHolds(y) && step.StepApply?
    ensures ChainSound(Next(y, step).db) && RowsSound(Next(y, step).db)
    ensures PassSound(Next(y, step).db, Next(y, step).phase)
  {
    if Next(y, step) != y {
      ApplyNext(y, step);
      if Next(y, step).phase.Applied? {
        ReceiptKeepsRows(y.db, Next(y, step).db, step.id, y.phase.todo[0]);
        LedgerKeepsRows(y.db, Next(y, step).db);
      }
    }
  }

  lemma ConfirmKeepsCore(y: System, step: Step)
    requires CoreHolds(y) && step.StepConfirm?
    ensures ChainSound(Next(y, step).db) && RowsSound(Next(y, step).db)
    ensures PassSound(Next(y, step).db, Next(y, step).phase)
  {
    if Next(y, step) != y {
      ConfirmNext(y, step);
      var id, todo := y.phase.id, y.phase.todo;
      SaneStored(y.db.jobs);
      ConfirmUnique(y.db, id, todo[0]);
      ConfirmRows(y.db, id, todo[0]);
      ConfirmPhase(y.db, id, todo);
      TailOrdered(todo);
    }
  }

  lemma AllAppliedAtEnd(s: Store)
    requires TodoPending(s, [])
    ensures AllApplied(s)
  {
  }

  lemma MovingKeepsCore(y: System, step: Step)
    requires CoreHolds(y) && (step.StepBeginTick? || step.StepAbortTick? || step.StepEndRecovery?)
    ensures ChainSound(Next(y, step).db) && RowsSound(Next(y, step).db)
    ensures PassSound(Next(y, step).db, Next(y, step).phase)
  {
    if Next(y, step) != y {
      MovingNext(y, step);
      if y.phase == Recovering([]) {
        AllAppliedAtEnd(y.db);
      }
    }
  }

  lemma ReconcileApplyNext(y: System, step: Step)
    requires CoreHolds(y) && step.StepReconcileApply?
    ensures Next(y, step) == y
  {
    var s := y.db;
    if y.phase.Reconciling? && Reconcilable(s, step.id, step.mined) && step.mined.succeeded
      && ReceiptTruthful(s, step.id, step.mined, true)
    {
      ReconcileAppliesNothing(s, step.id, step.mined, step.receipt);
    }
  }

  lemma ReconcilingKeepsCore(y: System, step: Step)
    requires CoreHolds(y) && (step.StepReconcile? || step.StepReady?)
    ensures ChainSound(Next(y, step).db) && RowsSound(Next(y, step).db)
    ensures PassSound(Next(y, step).db, Next(y, step).phase)
  {
    if Next(y, step) != y {
      if step.StepReady? {
        ReadyNext(y, step);
        PlacedPersists(y.db, Next(y, step).db);
      } else {
        ReconcileNext(y, step);
        ReconcileRows(y.db, step.id, step.mined, step.final);
        ReconcileApplied(y.db, step.id, step.mined, step.final);
        ReconcileChain(y.db, step.id, step.mined, step.final);
      }
    }
  }

  lemma ReconcileChain(s: Store, id: JobId, mined: Mined, final: bool)
    requires ChainSound(s)
    ensures ChainSound(Reconcile(s, id, mined, final))
  {
  }

  lemma StepKeepsCore(y: System, step: Step)
    requires CoreHolds(y)
    ensures CoreHolds(Next(y, step))
  {
    if !ByIndexer(step) {
      if Possible(y, step) {
        WorkKeepsCore(y, step);
      }
    } else {
      StepKeepsBase(y, step);
      IndexerKeepsCore(y, step);
    }
  }

  lemma BoundaryKeepsCore(y: System, step: Step)
    requires CoreHolds(y) && (step.StepRollback? || step.StepEndEvents?)
    ensures ChainSound(Next(y, step).db) && RowsSound(Next(y, step).db)
    ensures PassSound(Next(y, step).db, Next(y, step).phase)
  {
    if step.StepRollback? {
      RollbackKeepsCore(y, step);
    } else {
      EndEventsKeepsCore(y, step);
    }
  }

  lemma RecoveringStepKeepsCore(y: System, step: Step)
    requires CoreHolds(y) && (step.StepSkip? || step.StepInsertRecovered? || step.StepApply? || step.StepConfirm?)
    ensures ChainSound(Next(y, step).db) && RowsSound(Next(y, step).db)
    ensures PassSound(Next(y, step).db, Next(y, step).phase)
  {
    match step
    case StepSkip => SkipKeepsCore(y, step);
    case StepInsertRecovered(_) => InsertKeepsCore(y, step);
    case StepApply(_) => ApplyKeepsCore(y, step);
    case StepConfirm => ConfirmKeepsCore(y, step);
  }

  lemma IndexerKeepsCore(y: System, step: Step)
    requires CoreHolds(y) && ByIndexer(step)
    ensures ChainSound(Next(y, step).db) && RowsSound(Next(y, step).db)
    ensures PassSound(Next(y, step).db, Next(y, step).phase)
  {
    if step.StepRollback? || step.StepEndEvents? {
      BoundaryKeepsCore(y, step);
    } else if ReadsChain(step) {
      IndexingKeepsCore(y, step);
    } else if step.StepSkip? || step.StepInsertRecovered? || step.StepApply? || step.StepConfirm? {
      RecoveringStepKeepsCore(y, step);
    } else if step.StepReconcileApply? {
      ReconcileApplyNext(y, step);
    } else if step.StepReconcile? || step.StepReady? {
      ReconcilingKeepsCore(y, step);
    } else {
      MovingKeepsCore(y, step);
    }
  }

  /** The part of the tables that only indexing blocks and events changes, and the configuration. */
  predicate SameChainTables(s: Store, t: Store) {
    t.mode == s.mode && t.outerKey == s.outerKey && t.feeKey == s.feeKey && t.rows == s.rows && t.events == s.events
  }

  predicate ReadsChain(step: Step) {
    step.StepRollback? || step.StepIndexRow? || step.StepFinalize? || step.StepIndexEvent?
  }

  lemma PassKeepsChain(y: System, step: Step)
    requires step.StepBeginTick? || step.StepAbortTick? || step.StepEndRecovery? || step.StepSkip?
      || step.StepEndEvents?
    ensures SameChainTables(y.db, Next(y, step).db) && Next(y, step).db.actions == y.db.actions
  {
  }

  lemma JobStepsKeepChain(y: System, step: Step)
    requires step.StepInsertRecovered? || step.StepConfirm? || step.StepReconcile? || step.StepReady?
    ensures SameChainTables(y.db, Next(y, step).db) && Next(y, step).db.actions == y.db.actions
  {
    if Next(y, step) != y {
      match step
      case StepInsertRecovered(_) => InsertRecoveredNext(y, step);
      case StepConfirm => ConfirmNext(y, step);
      case StepReconcile(_, _, _) => ReconcileNext(y, step);
      case StepReady => ReadyNext(y, step);
    }
  }

  lemma ApplyKeepsChain(y: System, step: Step)
    requires step.StepApply?
    ensures SameChainTables(y.db, Next(y, step).db)
  {
    if Next(y, step) != y {
      ApplyNext(y, step);
    }
  }

  lemma LateStepKeepsChain(y: System, step: Step)
    requires CoreHolds(y) && ByIndexer(step) && !ReadsChain(step)
    ensures SameChainTables(y.db, Next(y, step).db)
    ensures !step.StepApply? ==> Next(y, step).db.actions == y.db.actions
  {
    if step.StepApply? {
      ApplyKeepsChain(y, step);
    } else if step.StepReconcileApply? {
      ReconcileApplyNext(y, step);
    } else if step.StepInsertRecovered? || step.StepConfirm? || step.StepReconcile? || step.StepReady? {
      JobStepsKeepChain(y, step);
    } else {
      PassKeepsChain(y, step);
    }
  }

  lemma ReadingKeepsKeys(y: System, step: Step)
    requires ReadsChain(step)
    ensures var s, t := y.db, Next(y, step).db; t.mode == s.mode && t.outerKey == s.outerKey && t.feeKey == s.feeKey
    ensures !step.StepRollback? ==> Next(y, step).db.actions == y.db.actions
  {
  }

  lemma {:induction false} RunKeepsCore(y: System, steps: seq<Step>)
    requires CoreHolds(y)
    ensures CoreHolds(Run(y, steps))
    decreases |steps|
  {
    if steps != [] {
      RunKeepsCore(y, steps[..|steps| - 1]);
      StepKeepsCore(Run(y, steps[..|steps| - 1]), steps[|steps| - 1]);
    }
  }

  lemma InitialCore(mode: Mode, outerKey: Key, feeKey: Key, accounts: Ledger.Accounts)
    ensures CoreHolds(Initial(mode, outerKey, feeKey, accounts))
  {
  }
}
