/**
  Whole runs.  HTTP clients, one proof worker and one indexer take turns on the
  gateway's tables; the prover, the chain and crashes are the environment.  A
  crash needs no step of its own: an actor that never moves again has crashed,
  and a restarted one begins a new claim or a new indexer pass.
 */
module Runs {
  import opened Common
  import opened Chain
  import opened ActionLog
  import opened Gateway
  import Ledger

  datatype Call = Call(job: JobId, intent: nat)
  datatype Answer = Answer(intent: nat, request: Hash)
  datatype Sent = Sent(job: JobId, raw: Hash)
  datatype ClaimOf = ClaimOf(job: JobId, attempts: nat)
  datatype Holding = Holding(job: JobId, prepared: Prepared)

  /** What actors hold in memory, and what has crossed to the outside. */
  datatype Outside = Outside(
    claims: set<ClaimOf>,     // generations handed to a worker, however old
    intents: set<Call>,       // sealed intents whose request has not been made yet
    calls: seq<Call>,         // request_proof, in order
    answers: set<Answer>,     // request ids the prover gave out
    holding: set<Holding>,    // signed transactions read back from the store
    broadcasts: seq<Sent>)    // raw transactions handed to the chain, in order

  datatype Phase =
    | Idle
    | Indexing
    | Exploring
    | Recovering(todo: seq<Event>)
    | Applied(todo: seq<Event>, id: JobId)
    | Reconciling

  datatype System = System(db: Store, out: Outside, phase: Phase)

  datatype Step =
    // time
    | Tick(elapsed: nat)
    // HTTP admission
    | StepAcquire(owner: string, ttl: Option<nat>, checkpoint: Checkpoint, uuid: nat)
    | StepRenew(token: Token, seconds: nat)
    | StepRelease(token: Token)
    | StepCreateJob(id: JobId, kind: Kind, input: Input, uuid: nat)
    | StepSendZkapp(id: JobId, input: Input)
    | StepApprove(id: JobId, digest: Hash)
    | StepCancel(id: JobId)
    // worker
    | StepRecoverInterrupted
    | StepClaim(id: JobId)
    | StepSaveDigest(id: JobId, attempts: nat, digest: Hash)
    | StepSavePreflight(id: JobId, attempts: nat, values: Hash)
    | StepEndPreflight(id: JobId, attempts: nat, executeOnly: bool)
    | StepSetProving(id: JobId, attempts: nat)
    | StepBeginProof(id: JobId, attempts: nat, intent: nat)
    | StepCallProver(id: JobId, intent: nat)
    | StepProverAnswers(id: JobId, intent: nat, request: Hash)
    | StepFinishProof(id: JobId, intent: nat, request: Hash)
    | StepSaveProof(id: JobId, attempts: nat, proof: Hash, values: Hash)
    | StepBeginSend(id: JobId, attempts: nat, proof: Hash, values: Hash)
    | StepPersist(id: JobId, attempts: nat, prepared: Prepared)
    | StepBroadcast(id: JobId, prepared: Prepared)
    | StepMarkSubmitted(id: JobId, attempts: nat)
    | StepRecordFailure(id: JobId, attempts: nat, retryable: bool, delay: nat)
    // indexer
    | StepBeginTick
    | StepAbortTick
    | StepRollback(ancestor: nat, retry: Option<JobId>)
    | StepIndexRow(block: Block)
    | StepFinalize(through: Option<nat>)
    | StepIndexEvent(event: Event)
    | StepEndEvents(head: nat, todo: seq<Event>)
    | StepSkip
    | StepInsertRecovered(id: JobId)
    | StepApply(id: JobId)
    | StepConfirm
    | StepEndRecovery
    | StepReconcileApply(id: JobId, mined: Mined, receipt: Receipt)
    | StepReconcile(id: JobId, mined: Mined, final: bool)
    | StepReady

  // ---------- what the environment guarantees ----------

  /** UUIDs are never drawn twice. */
  ghost predicate FreshIntent(out: Outside, intent: nat) {
    && (forall c :: c in out.intents ==> c.intent != intent)
    && (forall i :: 0 <= i < |out.calls| ==> out.calls[i].intent != intent)
  }

  /** Two jobs never sign the same transaction: its nonce is filled from the chain. */
  ghost predicate FreshSignature(jobs: Jobs, id: JobId, prepared: Prepared) {
    forall o :: o in jobs && o != id ==> !CarriesHash(jobs[o], prepared.hash)
  }

  /** The event lies in a block of the local chain. */
  predicate CanonicalEvent(s: Store, tx: Hash) {
    tx in s.events && !s.events[tx].removed
    && Canonical(s.rows, s.events[tx].block) && s.rows[s.events[tx].block].hash == s.events[tx].hash
  }

  /**
    What the node can be relied on not to contradict: consensus finality, or,
    where there is none, the chain whose blocks the same pass has indexed.
   */
  predicate Firm(s: Store, tx: Hash) {
    if s.mode.Finalized? then FinalEvent(s, tx) else CanonicalEvent(s, tx)
  }

  /** A transaction is mined once along one chain. */
  ghost predicate MinedOnce(s: Store, e: Event) {
    Firm(s, e.tx) ==> e == s.events[e.tx]
  }

  /** Log indices are unique within a block. */
  ghost predicate LogIndexFree(s: Store, e: Event) {
    forall tx :: tx in s.events && tx != e.tx && s.events[tx].block == e.block && s.events[tx].hash == e.hash ==>
      s.events[tx].log != e.log
  }

  /**
    A receipt is final exactly when its block is (both follow from the pass's
    own boundary); a final success has its accepted event in the table (every
    accepted event is indexed); and an event's transaction has that receipt.
   */
  ghost predicate ReceiptTruthful(s: Store, id: JobId, mined: Mined, final: bool) {
    id in s.jobs && s.jobs[id].txHash.Some? && Canonical(s.rows, mined.number) ==>
      var tx := s.jobs[id].txHash.value;
      && final == s.rows[mined.number].finalized
      && (final && mined.succeeded ==> FinalEvent(s, tx))
      && (Firm(s, tx) ==> mined == Mined(s.events[tx].block, s.events[tx].hash, true))
  }

  /** The recovery query: every final event, in block and then log order. */
  ghost predicate EventList(s: Store, todo: seq<Event>) {
    && (forall i :: 0 <= i < |todo| ==> FinalEvent(s, todo[i].tx) && s.events[todo[i].tx] == todo[i])
    && (forall tx :: FinalEvent(s, tx) ==> s.events[tx] in todo)
    && (forall i, j :: 0 <= i < j < |todo| ==> todo[i].tx != todo[j].tx && Before(todo[i], todo[j]))
  }

  predicate Before(a: Event, b: Event) {
    a.block < b.block || (a.block == b.block && a.log <= b.log)
  }

  ghost predicate MayRollBack(s: Store, ancestor: int) {
    s.mode.Finalized? ==> forall n :: n in s.rows && s.rows[n].canonical && s.rows[n].finalized ==> n <= ancestor
  }

  ghost predicate MayFinalize(s: Store, through: Option<nat>) {
    s.mode.Finalized? ==>
      through.Some? && forall n :: n in s.rows && s.rows[n].canonical && s.rows[n].finalized ==> n <= through.value
  }

  // ---------- the transitions ----------

  function Or(s: Store, r: Result<Store>): Store {
    match r
    case Success(t) => t
    case Failure(_) => s
  }

  /** The transaction of an HTTP or worker step on the tables. */
  function Transact(s: Store, step: Step): Store {
    match step
    case Tick(elapsed) => s.(now := s.now + elapsed)
    case StepAcquire(owner, ttl, checkpoint, uuid) => Or(s, Acquire(s, owner, ttl, checkpoint, uuid))
    case StepRenew(token, seconds) => Or(s, Renew(s, token, seconds))
    case StepRelease(token) => Or(s, Release(s, token))
    case StepCreateJob(id, kind, input, uuid) => Or(s, CreateJob(s, id, kind, input, uuid))
    case StepSendZkapp(id, input) => Or(s, SendZkapp(s, id, input))
    case StepApprove(id, digest) => Or(s, Approve(s, id, digest))
    case StepCancel(id) => Or(s, Cancel(s, id))
    case StepRecoverInterrupted => RecoverInterrupted(s)
    case StepClaim(id) => Claim(s, id)
    case StepSaveDigest(id, attempts, digest) => Or(s, SaveDigest(s, id, attempts, digest))
    case StepSavePreflight(id, attempts, values) => Or(s, SavePreflight(s, id, attempts, values))
    case StepEndPreflight(id, attempts, executeOnly) => Or(s, EndPreflight(s, id, attempts, executeOnly))
    case StepSetProving(id, attempts) => Or(s, SetProving(s, id, attempts))
    case StepBeginProof(id, attempts, intent) => Or(s, BeginProofRequest(s, id, attempts, intent))
    case StepFinishProof(id, intent, request) => Or(s, FinishProofRequest(s, id, intent, request))
    case StepSaveProof(id, attempts, proof, values) => Or(s, SaveProof(s, id, attempts, proof, values))
    case StepBeginSend(id, attempts, proof, values) => Or(s, BeginSend(s, id, attempts, proof, values))
    case StepPersist(id, attempts, prepared) => Or(s, PersistPrepared(s, id, attempts, prepared))
    case StepMarkSubmitted(id, attempts) => MarkSubmitted(s, id, attempts)
    case StepRecordFailure(id, attempts, retryable, delay) => Or(s, RecordFailure(s, id, attempts, retryable, delay))
    case _ => s
  }

  predicate ByIndexer(step: Step) {
    step.StepBeginTick? || step.StepAbortTick? || step.StepRollback? || step.StepIndexRow? || step.StepFinalize?
    || step.StepIndexEvent? || step.StepEndEvents? || step.StepSkip? || step.StepInsertRecovered? || step.StepApply?
    || step.StepConfirm? || step.StepEndRecovery? || step.StepReconcileApply? || step.StepReconcile? || step.StepReady?
  }

  /**
    When an HTTP or worker step can be taken at all.  Inputs are rebuilt from
    typed requests: none can claim to be recovered, and only a command carries
    a submission.
   */
  ghost predicate Possible(y: System, step: Step) {
    match step
    case StepCreateJob(id, kind, input, uuid) => !input.recovered && input.submission.None?
    case StepSendZkapp(id, input) => !input.recovered
    case StepSaveDigest(id, attempts, _) => ClaimOf(id, attempts) in y.out.claims
    case StepSavePreflight(id, attempts, _) => ClaimOf(id, attempts) in y.out.claims
    case StepEndPreflight(id, attempts, _) => ClaimOf(id, attempts) in y.out.claims
    case StepSetProving(id, attempts) => ClaimOf(id, attempts) in y.out.claims
    case StepBeginProof(id, attempts, intent) => ClaimOf(id, attempts) in y.out.claims && FreshIntent(y.out, intent)
    case StepCallProver(id, intent) => Call(id, intent) in y.out.intents
    case StepProverAnswers(id, intent, request) =>
      Call(id, intent) in y.out.calls && forall a :: a in y.out.answers ==> a.intent != intent
    case StepFinishProof(id, intent, request) =>
      Call(id, intent) in y.out.calls && Answer(intent, request) in y.out.answers
    case StepSaveProof(id, attempts, _, _) => ClaimOf(id, attempts) in y.out.claims
    case StepBeginSend(id, attempts, _, _) => ClaimOf(id, attempts) in y.out.claims
    case StepPersist(id, attempts, prepared) =>
      ClaimOf(id, attempts) in y.out.claims && FreshSignature(y.db.jobs, id, prepared)
    case StepBroadcast(id, prepared) => Holding(id, prepared) in y.out.holding
    case StepMarkSubmitted(id, attempts) =>
      ClaimOf(id, attempts) in y.out.claims && exists h :: h in y.out.holding && h.job == id
    case StepRecordFailure(id, attempts, _, _) => ClaimOf(id, attempts) in y.out.claims
    case _ => !ByIndexer(step)
  }

  /** What a step leaves in the actors' memory and in the outside world. */
  function Observe(y: System, db: Store, step: Step): Outside {
    match step
    case StepClaim(id) =>
      if id in y.db.jobs && id in db.jobs && db.jobs[id].attempts != y.db.jobs[id].attempts
      then y.out.(claims := y.out.claims + {ClaimOf(id, db.jobs[id].attempts)}) else y.out
    case StepBeginProof(id, attempts, intent) =>
      if BeginProofRequest(y.db, id, attempts, intent).Success?
      then y.out.(intents := y.out.intents + {Call(id, intent)}) else y.out
    case StepCallProver(id, intent) =>
      y.out.(intents := y.out.intents - {Call(id, intent)}, calls := y.out.calls + [Call(id, intent)])
    case StepProverAnswers(id, intent, request) =>
      y.out.(answers := y.out.answers + {Answer(intent, request)})
    case StepBeginSend(id, attempts, proof, values) =>
      if BeginSend(y.db, id, attempts, proof, values).Success? && id in db.jobs && db.jobs[id].prepared.Some?
      then y.out.(holding := y.out.holding + {Holding(id, db.jobs[id].prepared.value)}) else y.out
    case StepPersist(id, attempts, prepared) =>
      if PersistPrepared(y.db, id, attempts, prepared).Success?
      then y.out.(holding := y.out.holding + {Holding(id, prepared)}) else y.out
    case StepBroadcast(id, prepared) => y.out.(broadcasts := y.out.broadcasts + [Sent(id, prepared.raw)])
    case _ => y.out
  }

  /** An indexer step: the phase it runs in, its guard, and the tables and phase it leaves. */
  ghost function IndexerNext(y: System, step: Step): System
    requires ByIndexer(step)
  {
    var s := y.db;
    match step
    case StepBeginTick => if y.phase.Idle? then y.(phase := Indexing) else y
    case StepAbortTick => y.(phase := Idle)
    case StepRollback(ancestor, retry) =>
      if y.phase.Indexing? && MayRollBack(s, ancestor) && RetryChoice(s.jobs, ancestor, retry)
      then y.(db := RollbackAfter(s, ancestor, retry)) else y
    case StepIndexRow(block) =>
      if y.phase.Indexing? && Below(s.rows, block.number - 1)
      then y.(db := s.(rows := InsertBlock(s.rows, block))) else y
    case StepFinalize(through) =>
      if y.phase.Indexing? && MayFinalize(s, through)
      then y.(db := s.(rows := Finalize(s.rows, through)), phase := Exploring) else y
    case StepIndexEvent(e) =>
      if y.phase.Exploring? && e.block > s.cursor && !e.removed && MinedOnce(s, e) && LogIndexFree(s, e)
      then y.(db := s.(events := s.events[e.tx := e])) else y
    case StepEndEvents(head, todo) =>
      if y.phase.Exploring? && Below(s.rows, head) && EventList(s, todo)
      then y.(db := s.(cursor := if s.cursor < head then head else s.cursor), phase := Recovering(todo)) else y
    case StepSkip =>
      if y.phase.Recovering? && y.phase.todo != [] && AlreadyApplied(s, y.phase.todo[0].tx)
      then y.(phase := Recovering(y.phase.todo[1..])) else y
    case StepInsertRecovered(id) =>
      if y.phase.Recovering? && y.phase.todo != [] && !AlreadyApplied(s, y.phase.todo[0].tx)
         && OwnerChoice(s.jobs, y.phase.todo[0].tx, None) && id !in s.jobs
      then y.(db := InsertRecovered(s, id, y.phase.todo[0])) else y
    case StepApply(id) =>
      if y.phase.Recovering? && y.phase.todo != [] && !AlreadyApplied(s, y.phase.todo[0].tx)
         && OwnerChoice(s.jobs, y.phase.todo[0].tx, Some(id)) then
        var e := y.phase.todo[0];
        match ApplyReceipt(s, id, e.tx, e.block, e.hash, e.receipt)
        case Success(t) => y.(db := t, phase := Applied(y.phase.todo, id))
        case Failure(_) => y.(phase := Idle)
      else y
    case StepConfirm =>
      if y.phase.Applied? && y.phase.todo != []
      then System(ConfirmRecovered(s, y.phase.id, y.phase.todo[0]), y.out, Recovering(y.phase.todo[1..])) else y
    case StepEndRecovery => if y.phase == Recovering([]) then y.(phase := Reconciling) else y
    case StepReconcileApply(id, mined, receipt) =>
      if y.phase.Reconciling? && Reconcilable(s, id, mined) && mined.succeeded && ReceiptTruthful(s, id, mined, true)
      then y.(db := Or(s, ReconcileReceipt(s, id, mined, receipt))) else y
    case StepReconcile(id, mined, final) =>
      if y.phase.Reconciling? && ReceiptTruthful(s, id, mined, final)
      then y.(db := Reconcile(s, id, mined, final)) else y
    case StepReady => if y.phase.Reconciling? then y.(db := s.(ready := true), phase := Idle) else y
  }

  /** One step of the whole system; a step that is not possible changes nothing. */
  ghost function Next(y: System, step: Step): System {
    if ByIndexer(step) then IndexerNext(y, step)
    else if !Possible(y, step) then y
    else
      var db := Transact(y.db, step);
      System(db, Observe(y, db, step), y.phase)
  }

  ghost function Run(y: System, steps: seq<Step>): System
    decreases |steps|
  {
    if steps == [] then y else Next(Run(y, steps[..|steps| - 1]), steps[|steps| - 1])
  }

  /** Empty tables around some configured accounts. */
  function Initial(mode: Mode, outerKey: Key, feeKey: Key, accounts: Ledger.Accounts): System {
    System(
      Store(mode, outerKey, feeKey, false, 0, Writer(None, None, 0, None, None, None), map[], map[], {},
            Ledger.State(accounts, []), map[], map[], map[], -1),
      Outside({}, {}, [], {}, {}, []),
      Idle)
  }
}
