/**
  The gateway's durable tables and every database transaction on them.  Each
  function takes the tables as a transaction finds them and gives the tables as
  it commits them; a failed transaction leaves no trace, so it has no result.
 */
module Gateway {
  import opened Common
  import opened Chain
  import opened ActionLog
  import Ledger

  type JobId = nat

  datatype Kind = Settlement | Bridge

  datatype Status =
    | Queued | Validating | AwaitingApproval | Approved | ProofRequested | Proving | Submitting | Submitted
    | Executed | Confirmed | Failed | ProofFailed | Rejected | EthereumReverted | Reorged

  datatype Token = Token(id: nat, fencing: nat)

  datatype Checkpoint = Checkpoint(fields: seq<Field>, action: Field)

  datatype Submission = Submission(outer: Key, feePayer: Key, nonce: nat)

  /** A proof request as admitted; `recovered` marks rows rebuilt from Ethereum. */
  datatype Input = Input(
    digest: Hash,
    key: Option<Hash>,
    token: Option<Token>,
    binding: Option<Checkpoint>,
    submission: Option<Submission>,
    recovered: bool)

  /** Signed transaction bytes and their hash. */
  datatype Prepared = Prepared(hash: Hash, raw: Hash)

  datatype Inclusion = Inclusion(number: nat, hash: Hash)

  datatype Job = Job(
    kind: Kind,
    status: Status,
    attempts: nat,
    input: Input,
    created: nat,
    preflight: Option<Hash>,
    values: Option<Hash>,
    approved: bool,
    intent: Option<nat>,
    request: Option<Hash>,
    proof: Option<Hash>,
    prepared: Option<Prepared>,
    txHash: Option<Hash>,
    block: Option<Inclusion>,
    retries: nat,
    nextAttempt: Option<nat>)

  type Jobs = map<JobId, Job>

  datatype Owner = Client(name: string) | BridgeJob(job: JobId)

  datatype Writer = Writer(
    reservation: Option<nat>,
    owner: Option<Owner>,
    fencing: nat,
    expires: Option<nat>,
    checkpoint: Option<Checkpoint>,
    job: Option<JobId>)

  /** An accepted-submission event, one per transaction. */
  datatype Event = Event(kind: Kind, tx: Hash, block: nat, hash: Hash, log: nat, receipt: Receipt, removed: bool)

  datatype Store = Store(
    mode: Mode,
    outerKey: Key,
    feeKey: Key,
    ready: bool,
    now: nat,
    writer: Writer,
    jobs: Jobs,
    keys: map<Hash, JobId>,
    pending: set<JobId>,
    ledger: Ledger.State,
    actions: ActionTable,
    rows: Rows,
    events: map<Hash, Event>,
    cursor: int)

  // ---------- outcomes ----------

  predicate UnsignedTerminal(j: Job) {
    && j.txHash.None? && j.prepared.None?
    && (j.status.Executed? || j.status.Failed? || j.status.ProofFailed? || j.status.Rejected? || j.status.Reorged?)
  }

  /** The job's outcome is known, so it no longer owns the outer state. */
  predicate Released(j: Job) {
    j.status.Confirmed? || j.status.EthereumReverted? || UnsignedTerminal(j)
  }

  predicate NoLiveJobs(jobs: Jobs, except: Option<JobId>) {
    forall id :: id in jobs && Some(id) != except ==> Released(jobs[id])
  }

  function Put(s: Store, id: JobId, j: Job): Store {
    s.(jobs := s.jobs[id := j])
  }

  // ---------- the outer writer ----------

  predicate Clearable(s: Store) {
    if s.writer.job.Some?
    then s.writer.job.value in s.jobs && Released(s.jobs[s.writer.job.value])
    else s.writer.expires.Some? && s.writer.expires.value <= s.now
  }

  function Vacant(w: Writer): Writer {
    w.(reservation := None, owner := None, expires := None, checkpoint := None, job := None)
  }

  /** `lock`: refused while replaying; frees a lapsed lease or an owner whose outcome is known. */
  function Lock(s: Store): Result<Store> {
    if !s.ready then Failure(NotReady)
    else Success(if Clearable(s) then s.(writer := Vacant(s.writer)) else s)
  }

  predicate Matches(w: Writer, t: Token) {
    w.reservation == Some(t.id) && w.fencing == t.fencing
  }

  function OuterAccount(s: Store): Option<Ledger.Account> {
    if s.outerKey in s.ledger.accounts then Some(s.ledger.accounts[s.outerKey]) else None
  }

  predicate HeadAction(account: Ledger.Account, action: Field) {
    account.actionState.Some? && account.actionState.value != [] && account.actionState.value[0] == action
  }

  predicate AccountMatches(account: Ledger.Account, c: Checkpoint) {
    account.zkappState == c.fields && HeadAction(account, c.action)
  }

  const DEFAULT_TTL: nat := 120

  function Acquire(s: Store, owner: string, ttl: Option<nat>, checkpoint: Checkpoint, uuid: nat): Result<Store> {
    var seconds := ttl.GetOr(DEFAULT_TTL);
    if !(30 <= seconds <= 600) || !(1 <= |owner| <= 200) then Failure(Invalid) else
    var t :- Lock(s);
    if t.writer.reservation.Some? then
      if t.writer.job.Some? || t.writer.owner != Some(Client(owner)) then Failure(WriterBusy)
      else Success(t.(writer := t.writer.(expires := Some(t.now + seconds))))
    else if !NoLiveJobs(t.jobs, None) then Failure(WriterBusy)
    else if OuterAccount(t).None? then Failure(Missing)
    else if !AccountMatches(OuterAccount(t).value, checkpoint) then Failure(StaleCheckpoint)
    else Success(t.(writer := Writer(Some(uuid), Some(Client(owner)), t.writer.fencing + 1,
                                     Some(t.now + seconds), Some(checkpoint), None)))
  }

  /** `renew_token` does not clear the row first: an attached owner is told it still owns. */
  function Renew(s: Store, token: Token, seconds: nat): Result<Store> {
    if !Matches(s.writer, token) then Failure(ReservationExpired)
    else if s.writer.job.Some? then Success(s)
    else if s.writer.expires.None? || s.writer.expires.value <= s.now then Failure(ReservationExpired)
    else Success(s.(writer := s.writer.(expires := Some(s.now + seconds))))
  }

  function Release(s: Store, token: Token): Result<Store> {
    var t :- Lock(s);
    if t.writer.reservation.None? then Success(t)
    else if !Matches(t.writer, token) then Failure(ReservationExpired)
    else if t.writer.job.Some? then Failure(WriterBusy)
    else Success(t.(writer := Vacant(t.writer)))
  }

  function AttachSettlement(s: Store, id: JobId, input: Input): Result<Store> {
    if input.token.None? then Failure(ReservationRequired)
    else if !Matches(s.writer, input.token.value) || s.writer.job.Some? then Failure(ReservationExpired)
    else if !NoLiveJobs(s.jobs, Some(id)) then Failure(WriterBusy)
    else if s.writer.checkpoint.None? || OuterAccount(s).None? then Failure(Missing)
    else if !AccountMatches(OuterAccount(s).value, s.writer.checkpoint.value) then Failure(StaleCheckpoint)
    else if input.binding.None? then Failure(Invalid)
    else if input.binding != s.writer.checkpoint then Failure(StaleCheckpoint)
    else if s.writer.expires.None? || s.writer.expires.value <= s.now then Failure(ReservationExpired)
    else Success(s.(writer := s.writer.(job := Some(id), expires := None)))
  }

  function AttachBridge(s: Store, id: JobId, input: Input, uuid: nat): Result<Store> {
    if s.writer.reservation.Some? then Failure(WriterBusy)
    else if !NoLiveJobs(s.jobs, Some(id)) then Failure(WriterBusy)
    else if input.binding.None? then Failure(Invalid)
    else if OuterAccount(s).None? then Failure(Missing)
    else if !HeadAction(OuterAccount(s).value, input.binding.value.action) then Failure(StaleCheckpoint)
    else Success(s.(writer := Writer(Some(uuid), Some(BridgeJob(id)), s.writer.fencing + 1, None, None, Some(id))))
  }

  // ---------- admission ----------

  function NewJob(kind: Kind, input: Input, now: nat): Job {
    Job(kind, Queued, 0, input, now, None, None, false, None, None, None, None, None, None, 0, None)
  }

  datatype Inserted = Inserted(store: Store, id: JobId)

  /** The idempotent insert: the same key finds its first job, provided the payload is the same. */
  function InsertJob(s: Store, id: JobId, kind: Kind, input: Input): Result<Inserted> {
    if input.key.Some? && input.key.value in s.keys then
      var earlier := s.keys[input.key.value];
      if earlier in s.jobs && s.jobs[earlier].input.digest == input.digest then Success(Inserted(s, earlier))
      else Failure(Mismatch)
    else if id in s.jobs then Failure(Invalid)
    else
      var t := Put(s, id, NewJob(kind, input, s.now));
      Success(Inserted(if input.key.Some? then t.(keys := t.keys[input.key.value := id]) else t, id))
  }

  function Attach(s: Store, id: JobId, kind: Kind, input: Input, uuid: nat): Result<Store> {
    match kind
    case Settlement => AttachSettlement(s, id, input)
    case Bridge => AttachBridge(s, id, input, uuid)
  }

  /** `create_job`, and the job part of `queue_canonical_deposit_batch`. */
  function CreateJob(s: Store, id: JobId, kind: Kind, input: Input, uuid: nat): Result<Store> {
    var locked :- Lock(s);
    var made :- InsertJob(locked, id, kind, input);
    if made.id == id && id !in locked.jobs then Attach(made.store, id, kind, input, uuid)
    else Success(made.store)
  }

  /** A replay of a known job must not put a finished command back in the pool. */
  predicate Poolable(j: Job) {
    || !(j.status.Confirmed? || j.status.Executed? || j.status.Failed? || j.status.ProofFailed?
         || j.status.EthereumReverted? || j.status.Reorged? || j.status.Rejected?)
    || ((j.txHash.Some? || j.prepared.Some?) && !j.status.Confirmed? && !j.status.EthereumReverted?)
  }

  function PayerCheck(s: Store, submission: Submission): Result<()> {
    if submission.feePayer != s.feeKey || submission.outer != s.outerKey then Failure(Mismatch)
    else if submission.feePayer !in s.ledger.accounts then Failure(Missing)
    else if s.ledger.accounts[submission.feePayer].nonce.GetOr(0) != submission.nonce then Failure(Mismatch)
    else Success(())
  }

  /** Insert and, when the job is new, attach it and check it against the configured accounts. */
  function AdmitSettlement(s: Store, id: JobId, input: Input, submission: Submission): Result<Inserted> {
    var locked :- Lock(s);
    var made :- InsertJob(locked, id, Settlement, input);
    if made.id == id && id !in locked.jobs then
      var attached :- AttachSettlement(made.store, id, input);
      var _ :- PayerCheck(attached, submission);
      Success(Inserted(attached, id))
    else Success(made)
  }

  function SendZkapp(s: Store, id: JobId, input: Input): Result<Store> {
    if input.submission.None? then Failure(Invalid) else
    var admitted :- AdmitSettlement(s, id, input, input.submission.value);
    var t := admitted.store;
    Success(if admitted.id in t.jobs && Poolable(t.jobs[admitted.id])
            then t.(pending := t.pending + {admitted.id}) else t)
  }

  function Approve(s: Store, id: JobId, digest: Hash): Result<Store> {
    if id !in s.jobs then Failure(Missing)
    else if !s.jobs[id].status.AwaitingApproval? || s.jobs[id].preflight.GetOr(s.jobs[id].input.digest) != digest
    then Failure(Cancelled)
    else Success(Put(s, id, s.jobs[id].(status := Approved, approved := true)))
  }

  predicate Cancellable(j: Job) {
    && j.request.None? && j.intent.None? && j.prepared.None? && j.txHash.None?
    && (j.status.Queued? || j.status.Validating? || j.status.AwaitingApproval? || j.status.Approved?)
  }

  function Cancel(s: Store, id: JobId): Result<Store> {
    if id !in s.jobs || !Cancellable(s.jobs[id]) then Failure(Cancelled)
    else Success(Put(s, id, s.jobs[id].(status := Rejected)).(pending := s.pending - {id}))
  }

  // ---------- the worker ----------

  /** A proof request whose outcome is unknown. */
  predicate Unresolved(j: Job) {
    j.intent.Some? && j.request.None?
  }

  function Interrupted(j: Job): Job {
    if j.status.Validating? || j.status.ProofRequested? || j.status.Proving? || j.status.Submitting? then
      j.(status := if Unresolved(j) then Queued
                   else if j.txHash.Some? && j.prepared.None? then Submitted
                   else if j.approved then Approved
                   else Queued,
         attempts := j.attempts + 1)
    else j
  }

  function RecoverInterrupted(s: Store): Store {
    s.(jobs := map id | id in s.jobs :: Interrupted(s.jobs[id]))
  }

  predicate Active(status: Status) {
    status.Validating? || status.AwaitingApproval? || status.Approved? || status.ProofRequested?
    || status.Proving? || status.Submitting? || status.Submitted?
  }

  predicate Claimable(s: Store, id: JobId) {
    && id in s.jobs
    && (s.jobs[id].status.Queued? || s.jobs[id].status.Approved?)
    && !Unresolved(s.jobs[id])
    && (s.jobs[id].nextAttempt.None? || s.jobs[id].nextAttempt.value <= s.now)
    && (s.writer.reservation.None? || s.writer.job == Some(id))
    && (forall o :: o in s.jobs && o != id && Active(s.jobs[o].status) ==>
          s.jobs[id].kind.Bridge? && s.jobs[o].kind.Bridge?)
  }

  /** A claim starts a new generation.  The lock's clean-up commits even when nothing is claimable. */
  function Claim(s: Store, id: JobId): Store {
    var locked := Lock(s);
    if locked.Failure? then s
    else if !Claimable(locked.value, id) then locked.value
    else
      var j := s.jobs[id];
      Put(locked.value, id,
          j.(status := if j.status.Approved? then Proving else Validating, attempts := j.attempts + 1))
  }

  /** The guard every later write of a claimed generation carries. */
  predicate Owned(s: Store, id: JobId, attempts: nat) {
    id in s.jobs && s.jobs[id].attempts == attempts
  }

  predicate Preflighting(s: Store, id: JobId, attempts: nat) {
    Owned(s, id, attempts) && s.jobs[id].status.Validating? && s.jobs[id].intent.None?
  }

  function SaveDigest(s: Store, id: JobId, attempts: nat, digest: Hash): Result<Store> {
    if !Preflighting(s, id, attempts) then Failure(Cancelled)
    else Success(Put(s, id, s.jobs[id].(preflight := Some(digest))))
  }

  function SavePreflight(s: Store, id: JobId, attempts: nat, values: Hash): Result<Store> {
    if !Preflighting(s, id, attempts) then Failure(Cancelled)
    else Success(Put(s, id, s.jobs[id].(values := Some(values))))
  }

  function EndPreflight(s: Store, id: JobId, attempts: nat, executeOnly: bool): Result<Store> {
    if !Preflighting(s, id, attempts) then Failure(Cancelled)
    else Success(Put(s, id, s.jobs[id].(status := if executeOnly then Executed else AwaitingApproval)))
  }

  function SetProving(s: Store, id: JobId, attempts: nat): Result<Store> {
    if !Owned(s, id, attempts) then Failure(Cancelled) else
    var status := s.jobs[id].status;
    if status.Reorged? || status.Rejected? || status.Confirmed? || status.EthereumReverted? || status.Failed?
       || status.Executed? then Failure(Cancelled)
    else Success(Put(s, id, s.jobs[id].(status := Proving)))
  }

  function BeginProofRequest(s: Store, id: JobId, attempts: nat, intent: nat): Result<Store> {
    if !Owned(s, id, attempts) || !s.jobs[id].status.Proving? || s.jobs[id].intent.Some? || s.jobs[id].request.Some?
    then Failure(Cancelled)
    else Success(Put(s, id, s.jobs[id].(intent := Some(intent))))
  }

  /** Not fenced by generation: a late response may still resolve its own intent. */
  function FinishProofRequest(s: Store, id: JobId, intent: nat, request: Hash): Result<Store> {
    if id !in s.jobs then Failure(Cancelled) else
    var j := s.jobs[id];
    if j.intent != Some(intent) || !(j.request.None? || j.request == Some(request))
       || !(j.status.Queued? || j.status.Approved? || j.status.Proving? || j.status.ProofRequested?)
    then Failure(Cancelled)
    else Success(Put(s, id, j.(request := Some(request),
                               status := if j.status.Proving? then ProofRequested else j.status,
                               nextAttempt := None)))
  }

  function SaveProof(s: Store, id: JobId, attempts: nat, proof: Hash, values: Hash): Result<Store> {
    if !Owned(s, id, attempts) || !(s.jobs[id].status.Proving? || s.jobs[id].status.ProofRequested?)
    then Failure(Cancelled)
    else Success(Put(s, id, s.jobs[id].(proof := Some(proof), values := Some(values))))
  }

  function StoredHash(j: Job): Option<Hash> {
    if j.prepared.Some? then Some(j.prepared.value.hash) else j.txHash
  }

  function BeginSend(s: Store, id: JobId, attempts: nat, proof: Hash, values: Hash): Result<Store> {
    if !Owned(s, id, attempts) then Failure(Cancelled) else
    var j := s.jobs[id];
    if !(j.status.Validating? || j.status.Proving? || j.status.ProofRequested? || j.status.Submitting?)
    then Failure(Cancelled)
    else Success(Put(s, id, j.(values := Some(values), proof := Some(proof),
                               txHash := StoredHash(j), status := Submitting)))
  }

  function PersistPrepared(s: Store, id: JobId, attempts: nat, prepared: Prepared): Result<Store> {
    if !Owned(s, id, attempts) || !s.jobs[id].status.Submitting? || s.jobs[id].prepared.Some? then Failure(Cancelled)
    else Success(Put(s, id, s.jobs[id].(prepared := Some(prepared), txHash := Some(prepared.hash))))
  }

  function MarkSubmitted(s: Store, id: JobId, attempts: nat): Store {
    if !Owned(s, id, attempts) || !s.jobs[id].status.Submitting? then s
    else Put(s, id, s.jobs[id].(status := Submitted, nextAttempt := None))
  }

  /** Nothing is known to be broadcast of an unsigned job, so only it may fail for good. */
  function AfterFailure(j: Job, now: nat, retryable: bool, delay: nat): Job {
    if j.status.Confirmed? || j.status.Reorged? || j.status.Rejected? || j.status.EthereumReverted?
       || j.status.Failed? || j.status.ProofFailed? || j.status.Executed? then j
    else if Unresolved(j) then j.(status := Queued, nextAttempt := None)
    else if retryable || j.prepared.Some? || j.txHash.Some? then
      j.(status := if j.approved then Approved else Queued,
         nextAttempt := Some(now + delay),
         retries := Min(j.retries + 1, 2147483647))
    else j.(status := Failed, nextAttempt := None)
  }

  function RecordFailure(s: Store, id: JobId, attempts: nat, retryable: bool, delay: nat): Result<Store> {
    if id !in s.jobs then Failure(Missing)
    else if s.jobs[id].attempts != attempts then Success(s)
    else
      var k := AfterFailure(s.jobs[id], s.now, retryable, delay);
      var t := Put(s, id, k);
      Success(if k.status.Failed? && !s.jobs[id].status.Failed? then t.(pending := t.pending - {id}) else t)
  }

  // ---------- rollback ----------

  predicate Above(j: Job, ancestor: int) {
    j.block.Some? && j.block.value.number > ancestor
  }

  predicate RetryCandidate(j: Job, ancestor: int) {
    j.kind.Settlement? && !j.input.recovered && Above(j, ancestor) && (j.status.Submitted? || j.status.Confirmed?)
  }

  /** The earliest orphaned receipt, by inclusion height and then age. */
  predicate RetryChoice(jobs: Jobs, ancestor: int, retry: Option<JobId>) {
    match retry
    case None => forall id :: id in jobs ==> !RetryCandidate(jobs[id], ancestor)
    case Some(r) =>
      r in jobs && RetryCandidate(jobs[r], ancestor) &&
      forall id :: id in jobs && RetryCandidate(jobs[id], ancestor) ==>
        jobs[r].block.value.number < jobs[id].block.value.number ||
        (jobs[r].block.value.number == jobs[id].block.value.number && jobs[r].created <= jobs[id].created)
  }

  predicate Orphaned(j: Job, ancestor: int) {
    j.input.recovered && Above(j, ancestor)
  }

  predicate Referenced(s: Store, id: JobId) {
    s.writer.job == Some(id) || id in s.pending
  }

  /** Recovered rows that nothing refers to are deleted. */
  predicate Deleted(s: Store, ancestor: int, id: JobId)
    requires id in s.jobs
  {
    Orphaned(s.jobs[id], ancestor) && s.jobs[id].prepared.None? && !Referenced(s, id)
  }

  predicate Dependent(status: Status) {
    status.Queued? || Active(status) || status.Confirmed?
  }

  function RolledBack(s: Store, ancestor: int, retry: Option<JobId>, id: JobId): Job
    requires id in s.jobs
  {
    var j := s.jobs[id];
    if Orphaned(j, ancestor) then j.(status := Reorged)
    else if retry.Some? && retry != Some(id) && j.kind.Settlement? && Dependent(j.status) then j.(status := Reorged)
    else if Above(j, ancestor) && (j.status.Submitted? || j.status.Confirmed?)
            && (j.kind.Bridge? || retry == Some(id)) then
      j.(status := if j.approved then Approved else Queued, txHash := None, block := None)
    else j
  }

  function RollbackJobs(s: Store, ancestor: int, retry: Option<JobId>): Jobs {
    map id | id in s.jobs && !Deleted(s, ancestor, id) :: RolledBack(s, ancestor, retry, id)
  }

  function RollbackEvents(events: map<Hash, Event>, ancestor: int): map<Hash, Event> {
    map tx | tx in events ::
      if events[tx].block > ancestor then events[tx].(removed := true) else events[tx]
  }

  predicate Droppable(j: Job) {
    j.status.Reorged? && j.txHash.None? && j.prepared.None?
  }

  function RollbackPending(s: Store, jobs: Jobs, retry: Option<JobId>): set<JobId> {
    var kept := set id | id in s.pending && !(id in jobs && Droppable(jobs[id]));
    if retry.Some? && retry.value in jobs && jobs[retry.value].input.submission.Some?
    then kept + {retry.value} else kept
  }

  /** `rollback_after`: one transaction over every table. */
  function RollbackAfter(s: Store, ancestor: int, retry: Option<JobId>): Store {
    var jobs := RollbackJobs(s, ancestor, retry);
    s.(ready := false,
       jobs := jobs,
       pending := RollbackPending(s, jobs, retry),
       ledger := Ledger.Rollback(s.ledger, ancestor),
       actions := MarkRemoved(s.actions, ancestor),
       rows := RollbackBlocks(s.rows, ancestor),
       events := RollbackEvents(s.events, ancestor),
       cursor := Min(s.cursor, ancestor))
  }

  // ---------- recovery from accepted events ----------

  predicate FinalEvent(s: Store, tx: Hash) {
    tx in s.events && !s.events[tx].removed && Final(s.rows, s.events[tx].block, s.events[tx].hash)
  }

  predicate CarriesHash(j: Job, tx: Hash) {
    j.txHash == Some(tx) || (j.prepared.Some? && j.prepared.value.hash == tx)
  }

  predicate AlreadyApplied(s: Store, tx: Hash) {
    exists id :: id in s.jobs && s.jobs[id].txHash == Some(tx) && s.jobs[id].status.Confirmed?
      && Ledger.Recorded(s.ledger.history, id)
  }

  /** The row the recovery query returns for a transaction: the oldest that carries its hash. */
  predicate OwnerChoice(jobs: Jobs, tx: Hash, choice: Option<JobId>) {
    match choice
    case None => forall id :: id in jobs ==> !CarriesHash(jobs[id], tx)
    case Some(c) =>
      c in jobs && CarriesHash(jobs[c], tx) &&
      forall id :: id in jobs && CarriesHash(jobs[id], tx) ==> jobs[c].created <= jobs[id].created
  }

  function RecoveredSubmission(s: Store): Submission {
    Submission(s.outerKey, s.feeKey,
               if s.feeKey in s.ledger.accounts then s.ledger.accounts[s.feeKey].nonce.GetOr(0) else 0)
  }

  /** The job rebuilt for an accepted event that no stored job carries. */
  function RecoveredJob(s: Store, e: Event): Job {
    Job(e.kind, Confirmed, 0,
        Input(0, None, None, None, if e.kind.Settlement? then Some(RecoveredSubmission(s)) else None, true),
        s.now, None, Some(e.tx), false, None, None, None, None, Some(e.tx), Some(Inclusion(e.block, e.hash)), 0, None)
  }

  function InsertRecovered(s: Store, id: JobId, e: Event): Store {
    Put(s, id, RecoveredJob(s, e))
  }

  function EffectFor(s: Store, submission: Submission, receipt: Receipt): Ledger.Effect {
    match receipt
    case SettlementReceipt(fields, before, after, _) =>
      Ledger.SettlementEffect(submission.outer, submission.feePayer, submission.nonce, fields, before, after)
    case BridgeReceipt(before, states, _) => Ledger.BridgeEffect(s.outerKey, before, states)
  }

  function ApplicationFor(s: Store, id: JobId, block: nat, hash: Hash, receipt: Receipt): Ledger.Application
    requires id in s.jobs
  {
    var submission := s.jobs[id].input.submission.GetOr(RecoveredSubmission(s));
    Ledger.Application(id, block, hash, EffectFor(s, submission, receipt))
  }

  /**
    The application transaction: accounts, their history and the action rows
    together, once for each job.  A settlement also retires its command.
   */
  function ApplyReceipt(s: Store, id: JobId, tx: Hash, block: nat, hash: Hash, receipt: Receipt): Result<Store> {
    if id !in s.jobs then Failure(Missing) else
    var app := ApplicationFor(s, id, block, hash, receipt);
    var ledger :- Ledger.Apply(s.ledger, app);
    Success(if Ledger.Recorded(s.ledger.history, id) then s
            else s.(ledger := ledger,
                    actions := Write(s.actions, Posting(app.effect.outer, tx, block, hash, receipt)),
                    pending := if receipt.SettlementReceipt? then s.pending - {id} else s.pending))
  }

  function ConfirmRecovered(s: Store, id: JobId, e: Event): Store {
    if id !in s.jobs then s
    else Put(s, id, s.jobs[id].(status := Confirmed, values := Some(e.tx), txHash := Some(e.tx),
                                block := Some(Inclusion(e.block, e.hash))))
  }

  // ---------- receipt reconciliation ----------

  /** A settlement submitted without account metadata has nothing to apply. */
  function ReconcileReceipt(s: Store, id: JobId, mined: Mined, receipt: Receipt): Result<Store> {
    if id !in s.jobs || s.jobs[id].txHash.None? then Failure(Missing)
    else if receipt.SettlementReceipt? && s.jobs[id].input.submission.None? then Success(s)
    else ApplyReceipt(s, id, s.jobs[id].txHash.value, mined.number, mined.hash, receipt)
  }

  datatype Mined = Mined(number: nat, hash: Hash, succeeded: bool)

  predicate Reconcilable(s: Store, id: JobId, receipt: Mined) {
    && id in s.jobs && s.jobs[id].txHash.Some?
    && (s.jobs[id].status.Submitted? || s.jobs[id].status.Confirmed? || s.jobs[id].status.Reorged?)
    && Canonical(s.rows, receipt.number) && s.rows[receipt.number].hash == receipt.hash
  }

  /** `transaction_is_finalized`, with the mode's own threshold. */
  predicate IsFinal(mode: Mode, number: nat, head: nat, confirmations: nat, finalized: Option<nat>) {
    match mode
    case Finalized => finalized.Some? && number <= finalized.value
    case Confirmations =>
      (if head >= number then head - number else 0) + 1 >= (if confirmations > 1 then confirmations else 1)
  }

  /** The status part of `reconcile_jobs` for one row, once `final` is decided. */
  function Reconcile(s: Store, id: JobId, receipt: Mined, final: bool): Store {
    if !Reconcilable(s, id, receipt) then s else
    var j := s.jobs[id];
    if j.status.Reorged? && (!final || receipt.succeeded) then s
    else if !receipt.succeeded && final then
      Put(s, id, j.(status := EthereumReverted)).(pending := s.pending - {id})
    else
      Put(s, id, j.(status := if final then Confirmed else Submitted,
                    block := Some(Inclusion(receipt.number, receipt.hash))))
  }
}
