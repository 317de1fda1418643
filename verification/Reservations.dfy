/**
  The outer writer as its clients see it: when a reservation is given, kept,
  renewed and released, that nobody else gets it meanwhile, and that a client
  who prepares under it in time is admitted.
 */
module Reservations {
  import opened Common
  import opened Chain
  import opened Gateway
  import opened Runs
  import opened Quiet
  import opened Ownership
  import opened Custody
  import Admission
  import Ledger

  // ---------- the lock ----------

  /** The row may be cleared: its job's outcome is known, or nobody prepares under it any more. */
  predicate Lapsed(s: Store) {
    match s.writer.job
    case Some(id) =>
      id in s.jobs &&
      (s.jobs[id].status.Confirmed? || s.jobs[id].status.EthereumReverted? ||
       (s.jobs[id].txHash.None? && s.jobs[id].prepared.None? && Ended(s.jobs[id].status)))
    case None => s.writer.expires.Some? && s.writer.expires.value <= s.now
  }

  /** A job without a transaction can do nothing more. */
  predicate Ended(status: Status) {
    status in {Executed, Failed, ProofFailed, Rejected, Reorged}
  }

  predicate NobodyOwns(w: Writer) {
    w.reservation.None? && w.owner.None? && w.expires.None? && w.checkpoint.None? && w.job.None?
  }

  /** Refused exactly while replaying; clears a lapsed row, never its fencing number, and nothing else. */
  lemma LockIff(s: Store)
    ensures Lock(s).Success? <==> s.ready
    ensures s.ready ==> Lock(s).value == s.(writer := Lock(s).value.writer)
    ensures s.ready && Lapsed(s) ==>
      NobodyOwns(Lock(s).value.writer) && Lock(s).value.writer.fencing == s.writer.fencing
    ensures s.ready && !Lapsed(s) ==> Lock(s).value == s
  {
  }

  // ---------- acquiring ----------

  function Seconds(ttl: Option<nat>): nat {
    match ttl
    case None => 120
    case Some(seconds) => seconds
  }

  predicate WellFormed(owner: string, ttl: Option<nat>) {
    30 <= Seconds(ttl) <= 600 && 1 <= |owner| <= 200
  }

  /** A row in force is prolonged for its own client, exactly while no job is attached, and for nobody else. */
  lemma ReacquireIff(s: Store, owner: string, ttl: Option<nat>, checkpoint: Checkpoint, uuid: nat)
    requires s.ready && !Lapsed(s) && s.writer.reservation.Some?
    ensures var r := Acquire(s, owner, ttl, checkpoint, uuid);
      && (r.Success? <==> WellFormed(owner, ttl) && s.writer.job.None? && s.writer.owner == Some(Client(owner)))
      && (WellFormed(owner, ttl) && r.Failure? ==> r == Failure(WriterBusy))
      && (r.Success? ==> r.value == s.(writer := s.writer.(expires := Some(s.now + Seconds(ttl)))))
  {
    LockIff(s);
  }

  /** The outer account as it stands shows this checkpoint. */
  predicate Current(s: Store, c: Checkpoint) {
    && s.outerKey in s.ledger.accounts && s.ledger.accounts[s.outerKey].zkappState == c.fields
    && ActionIsNewest(s.ledger.accounts[s.outerKey], c.action)
  }

  predicate ActionIsNewest(account: Ledger.Account, action: Field) {
    match account.actionState
    case None => false
    case Some(states) => states != [] && states[0] == action
  }

  predicate AllReleased(jobs: Jobs) {
    forall id :: id in jobs ==> Released(jobs[id])
  }

  function Refusal(s: Store, owner: string, ttl: Option<nat>): Fault {
    if !WellFormed(owner, ttl) then Invalid
    else if !AllReleased(s.jobs) then WriterBusy
    else if s.outerKey !in s.ledger.accounts then Missing
    else StaleCheckpoint
  }

  /** A vacant row is given out exactly when no job is open and the checkpoint is current, under the next number. */
  lemma AcquireIff(s: Store, owner: string, ttl: Option<nat>, checkpoint: Checkpoint, uuid: nat)
    requires s.ready && (Lapsed(s) || s.writer.reservation.None?)
    ensures var r := Acquire(s, owner, ttl, checkpoint, uuid);
      && (r.Success? <==> WellFormed(owner, ttl) && AllReleased(s.jobs) && Current(s, checkpoint))
      && (r.Failure? ==> r.fault == Refusal(s, owner, ttl))
      && (r.Success? ==> r.value == s.(writer := Writer(Some(uuid), Some(Client(owner)), s.writer.fencing + 1,
                                                        Some(s.now + Seconds(ttl)), Some(checkpoint), None)))
  {
    LockIff(s);
  }

  // ---------- renewing and releasing ----------

  predicate Holder(w: Writer, token: Token) {
    w.reservation == Some(token.id) && w.fencing == token.fencing
  }

  predicate Unexpired(s: Store) {
    s.writer.expires.Some? && s.now < s.writer.expires.value
  }

  /** Renewal also answers while the gateway replays; once a job is attached it changes nothing. */
  lemma RenewIff(s: Store, token: Token, seconds: nat)
    ensures var r := Renew(s, token, seconds);
      && (r.Success? <==> Holder(s.writer, token) && (s.writer.job.Some? || Unexpired(s)))
      && (r.Failure? ==> r == Failure(ReservationExpired))
      && (r.Success? ==> r.value == if s.writer.job.Some? then s
                                    else s.(writer := s.writer.(expires := Some(s.now + seconds))))
  {
  }

  /** A row in force is given up by its holder only, and only before a job is attached. */
  lemma ReleaseIff(s: Store, token: Token)
    requires s.ready && !Lapsed(s) && s.writer.reservation.Some?
    ensures var r := Release(s, token);
      && (r.Success? <==> Holder(s.writer, token) && s.writer.job.None?)
      && (!Holder(s.writer, token) ==> r == Failure(ReservationExpired))
      && (Holder(s.writer, token) && s.writer.job.Some? ==> r == Failure(WriterBusy))
      && (r.Success? ==> r.value == s.(writer := r.value.writer) && NobodyOwns(r.value.writer)
                         && r.value.writer.fencing == s.writer.fencing)
  {
    LockIff(s);
  }

  // ---------- admission under the row ----------

  /** A request that no earlier one with its key has made. */
  predicate Fresh(s: Store, id: JobId, input: Input) {
    id !in s.jobs && (input.key.None? || input.key.value !in s.keys)
  }

  /** The row as inserted: queued, never claimed, and holding nothing. */
  predicate InsertedAs(s: Store, t: Store, id: JobId, kind: Kind, input: Input) {
    && id in t.jobs && t.jobs == s.jobs[id := t.jobs[id]] && Newborn(t.jobs[id])
    && t.jobs[id].kind == kind && t.jobs[id].input == input && t.jobs[id].created == s.now
    && t.jobs[id].nextAttempt.None? && t.jobs[id].retries == 0
    && t.jobs[id].preflight.None? && t.jobs[id].values.None? && t.jobs[id].proof.None?
    && t.keys == (if input.key.Some? then s.keys[input.key.value := id] else s.keys)
  }

  /** The token is current and unexpired, and the job proves a transition from the very checkpoint it reserved. */
  predicate Reserved(s: Store, input: Input) {
    && input.token.Some? && Holder(s.writer, input.token.value) && s.writer.job.None?
    && Unexpired(s)
    && input.binding.Some? && input.binding == s.writer.checkpoint && Current(s, input.binding.value)
  }

  lemma InsertFresh(s: Store, id: JobId, kind: Kind, input: Input)
    requires Fresh(s, id, input) && !input.recovered
    ensures InsertJob(s, id, kind, input).Success?
    ensures var made := InsertJob(s, id, kind, input).value;
      && made.id == id && made.store == s.(jobs := made.store.jobs, keys := made.store.keys)
      && InsertedAs(s, made.store, id, kind, input)
  {
  }

  lemma AllButNew(s: Store, t: Store, id: JobId)
    requires id !in s.jobs && id in t.jobs && t.jobs == s.jobs[id := t.jobs[id]]
    ensures NoLiveJobs(t.jobs, Some(id)) <==> AllReleased(s.jobs)
  {
    assert forall o :: o in s.jobs ==> o != id && t.jobs[o] == s.jobs[o];
  }

  lemma AttachSettlementIff(s: Store, id: JobId, input: Input)
    ensures var r := AttachSettlement(s, id, input);
      && (r.Success? <==> Reserved(s, input) && NoLiveJobs(s.jobs, Some(id)))
      && (input.token.None? ==> r == Failure(ReservationRequired))
      && (input.token.Some? && (!Holder(s.writer, input.token.value) || s.writer.job.Some?) ==>
            r == Failure(ReservationExpired))
      && (r.Success? ==> r.value == s.(writer := s.writer.(job := Some(id), expires := None)))
  {
  }

  lemma AttachBridgeIff(s: Store, id: JobId, input: Input, uuid: nat)
    ensures var r := AttachBridge(s, id, input, uuid);
      && (r.Success? <==> s.writer.reservation.None? && NoLiveJobs(s.jobs, Some(id)) && HeadBinding(s, input))
      && (r.Success? ==> r.value == s.(writer :=
            Writer(Some(uuid), Some(BridgeJob(id)), s.writer.fencing + 1, None, None, Some(id))))
  {
  }

  /** The bridge extends the newest action. */
  predicate HeadBinding(s: Store, input: Input) {
    input.binding.Some? && s.outerKey in s.ledger.accounts
    && ActionIsNewest(s.ledger.accounts[s.outerKey], input.binding.value.action)
  }

  /** A new settlement is admitted exactly under a current reservation of its checkpoint, and then holds the row. */
  lemma SettlementAdmittedIff(s: Store, id: JobId, input: Input, uuid: nat)
    requires s.ready && !Lapsed(s) && Fresh(s, id, input) && !input.recovered
    ensures var r := CreateJob(s, id, Settlement, input, uuid);
      && (r.Success? <==> Reserved(s, input) && AllReleased(s.jobs))
      && (r.Success? ==> InsertedAs(s, r.value, id, Settlement, input)
                         && r.value == s.(jobs := r.value.jobs, keys := r.value.keys,
                                          writer := s.writer.(job := Some(id), expires := None)))
  {
    LockIff(s);
    InsertFresh(s, id, Settlement, input);
    var made := InsertJob(s, id, Settlement, input).value.store;
    AttachSettlementIff(made, id, input);
    AllButNew(s, made, id);
  }

  /** A new bridge job takes a row nobody owns, exactly when it extends the newest action. */
  lemma BridgeAdmittedIff(s: Store, id: JobId, input: Input, uuid: nat)
    requires s.ready && !Lapsed(s) && Fresh(s, id, input) && !input.recovered
    ensures var r := CreateJob(s, id, Bridge, input, uuid);
      && (r.Success? <==> s.writer.reservation.None? && AllReleased(s.jobs) && HeadBinding(s, input))
      && (r.Success? ==> InsertedAs(s, r.value, id, Bridge, input)
                         && r.value == s.(jobs := r.value.jobs, keys := r.value.keys, writer :=
                              Writer(Some(uuid), Some(BridgeJob(id)), s.writer.fencing + 1, None, None, Some(id))))
  {
    LockIff(s);
    InsertFresh(s, id, Bridge, input);
    var made := InsertJob(s, id, Bridge, input).value.store;
    AttachBridgeIff(made, id, input, uuid);
    AllButNew(s, made, id);
  }

  /** The command names the configured accounts and the payer's next nonce. */
  predicate Payable(s: Store, submission: Submission) {
    && submission.outer == s.outerKey && submission.feePayer == s.feeKey && s.feeKey in s.ledger.accounts
    && submission.nonce == s.ledger.accounts[s.feeKey].nonce.GetOr(0)
  }

  lemma PayableIff(s: Store, submission: Submission)
    ensures PayerCheck(s, submission).Success? <==> Payable(s, submission)
  {
  }

  /** A new command is admitted exactly as a settlement that can also pay, and is then pending. */
  lemma CommandAdmittedIff(s: Store, id: JobId, input: Input)
    requires s.ready && !Lapsed(s) && Fresh(s, id, input) && !input.recovered
    ensures var r := SendZkapp(s, id, input);
      && (r.Success? <==> input.submission.Some? && Reserved(s, input) && AllReleased(s.jobs)
                          && Payable(s, input.submission.value))
      && (r.Success? ==> InsertedAs(s, r.value, id, Settlement, input)
                         && r.value == s.(jobs := r.value.jobs, keys := r.value.keys, pending := s.pending + {id},
                                          writer := s.writer.(job := Some(id), expires := None)))
  {
    LockIff(s);
    InsertFresh(s, id, Settlement, input);
    var made := InsertJob(s, id, Settlement, input).value.store;
    AttachSettlementIff(made, id, input);
    AllButNew(s, made, id);
    if input.submission.Some? {
      PayableIff(s.(writer := s.writer.(job := Some(id), expires := None)), input.submission.value);
    }
  }

  /**
    A repeated request is answered from its first job exactly when it asks for
    the same; it changes nothing, but a command whose job is open is pending again.
   */
  lemma RepeatedIff(s: Store, id: JobId, kind: Kind, input: Input, uuid: nat, known: JobId)
    requires s.ready && !Lapsed(s) && input.key.Some? && input.key.value in s.keys && s.keys[input.key.value] == known
    requires id !in s.jobs && known in s.jobs
    ensures var r, c := SendZkapp(s, id, input), CreateJob(s, id, kind, input, uuid);
      && (c == if s.jobs[known].input.digest == input.digest then Success(s) else Failure(Mismatch))
      && (input.submission.Some? && s.jobs[known].input.digest != input.digest ==> r == Failure(Mismatch))
      && (input.submission.Some? && s.jobs[known].input.digest == input.digest ==>
            r.Success? && r.value == s.(pending := if Released(s.jobs[known]) then s.pending else s.pending + {known}))
  {
    LockIff(s);
    Admission.PoolableIffOpen(s.jobs[known]);
  }

  // ---------- a preparation in time succeeds ----------

  /**
    A client that acquires, and comes back before its lease ends with a proof
    request for the checkpoint it reserved, is admitted, whatever its key.
   */
  lemma PreparationSucceeds(s: Store, owner: string, ttl: Option<nat>, c: Checkpoint, uuid: nat, elapsed: nat,
                            id: JobId, input: Input)
    requires s.ready && (Lapsed(s) || s.writer.reservation.None?) && Acquire(s, owner, ttl, c, uuid).Success?
    requires Fresh(s, id, input) && !input.recovered && elapsed < Seconds(ttl) && input.binding == Some(c)
    requires input.token == Some(Token(uuid, s.writer.fencing + 1))
    ensures var later := Acquire(s, owner, ttl, c, uuid).value.(now := s.now + elapsed);
      && CreateJob(later, id, Settlement, input, uuid).Success?
      && CreateJob(later, id, Settlement, input, uuid).value.writer.job == Some(id)
  {
    AcquireIff(s, owner, ttl, c, uuid);
    SettlementAdmittedIff(Acquire(s, owner, ttl, c, uuid).value.(now := s.now + elapsed), id, input, uuid);
  }

  // ---------- nobody else gets it meanwhile ----------

  /** The client prepares under this token, and its lease has not lapsed. */
  predicate Preparing(s: Store, owner: string, token: Token) {
    Holder(s.writer, token) && s.writer.owner == Some(Client(owner)) && Running(s)
  }

  predicate Running(s: Store) {
    s.writer.job.None? && Unexpired(s)
  }

  lemma LeaseKept(s: Store, step: Step, owner: string, token: Token)
    requires Preparing(s, owner, token) && (step.StepAcquire? || step.StepRenew? || step.StepRelease?)
    requires step != StepRelease(token) && Running(Transact(s, step))
    ensures Preparing(Transact(s, step), owner, token)
  {
    if s.ready {
      match step
      case StepAcquire(o, ttl, c, uuid) => ReacquireIff(s, o, ttl, c, uuid);
      case StepRenew(t, seconds) => RenewIff(s, t, seconds);
      case StepRelease(t) => ReleaseIff(s, t);
    } else if step.StepRenew? {
      RenewIff(s, step.token, step.seconds);
    } else {
      LockIff(s);
    }
  }

  lemma CreateKept(s: Store, id: JobId, kind: Kind, input: Input, uuid: nat)
    requires Running(s) && CreateJob(s, id, kind, input, uuid).Success?
    requires CreateJob(s, id, kind, input, uuid).value.writer.job.None?
    ensures CreateJob(s, id, kind, input, uuid).value.writer == s.writer
  {
    LockIff(s);
    InsertShape(s, id, kind, input);
    var made := InsertJob(s, id, kind, input).value;
    if made.id == id && id !in s.jobs {
      AttachShape(made.store, id, kind, input, uuid);
    }
  }

  lemma SendKept(s: Store, id: JobId, input: Input)
    requires Running(s) && SendZkapp(s, id, input).Success? && SendZkapp(s, id, input).value.writer.job.None?
    ensures SendZkapp(s, id, input).value.writer == s.writer
  {
    LockIff(s);
    InsertShape(s, id, Settlement, input);
    var made := InsertJob(s, id, Settlement, input).value;
    if made.id == id && id !in s.jobs {
      AttachShape(made.store, id, Settlement, input, 0);
    }
  }

  lemma AdmissionKept(s: Store, step: Step)
    requires Running(s) && (step.StepCreateJob? || step.StepSendZkapp? || step.StepClaim?)
    requires Transact(s, step).writer.job.None?
    ensures Transact(s, step).writer == s.writer
  {
    match step
    case StepCreateJob(id, kind, input, uuid) =>
      if CreateJob(s, id, kind, input, uuid).Success? { CreateKept(s, id, kind, input, uuid); }
    case StepSendZkapp(id, input) => if SendZkapp(s, id, input).Success? { SendKept(s, id, input); }
    case StepClaim(id) => LockIff(s);
  }

  lemma WorkKeepsLease(s: Store, step: Step, owner: string, token: Token)
    requires Preparing(s, owner, token) && !ByIndexer(step) && step != StepRelease(token) && Running(Transact(s, step))
    ensures Preparing(Transact(s, step), owner, token)
  {
    if step.StepAcquire? || step.StepRenew? || step.StepRelease? {
      LeaseKept(s, step, owner, token);
    } else if AdmissionStep(step) {
      AdmissionKept(s, step);
    } else {
      WorkLeavesWriter(s, step);
    }
  }

  lemma StepKeepsLease(y: System, step: Step, owner: string, token: Token)
    requires Preparing(y.db, owner, token) && step != StepRelease(token) && Running(Next(y, step).db)
    ensures Preparing(Next(y, step).db, owner, token)
  {
    if ByIndexer(step) {
      IndexerLeavesWriter(y, step);
    } else if Possible(y, step) {
      WorkKeepsLease(y.db, step, owner, token);
    }
  }

  /** At every moment of the run a lease is running and no job is attached. */
  ghost predicate KeptInTime(y: System, steps: seq<Step>) {
    forall k :: 0 <= k <= |steps| ==> Running(Run(y, steps[..k]).db)
  }

  lemma KeptEarlier(y: System, steps: seq<Step>, n: nat)
    requires KeptInTime(y, steps) && n <= |steps|
    ensures KeptInTime(y, steps[..n]) && Running(Run(y, steps[..n]).db)
  {
    forall k | 0 <= k <= n
      ensures Running(Run(y, steps[..n][..k]).db)
    {
      assert steps[..n][..k] == steps[..k];
    }
  }

  lemma {:induction false} LeaseHolds(y: System, steps: seq<Step>, owner: string, token: Token)
    requires Preparing(y.db, owner, token) && KeptInTime(y, steps) && StepRelease(token) !in steps
    ensures Preparing(Run(y, steps).db, owner, token)
    decreases |steps|
  {
    if steps != [] {
      var n := |steps| - 1;
      KeptEarlier(y, steps, n);
      LeaseHolds(y, steps[..n], owner, token);
      KeptEarlier(y, steps, n + 1);
      assert steps[..n + 1] == steps;
      assert steps[n] in steps;
      StepKeepsLease(Run(y, steps[..n]), steps[n], owner, token);
    }
  }

  /**
    While a client's lease is kept in time, not released and not yet used, no
    other client is given the row, and its own token stays the current one.
   */
  lemma LeaseIsExclusive(y: System, steps: seq<Step>, z: System, owner: string, token: Token, other: string,
                         ttl: Option<nat>, checkpoint: Checkpoint, uuid: nat)
    requires Preparing(y.db, owner, token) && KeptInTime(y, steps) && StepRelease(token) !in steps
    requires z == Run(y, steps) && other != owner
    ensures Acquire(z.db, other, ttl, checkpoint, uuid).Failure? && Holder(z.db.writer, token)
  {
    LeaseHolds(y, steps, owner, token);
    LockIff(z.db);
    if z.db.ready {
      ReacquireIff(z.db, other, ttl, checkpoint, uuid);
    }
  }
}
