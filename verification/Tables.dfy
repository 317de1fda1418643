/**
  The gateway's tables as the program updates them: one method per database
  transaction, each making its changes in the order of its statements.  The
  contract of every method is the transaction's specification in Gateway.
 */
module Tables {
  import opened Common
  import opened Chain
  import opened ActionLog
  import opened Gateway
  import opened Runs
  import Spec = Gateway
  import Ledger

  /** A transaction commits what its specification says, or leaves no trace. */
  predicate Commits(spec: Result<Store>, r: Result<()>, before: Store, after: Store) {
    match spec
    case Success(t) => r.Success? && after == t
    case Failure(f) => r == Failure(f) && after == before
  }

  class GatewayDb {
    const mode: Mode
    const outerKey: Key
    const feeKey: Key
    var ready: bool
    var now: nat
    var writer: Writer
    var jobs: Jobs
    var keys: map<Hash, JobId>
    var pending: set<JobId>
    const ledger: Ledger.VirtualLedger
    var actions: ActionTable
    var rows: Rows
    var events: map<Hash, Event>
    var cursor: int

    function View(): Store
      reads this, ledger
    {
      Store(mode, outerKey, feeKey, ready, now, writer, jobs, keys, pending, ledger.View(),
            actions, rows, events, cursor)
    }

    constructor (mode: Mode, outerKey: Key, feeKey: Key, accounts: Ledger.Accounts)
      ensures fresh(ledger) && View() == Initial(mode, outerKey, feeKey, accounts).db
    {
      this.mode, this.outerKey, this.feeKey := mode, outerKey, feeKey;
      ready, now := false, 0;
      writer := Writer(None, None, 0, None, None, None);
      jobs, keys, pending := map[], map[], {};
      ledger := new Ledger.VirtualLedger(accounts);
      actions, rows, events, cursor := map[], map[], map[], -1;
    }

    /** Abandon a transaction: the tables are as it found them. */
    method Abort(begin: Store)
      requires begin.mode == mode && begin.outerKey == outerKey && begin.feeKey == feeKey
        && begin.ledger == ledger.View()
      modifies this
      ensures View() == begin
    {
      ready, now, writer, jobs := begin.ready, begin.now, begin.writer, begin.jobs;
      keys, pending := begin.keys, begin.pending;
      actions, rows, events, cursor := begin.actions, begin.rows, begin.events, begin.cursor;
    }

    // ---------- the outer writer ----------

    method ClearWriter()
      modifies this
      ensures View() == old(View()).(writer := Vacant(old(writer)))
    {
      writer := writer.(reservation := None, owner := None);
      writer := writer.(expires := None, checkpoint := None, job := None);
    }

    method Lock() returns (r: Result<()>)
      modifies this
      ensures Commits(Spec.Lock(old(View())), r, old(View()), View())
    {
      if !ready {
        return Failure(NotReady);
      }
      if writer.job.Some? {
        if writer.job.value in jobs && Released(jobs[writer.job.value]) {
          ClearWriter();
        }
      } else if writer.expires.Some? && writer.expires.value <= now {
        ClearWriter();
      }
      return Success(());
    }

    /** `ensure_no_jobs`, as a scan of the job table. */
    method EnsureNoJobs(except: Option<JobId>) returns (r: Result<()>)
      ensures r == if NoLiveJobs(jobs, except) then Success(()) else Failure(WriterBusy)
    {
      var left := jobs.Keys;
      while left != {}
        invariant left <= jobs.Keys
        invariant forall id :: id in jobs && id !in left && Some(id) != except ==> Released(jobs[id])
        decreases left
      {
        var id :| id in left;
        left := left - {id};
        if Some(id) != except && !Released(jobs[id]) {
          return Failure(WriterBusy);
        }
      }
      return Success(());
    }

    /** The stored outer account against a checkpoint. */
    method MatchAccount(checkpoint: Checkpoint) returns (r: Result<()>)
      ensures var account := OuterAccount(View());
        r == if account.None? then Failure(Missing)
             else if !AccountMatches(account.value, checkpoint) then Failure(StaleCheckpoint) else Success(())
    {
      if outerKey !in ledger.accounts {
        return Failure(Missing);
      }
      if !AccountMatches(ledger.accounts[outerKey], checkpoint) {
        return Failure(StaleCheckpoint);
      }
      return Success(());
    }

    method Reserve(owner: string, seconds: nat, checkpoint: Checkpoint, uuid: nat)
      modifies this
      ensures View() == old(View()).(writer :=
        Writer(Some(uuid), Some(Client(owner)), old(writer).fencing + 1, Some(now + seconds), Some(checkpoint), None))
    {
      writer := writer.(reservation := Some(uuid), owner := Some(Client(owner)), fencing := writer.fencing + 1);
      writer := writer.(expires := Some(now + seconds), checkpoint := Some(checkpoint), job := None);
    }

    method Acquire(owner: string, ttl: Option<nat>, checkpoint: Checkpoint, uuid: nat) returns (r: Result<()>)
      modifies this
      ensures Commits(Spec.Acquire(old(View()), owner, ttl, checkpoint, uuid), r, old(View()), View())
    {
      var begin := View();
      var seconds := ttl.GetOr(DEFAULT_TTL);
      if seconds < 30 || seconds > 600 || |owner| == 0 || |owner| > 200 {
        return Failure(Invalid);
      }
      r := Lock();
      if r.Failure? {
        return;
      }
      if writer.reservation.Some? {
        if writer.job.Some? || writer.owner != Some(Client(owner)) {
          Abort(begin);
          return Failure(WriterBusy);
        }
        writer := writer.(expires := Some(now + seconds));
      } else {
        r := EnsureNoJobs(None);
        if r.Success? {
          r := MatchAccount(checkpoint);
        }
        if r.Failure? {
          Abort(begin);
          return;
        }
        Reserve(owner, seconds, checkpoint, uuid);
      }
    }

    method RenewToken(token: Token, seconds: nat) returns (r: Result<()>)
      modifies this
      ensures Commits(Renew(old(View()), token, seconds), r, old(View()), View())
    {
      if !Matches(writer, token) {
        return Failure(ReservationExpired);
      }
      if writer.job.None? {
        if writer.expires.None? || writer.expires.value <= now {
          return Failure(ReservationExpired);
        }
        writer := writer.(expires := Some(now + seconds));
      }
      return Success(());
    }

    method Release(token: Token) returns (r: Result<()>)
      modifies this
      ensures Commits(Spec.Release(old(View()), token), r, old(View()), View())
    {
      var begin := View();
      r := Lock();
      if r.Failure? || writer.reservation.None? {
        return;
      }
      if !Matches(writer, token) {
        Abort(begin);
        return Failure(ReservationExpired);
      }
      if writer.job.Some? {
        Abort(begin);
        return Failure(WriterBusy);
      }
      writer := writer.(reservation := None, owner := None, expires := None, checkpoint := None);
    }

    method AttachSettlement(id: JobId, input: Input) returns (r: Result<()>)
      modifies this
      ensures Commits(Spec.AttachSettlement(old(View()), id, input), r, old(View()), View())
    {
      if input.token.None? {
        return Failure(ReservationRequired);
      }
      if !Matches(writer, input.token.value) || writer.job.Some? {
        return Failure(ReservationExpired);
      }
      r := EnsureNoJobs(Some(id));
      if r.Failure? {
        return;
      }
      if writer.checkpoint.None? {
        return Failure(Missing);
      }
      r := MatchAccount(writer.checkpoint.value);
      if r.Failure? {
        return;
      }
      if input.binding.None? {
        return Failure(Invalid);
      }
      if input.binding.value != writer.checkpoint.value {
        return Failure(StaleCheckpoint);
      }
      if writer.expires.None? || writer.expires.value <= now {
        return Failure(ReservationExpired);
      }
      writer := writer.(job := Some(id), expires := None);
      return Success(());
    }

    method AttachBridge(id: JobId, input: Input, uuid: nat) returns (r: Result<()>)
      modifies this
      ensures Commits(Spec.AttachBridge(old(View()), id, input, uuid), r, old(View()), View())
    {
      if writer.reservation.Some? {
        return Failure(WriterBusy);
      }
      r := EnsureNoJobs(Some(id));
      if r.Failure? {
        return;
      }
      if input.binding.None? {
        return Failure(Invalid);
      }
      if outerKey !in ledger.accounts {
        return Failure(Missing);
      }
      if !HeadAction(ledger.accounts[outerKey], input.binding.value.action) {
        return Failure(StaleCheckpoint);
      }
      writer := Writer(Some(uuid), Some(BridgeJob(id)), writer.fencing + 1, None, None, Some(id));
      return Success(());
    }

    // ---------- admission ----------

    method InsertJob(id: JobId, kind: Kind, input: Input) returns (r: Result<JobId>)
      modifies this
      ensures r.Failure? ==> Spec.InsertJob(old(View()), id, kind, input) == Failure(r.fault) && View() == old(View())
      ensures r.Success? ==> Spec.InsertJob(old(View()), id, kind, input) == Success(Inserted(View(), r.value))
    {
      if input.key.Some? && input.key.value in keys {
        var earlier := keys[input.key.value];
        if earlier !in jobs || jobs[earlier].input.digest != input.digest {
          return Failure(Mismatch);
        }
        return Success(earlier);
      }
      if id in jobs {
        return Failure(Invalid);
      }
      jobs := jobs[id := NewJob(kind, input, now)];
      if input.key.Some? {
        keys := keys[input.key.value := id];
      }
      return Success(id);
    }

    method AttachJob(id: JobId, kind: Kind, input: Input, uuid: nat) returns (r: Result<()>)
      modifies this
      ensures Commits(Attach(old(View()), id, kind, input, uuid), r, old(View()), View())
    {
      match kind
      case Settlement => r := AttachSettlement(id, input);
      case Bridge => r := AttachBridge(id, input, uuid);
    }

    method CreateJob(id: JobId, kind: Kind, input: Input, uuid: nat) returns (r: Result<()>)
      modifies this
      ensures Commits(Spec.CreateJob(old(View()), id, kind, input, uuid), r, old(View()), View())
    {
      var begin := View();
      r := Lock();
      if r.Failure? {
        return;
      }
      var known := id in jobs;
      var actual := InsertJob(id, kind, input);
      if actual.Failure? {
        Abort(begin);
        return Failure(actual.fault);
      }
      if actual.value == id && !known {
        r := AttachJob(id, kind, input, uuid);
        if r.Failure? {
          Abort(begin);
        }
      }
    }

    method CheckPayer(submission: Submission) returns (r: Result<()>)
      ensures r == PayerCheck(View(), submission)
    {
      if feeKey != submission.feePayer || outerKey != submission.outer {
        return Failure(Mismatch);
      }
      if submission.feePayer !in ledger.accounts {
        return Failure(Missing);
      }
      var expected := ledger.accounts[submission.feePayer].nonce.GetOr(0);
      return if submission.nonce != expected then Failure(Mismatch) else Success(());
    }

    method AdmitSettlement(id: JobId, input: Input, submission: Submission) returns (r: Result<JobId>)
      modifies this
      ensures r.Failure? ==>
        Spec.AdmitSettlement(old(View()), id, input, submission) == Failure(r.fault) && View() == old(View())
      ensures r.Success? ==>
        Spec.AdmitSettlement(old(View()), id, input, submission) == Success(Inserted(View(), r.value))
    {
      var begin := View();
      var locked := Lock();
      if locked.Failure? {
        return Failure(locked.fault);
      }
      var known := id in jobs;
      r := InsertJob(id, Settlement, input);
      if r.Failure? {
        Abort(begin);
        return;
      }
      if r.value == id && !known {
        var checked := AttachSettlement(id, input);
        if checked.Success? {
          checked := CheckPayer(submission);
        }
        if checked.Failure? {
          Abort(begin);
          return Failure(checked.fault);
        }
      }
    }

    method SendZkapp(id: JobId, input: Input) returns (r: Result<()>)
      modifies this
      ensures Commits(Spec.SendZkapp(old(View()), id, input), r, old(View()), View())
    {
      if input.submission.None? {
        return Failure(Invalid);
      }
      var actual := AdmitSettlement(id, input, input.submission.value);
      if actual.Failure? {
        return Failure(actual.fault);
      }
      if actual.value in jobs && Poolable(jobs[actual.value]) {
        pending := pending + {actual.value};
      }
      return Success(());
    }

    method Approve(id: JobId, digest: Hash) returns (r: Result<()>)
      modifies this
      ensures Commits(Spec.Approve(old(View()), id, digest), r, old(View()), View())
    {
      if id !in jobs {
        return Failure(Missing);
      }
      var j := jobs[id];
      if j.status != AwaitingApproval || j.preflight.GetOr(j.input.digest) != digest {
        return Failure(Cancelled);
      }
      jobs := jobs[id := j.(status := Approved, approved := true)];
      return Success(());
    }

    method CancelProof(id: JobId) returns (r: Result<()>)
      modifies this
      ensures Commits(Cancel(old(View()), id), r, old(View()), View())
    {
      if id !in jobs || !Cancellable(jobs[id]) {
        return Failure(Cancelled);
      }
      jobs := jobs[id := jobs[id].(status := Rejected)];
      pending := pending - {id};
      return Success(());
    }

    // ---------- the worker ----------

    /** The one UPDATE a restarted worker runs before claiming anything. */
    method RecoverInterrupted()
      modifies this
      ensures View() == Spec.RecoverInterrupted(old(View()))
    {
      var left := jobs.Keys;
      while left != {}
        invariant left <= jobs.Keys && jobs.Keys == old(jobs).Keys
        invariant forall id :: id in left ==> jobs[id] == old(jobs)[id]
        invariant forall id :: id in jobs && id !in left ==> jobs[id] == Interrupted(old(jobs)[id])
        invariant View() == old(View()).(jobs := jobs)
        decreases left
      {
        var id :| id in left;
        left := left - {id};
        RecoverRow(id);
      }
    }

    method RecoverRow(id: JobId)
      requires id in jobs
      modifies this
      ensures View() == old(View()).(jobs := old(jobs)[id := Interrupted(old(jobs)[id])])
    {
      var j := jobs[id];
      if j.status.Validating? || j.status.ProofRequested? || j.status.Proving? || j.status.Submitting? {
        var status := Queued;
        if Unresolved(j) {
        } else if j.txHash.Some? && j.prepared.None? {
          status := Submitted;
        } else if j.approved {
          status := Approved;
        }
        jobs := jobs[id := j.(status := status, attempts := j.attempts + 1)];
      } else {
        assert jobs == jobs[id := j];
      }
    }

    /** The oldest claimable job, if there is one. */
    method Oldest() returns (choice: Option<JobId>)
      ensures choice.None? ==> forall id :: !Claimable(View(), id)
      ensures choice.Some? ==> Claimable(View(), choice.value)
      ensures choice.Some? ==> forall id :: Claimable(View(), id) ==> jobs[choice.value].created <= jobs[id].created
    {
      choice := None;
      var left := jobs.Keys;
      while left != {}
        invariant left <= jobs.Keys
        invariant choice.Some? ==> Claimable(View(), choice.value)
        invariant forall id :: id in jobs && id !in left && Claimable(View(), id) ==>
          choice.Some? && jobs[choice.value].created <= jobs[id].created
        decreases left
      {
        var id :| id in left;
        left := left - {id};
        if Claimable(View(), id) && (choice.None? || jobs[id].created < jobs[choice.value].created) {
          choice := Some(id);
        }
      }
    }

    method ClaimJob() returns (claimed: Option<JobId>)
      modifies this
      ensures claimed.Some? ==> View() == Claim(old(View()), claimed.value)
      ensures claimed.Some? ==> claimed.value in old(jobs) && claimed.value in jobs
      ensures claimed.Some? ==> jobs[claimed.value].attempts == old(jobs)[claimed.value].attempts + 1
      ensures claimed.None? ==> forall id :: View() == Claim(old(View()), id)
      ensures claimed.Some? ==> Spec.Lock(old(View())).Success?
      ensures claimed.Some? ==>
        forall id :: Claimable(Spec.Lock(old(View())).value, id) ==>
          id in old(jobs) && old(jobs)[claimed.value].created <= old(jobs)[id].created
    {
      var locked := Lock();
      if locked.Failure? {
        return None;
      }
      claimed := Oldest();
      if claimed.Some? {
        var id := claimed.value;
        var j := jobs[id];
        jobs := jobs[id :=
          j.(status := if j.status.Approved? then Proving else Validating, attempts := j.attempts + 1)];
      }
    }

    method BeginProofRequest(id: JobId, attempts: nat, intent: nat) returns (r: Result<()>)
      modifies this
      ensures Commits(Spec.BeginProofRequest(old(View()), id, attempts, intent), r, old(View()), View())
    {
      if id !in jobs || jobs[id].attempts != attempts || jobs[id].status != Proving
        || jobs[id].intent.Some? || jobs[id].request.Some?
      {
        return Failure(Cancelled);
      }
      jobs := jobs[id := jobs[id].(intent := Some(intent))];
      return Success(());
    }

    method FinishProofRequest(id: JobId, intent: nat, request: Hash) returns (r: Result<()>)
      modifies this
      ensures Commits(Spec.FinishProofRequest(old(View()), id, intent, request), r, old(View()), View())
    {
      if id !in jobs {
        return Failure(Cancelled);
      }
      var j := jobs[id];
      if j.intent != Some(intent) || (j.request.Some? && j.request.value != request)
        || j.status !in {Queued, Approved, Proving, ProofRequested}
      {
        return Failure(Cancelled);
      }
      if j.status == Proving {
        j := j.(status := ProofRequested);
      }
      jobs := jobs[id := j.(request := Some(request), nextAttempt := None)];
      return Success(());
    }

    /** The first transaction of `send`; it hands back the signed bytes of an earlier attempt. */
    method BeginSend(id: JobId, attempts: nat, proof: Hash, values: Hash) returns (r: Result<Option<Prepared>>)
      modifies this
      ensures r.Failure? ==>
        Spec.BeginSend(old(View()), id, attempts, proof, values) == Failure(r.fault) && View() == old(View())
      ensures r.Success? ==> Spec.BeginSend(old(View()), id, attempts, proof, values) == Success(View())
      ensures r.Success? ==> id in jobs && r.value == jobs[id].prepared && r.value == old(jobs)[id].prepared
    {
      if id !in jobs || jobs[id].attempts != attempts
        || jobs[id].status !in {Validating, Proving, ProofRequested, Submitting}
      {
        return Failure(Cancelled);
      }
      var j := jobs[id];
      if j.prepared.Some? {
        j := j.(txHash := Some(j.prepared.value.hash));
      }
      jobs := jobs[id := j.(values := Some(values), proof := Some(proof), status := Submitting)];
      return Success(j.prepared);
    }

    method PersistPrepared(id: JobId, attempts: nat, prepared: Prepared) returns (r: Result<()>)
      modifies this
      ensures Commits(Spec.PersistPrepared(old(View()), id, attempts, prepared), r, old(View()), View())
    {
      if id !in jobs || jobs[id].attempts != attempts || jobs[id].status != Submitting || jobs[id].prepared.Some? {
        return Failure(Cancelled);
      }
      jobs := jobs[id := jobs[id].(prepared := Some(prepared), txHash := Some(prepared.hash))];
      return Success(());
    }

    method RecordFailure(id: JobId, attempts: nat, retryable: bool, delay: nat) returns (r: Result<()>)
      modifies this
      ensures Commits(Spec.RecordFailure(old(View()), id, attempts, retryable, delay), r, old(View()), View())
    {
      if id !in jobs {
        return Failure(Missing);
      }
      var j := jobs[id];
      if j.attempts != attempts
        || j.status in {Confirmed, Reorged, Rejected, EthereumReverted, Failed, ProofFailed, Executed}
      {
        assert jobs == jobs[id := j];
        return Success(());
      }
      var broadcast := j.prepared.Some? || j.txHash.Some?;
      if Unresolved(j) {
        jobs := jobs[id := j.(status := Queued, nextAttempt := None)];
      } else if retryable || broadcast {
        j := j.(status := if j.approved then Approved else Queued);
        jobs := jobs[id := j.(nextAttempt := Some(now + delay), retries := Min(j.retries + 1, 2147483647))];
      } else {
        jobs := jobs[id := j.(status := Failed, nextAttempt := None)];
        pending := pending - {id};
      }
      return Success(());
    }

    // ---------- rollback ----------

    /** `ORDER BY submitted_block_number, created_at LIMIT 1` over the orphaned settlements. */
    method EarliestOrphan(ancestor: int) returns (retry: Option<JobId>)
      ensures RetryChoice(jobs, ancestor, retry)
    {
      retry := None;
      var left := jobs.Keys;
      while left != {}
        invariant left <= jobs.Keys
        invariant RetryChoice(map id | id in jobs && id !in left :: jobs[id], ancestor, retry)
        decreases left
      {
        var id :| id in left;
        left := left - {id};
        if RetryCandidate(jobs[id], ancestor) && (retry.None? || Precedes(jobs[id], jobs[retry.value])) {
          retry := Some(id);
        }
      }
      assert (map id | id in jobs && id !in left :: jobs[id]) == jobs;
    }

    static predicate Precedes(j: Job, k: Job)
      requires j.block.Some? && k.block.Some?
    {
      j.block.value.number < k.block.value.number
      || (j.block.value.number == k.block.value.number && j.created <= k.created)
    }

    /** Recovered rows that something still refers to become reorged ... */
    method MarkRecovered(ancestor: int)
      modifies this
      ensures View() == old(View()).(jobs := Marked(old(View()), ancestor))
    {
      jobs := map id | id in jobs ::
        if Orphaned(jobs[id], ancestor) && (jobs[id].prepared.Some? || Referenced(View(), id))
        then jobs[id].(status := Reorged) else jobs[id];
    }

    /** ... and the others are deleted. */
    method DeleteRecovered(ancestor: int)
      modifies this
      ensures View() == old(View()).(jobs := Remaining(old(View()), ancestor))
    {
      jobs := map id | id in jobs
        && !(Orphaned(jobs[id], ancestor) && jobs[id].prepared.None? && !Referenced(View(), id)) :: jobs[id];
    }

    /** Everything that depended on the orphaned settlement, at whatever height. */
    method InvalidateDependents(retry: Option<JobId>)
      modifies this
      ensures View() == old(View()).(jobs := Invalidated(old(jobs), retry))
    {
      if retry.Some? {
        jobs := map id | id in jobs ::
          if jobs[id].kind.Settlement? && id != retry.value && Dependent(jobs[id].status)
          then jobs[id].(status := Reorged) else jobs[id];
      }
    }

    /** The settlement to be retried, and orphaned bridges, go back to the queue. */
    method RequeueOrphans(ancestor: int, retry: Option<JobId>)
      modifies this
      ensures View() == old(View()).(jobs := Requeued(old(jobs), ancestor, retry))
    {
      jobs := map id | id in jobs ::
        if Above(jobs[id], ancestor) && (jobs[id].status.Submitted? || jobs[id].status.Confirmed?)
           && (jobs[id].kind.Bridge? || Some(id) == retry)
        then jobs[id].(status := if jobs[id].approved then Approved else Queued, txHash := None, block := None)
        else jobs[id];
    }

    /** Commands of unsigned orphans are dropped, and the retried one is put back. */
    method RollbackCommands(retry: Option<JobId>)
      modifies this
      ensures View() == old(View()).(pending := RollbackPending(old(View()), old(jobs), retry))
    {
      pending := set id | id in pending && !(id in jobs && Droppable(jobs[id]));
      if retry.Some? && retry.value in jobs && jobs[retry.value].input.submission.Some? {
        pending := pending + {retry.value};
      }
    }

    /** The job and pool statements of a rollback, in the order they run. */
    method RollbackJobTables(ancestor: int, retry: Option<JobId>)
      modifies this
      ensures jobs == RollbackJobs(old(View()), ancestor, retry)
      ensures View() == old(View()).(jobs := jobs, pending := RollbackPending(old(View()), jobs, retry))
    {
      MarkRecovered(ancestor);
      DeleteRecovered(ancestor);
      RetiredInTurn(old(View()), ancestor);
      InvalidateDependents(retry);
      RequeueOrphans(ancestor, retry);
      StatementsAreOnePass(old(View()), ancestor, retry);
      RollbackCommands(retry);
    }

    method RollbackAfter(ancestor: int) returns (retry: Option<JobId>)
      modifies this, ledger
      ensures RetryChoice(old(jobs), ancestor, retry)
      ensures View() == Spec.RollbackAfter(old(View()), ancestor, retry)
    {
      retry := EarliestOrphan(ancestor);
      ledger.RollbackAfter(ancestor);
      RollbackChainTables(ancestor);
      RollbackSeesJobs(old(View()), View(), ancestor, retry);
      RollbackJobTables(ancestor, retry);
    }

    method RollbackChainTables(ancestor: int)
      modifies this
      ensures View() == old(View()).(ready := false, rows := RollbackBlocks(old(rows), ancestor),
        actions := MarkRemoved(old(actions), ancestor),
        events := RollbackEvents(old(events), ancestor), cursor := Min(old(cursor), ancestor))
    {
      ready := false;
      rows := RollbackBlocks(rows, ancestor);
      actions := MarkRemoved(actions, ancestor);
      events := RollbackEvents(events, ancestor);
      cursor := Min(cursor, ancestor);
    }
  }

  /** The job statements look at jobs, pool and writer only. */
  lemma RollbackSeesJobs(s: Store, t: Store, ancestor: int, retry: Option<JobId>)
    requires t.jobs == s.jobs && t.pending == s.pending && t.writer == s.writer
    ensures RollbackJobs(s, ancestor, retry) == RollbackJobs(t, ancestor, retry)
    ensures forall jobs :: RollbackPending(s, jobs, retry) == RollbackPending(t, jobs, retry)
  {
  }

  function Marked(s: Store, ancestor: int): Jobs {
    map id | id in s.jobs ::
      if Orphaned(s.jobs[id], ancestor) && (s.jobs[id].prepared.Some? || Referenced(s, id))
      then s.jobs[id].(status := Reorged) else s.jobs[id]
  }

  function Remaining(s: Store, ancestor: int): Jobs {
    map id | id in s.jobs && !Deleted(s, ancestor, id) :: s.jobs[id]
  }

  lemma RetiredInTurn(s: Store, ancestor: int)
    ensures Remaining(s.(jobs := Marked(s, ancestor)), ancestor) == Retired(s, ancestor)
  {
  }

  function Retired(s: Store, ancestor: int): Jobs {
    map id | id in s.jobs && !Deleted(s, ancestor, id) ::
      if Orphaned(s.jobs[id], ancestor) then s.jobs[id].(status := Reorged) else s.jobs[id]
  }

  function Invalidated(jobs: Jobs, retry: Option<JobId>): Jobs {
    map id | id in jobs ::
      if retry.Some? && jobs[id].kind.Settlement? && Some(id) != retry && Dependent(jobs[id].status)
      then jobs[id].(status := Reorged) else jobs[id]
  }

  function Requeued(jobs: Jobs, ancestor: int, retry: Option<JobId>): Jobs {
    map id | id in jobs ::
      if Above(jobs[id], ancestor) && (jobs[id].status.Submitted? || jobs[id].status.Confirmed?)
         && (jobs[id].kind.Bridge? || Some(id) == retry)
      then jobs[id].(status := if jobs[id].approved then Approved else Queued, txHash := None, block := None)
      else jobs[id]
  }

  /** The statements, one after the other, change each job as the one-pass specification does. */
  lemma StatementsAreOnePass(s: Store, ancestor: int, retry: Option<JobId>)
    ensures Requeued(Invalidated(Retired(s, ancestor), retry), ancestor, retry) == RollbackJobs(s, ancestor, retry)
  {
    var table := Requeued(Invalidated(Retired(s, ancestor), retry), ancestor, retry);
    forall id | id in table
      ensures table[id] == RolledBack(s, ancestor, retry, id)
    {
    }
  }
}
