/**
  What is done at most once, and by whom: the paid proof request, the signed
  transaction, and the writes of a superseded worker generation.  All of it
  holds over every run from empty tables, in either finality mode.
 */
module Promises {
  import opened Common
  import opened Chain
  import opened Gateway
  import opened Runs
  import opened Quiet
  import opened Ownership
  import opened Custody
  import Ledger

  /** A run from empty tables, in either mode, to `y`. */
  ghost predicate Reaches(mode: Mode, outerKey: Key, feeKey: Key, accounts: Ledger.Accounts, steps: seq<Step>,
      y: System) {
    y == Run(Initial(mode, outerKey, feeKey, accounts), steps)
  }

  lemma ReachesBase(mode: Mode, outerKey: Key, feeKey: Key, accounts: Ledger.Accounts, steps: seq<Step>, y: System)
    requires Reaches(mode, outerKey, feeKey, accounts, steps, y)
    ensures Base(y)
  {
    RunKeepsBase(Initial(mode, outerKey, feeKey, accounts), steps);
  }

  // ---------- one paid proof request ----------

  /**
    No job is ever sent to the prover twice, and a job with a call to its name
    still holds the intent that call was sealed under.
   */
  lemma RequestedOnce(mode: Mode, outerKey: Key, feeKey: Key, accounts: Ledger.Accounts, steps: seq<Step>, y: System,
      i: nat, j: nat)
    requires Reaches(mode, outerKey, feeKey, accounts, steps, y)
    requires i < |y.out.calls| && j < |y.out.calls| && y.out.calls[i].job == y.out.calls[j].job
    ensures i == j
    ensures Sealed(y.db.jobs, y.out.calls[i])
  {
    ReachesBase(mode, outerKey, feeKey, accounts, steps, y);
  }

  /** Every stored request id is the one answer the prover gave to that very job's own call. */
  lemma RequestIsOwnAnswer(mode: Mode, outerKey: Key, feeKey: Key, accounts: Ledger.Accounts, steps: seq<Step>,
      y: System, id: JobId)
    requires Reaches(mode, outerKey, feeKey, accounts, steps, y) && id in y.db.jobs && y.db.jobs[id].request.Some?
    ensures Answered(y.out, id, y.db.jobs[id])
    ensures forall a :: a in y.out.answers && y.db.jobs[id].intent == Some(a.intent) ==>
      y.db.jobs[id].request == Some(a.request)
  {
    ReachesBase(mode, outerKey, feeKey, accounts, steps, y);
    assert Answered(y.out, id, y.db.jobs[id]);
  }

  /** A job whose request is in doubt cannot be claimed, cancelled, or sealed a second time. */
  lemma UnresolvedIsParked(s: Store, id: JobId, attempts: nat, intent: nat)
    requires id in s.jobs && Unresolved(s.jobs[id])
    ensures Claim(s, id).jobs == s.jobs
    ensures Cancel(s, id).Failure?
    ensures BeginProofRequest(s, id, attempts, intent).Failure?
  {
  }

  /** Only a prover's response writes a request id, whatever the step. */
  lemma RequestsStay(y: System, step: Step)
    requires Base(y) && !step.StepFinishProof?
    ensures RequestsKept(y.db.jobs, Next(y, step).db.jobs)
  {
    if ByIndexer(step) {
      IndexerJobsHold(y, step);
    } else if Possible(y, step) {
      WorkKeepsJobsSane(y, step);
      if Claimed(y, step) {
        ClaimedKeepsRequests(y, step);
      } else {
        UnclaimedKeepsRequests(y, step);
      }
    }
  }

  lemma FinishResolvesOwn(y: System, step: Step, id: JobId)
    requires step.StepFinishProof? && id in y.db.jobs && Unresolved(y.db.jobs[id])
    ensures id in Next(y, step).db.jobs
    ensures !Unresolved(Next(y, step).db.jobs[id]) ==>
      step.id == id && y.db.jobs[id].intent == Some(step.intent)
      && Answer(step.intent, step.request) in y.out.answers && Next(y, step).db.jobs[id].request == Some(step.request)
  {
  }

  /** Whatever step resolves a request carries the prover's answer to the sealed intent. */
  lemma OnlyOwnAnswerResolves(y: System, step: Step, id: JobId)
    requires Base(y) && id in y.db.jobs && Unresolved(y.db.jobs[id])
    ensures id in Next(y, step).db.jobs && Next(y, step).db.jobs[id].intent == y.db.jobs[id].intent
    ensures !Unresolved(Next(y, step).db.jobs[id]) ==>
      step.StepFinishProof? && step.id == id && y.db.jobs[id].intent == Some(step.intent)
      && Answer(step.intent, step.request) in y.out.answers && Next(y, step).db.jobs[id].request == Some(step.request)
  {
    assert !y.db.jobs[id].input.recovered;
    StepPersists(y, step, id);
    if step.StepFinishProof? {
      FinishResolvesOwn(y, step, id);
    } else {
      RequestsStay(y, step);
    }
  }

  // ---------- what a job's row never forgets ----------

  lemma StepPersists(y: System, step: Step, id: JobId)
    requires Base(y) && id in y.db.jobs && !y.db.jobs[id].input.recovered
    ensures id in Next(y, step).db.jobs && Persists(y.db.jobs[id], Next(y, step).db.jobs[id])
  {
    if ByIndexer(step) {
      IndexerJobsHold(y, step);
    } else if Possible(y, step) {
      WorkKeepsJobsSane(y, step);
      QuietPersists(y.db, Next(y, step).db);
    }
  }

  /** An admitted job is never deleted, and what it sealed, was answered or signed is never rewritten. */
  lemma {:induction false} RunPersists(y: System, steps: seq<Step>, id: JobId)
    requires Base(y) && id in y.db.jobs && !y.db.jobs[id].input.recovered
    ensures id in Run(y, steps).db.jobs && Persists(y.db.jobs[id], Run(y, steps).db.jobs[id])
    decreases |steps|
  {
    if steps != [] {
      var earlier := steps[..|steps| - 1];
      RunPersists(y, earlier, id);
      RunKeepsBase(y, earlier);
      StepPersists(Run(y, earlier), steps[|steps| - 1], id);
    }
  }

  // ---------- one signed transaction ----------

  /** A job's broadcasts all carry the same bytes: the ones stored in its row. */
  lemma SameBytesEveryTime(mode: Mode, outerKey: Key, feeKey: Key, accounts: Ledger.Accounts, steps: seq<Step>,
      y: System, i: nat, j: nat)
    requires Reaches(mode, outerKey, feeKey, accounts, steps, y)
    requires i < |y.out.broadcasts| && j < |y.out.broadcasts| && y.out.broadcasts[i].job == y.out.broadcasts[j].job
    ensures y.out.broadcasts[i] == y.out.broadcasts[j]
    ensures var id := y.out.broadcasts[i].job;
      id in y.db.jobs && y.db.jobs[id].prepared.Some? && y.db.jobs[id].prepared.value.raw == y.out.broadcasts[i].raw
  {
    ReachesBase(mode, outerKey, feeKey, accounts, steps, y);
  }

  /** Nothing is broadcast that was not already in the store before the step. */
  lemma StoredBeforeBroadcast(y: System, step: Step)
    requires Base(y) && |Next(y, step).out.broadcasts| > |y.out.broadcasts|
    ensures step.StepBroadcast? && step.id in y.db.jobs && y.db.jobs[step.id].prepared == Some(step.prepared)
    ensures Next(y, step).out.broadcasts == y.out.broadcasts + [Sent(step.id, step.prepared.raw)]
  {
    if ByIndexer(step) {
      IndexerLeavesWriter(y, step);
    }
  }

  /**
    A transaction hash that is present is the hash of the stored bytes, also
    after a rollback cleared it and a later send put it back.
   */
  lemma HashIsStoredHash(mode: Mode, outerKey: Key, feeKey: Key, accounts: Ledger.Accounts, steps: seq<Step>,
      y: System, id: JobId)
    requires Reaches(mode, outerKey, feeKey, accounts, steps, y)
    requires id in y.db.jobs && !y.db.jobs[id].input.recovered && y.db.jobs[id].txHash.Some?
    ensures y.db.jobs[id].prepared.Some? && y.db.jobs[id].txHash == Some(y.db.jobs[id].prepared.value.hash)
  {
    ReachesBase(mode, outerKey, feeKey, accounts, steps, y);
  }

  /** Resuming a send after a rollback restores the hash and signs nothing new. */
  lemma SendRestoresHash(s: Store, id: JobId, attempts: nat, proof: Hash, values: Hash, other: Prepared)
    requires id in s.jobs && s.jobs[id].prepared.Some? && BeginSend(s, id, attempts, proof, values).Success?
    ensures var t := BeginSend(s, id, attempts, proof, values).value;
      && t.jobs[id].txHash == Some(s.jobs[id].prepared.value.hash)
      && t.jobs[id].prepared == s.jobs[id].prepared
      && PersistPrepared(t, id, attempts, other).Failure?
  {
  }

  // ---------- superseded generations ----------

  lemma StalePreflight(s: Store, step: Step)
    requires step.StepSaveDigest? || step.StepSavePreflight? || step.StepEndPreflight? || step.StepSetProving?
    requires step.id in s.jobs ==> s.jobs[step.id].attempts != step.attempts
    ensures Transact(s, step) == s
  {
  }

  lemma StaleProving(s: Store, step: Step)
    requires step.StepBeginProof? || step.StepSaveProof? || step.StepRecordFailure?
    requires step.id in s.jobs ==> s.jobs[step.id].attempts != step.attempts
    ensures Transact(s, step) == s
  {
  }

  lemma StaleSending(s: Store, step: Step)
    requires step.StepBeginSend? || step.StepPersist? || step.StepMarkSubmitted?
    requires step.id in s.jobs ==> s.jobs[step.id].attempts != step.attempts
    ensures Transact(s, step) == s
  {
  }

  lemma StaleTransaction(s: Store, y: System, step: Step)
    requires Claimed(y, step) && (step.id in s.jobs ==> s.jobs[step.id].attempts != step.attempts)
    ensures Transact(s, step) == s
  {
    if step.StepSaveDigest? || step.StepSavePreflight? || step.StepEndPreflight? || step.StepSetProving? {
      StalePreflight(s, step);
    } else if step.StepBeginProof? || step.StepSaveProof? || step.StepRecordFailure? {
      StaleProving(s, step);
    } else {
      StaleSending(s, step);
    }
  }

  lemma WorkNext(y: System, step: Step)
    requires !ByIndexer(step)
    ensures Next(y, step) == y || Next(y, step).db == Transact(y.db, step)
  {
  }

  /** A write of a generation that is not the current one changes nothing in any table. */
  lemma StaleIsInert(y: System, step: Step)
    requires Claimed(y, step) && (step.id in y.db.jobs ==> y.db.jobs[step.id].attempts != step.attempts)
    ensures Next(y, step).db == y.db
  {
    WorkNext(y, step);
    StaleTransaction(y.db, y, step);
  }

  /**
    Once a job has moved on to a later generation, by a new claim or by crash
    recovery, nothing the older worker still does can ever change a table; only
    its answer to its own sealed proof request is exempt.
   */
  lemma FencedForever(y: System, steps: seq<Step>, z: System, step: Step)
    requires Base(y) && z == Run(y, steps) && Claimed(z, step)
    requires step.id in y.db.jobs && !y.db.jobs[step.id].input.recovered && step.attempts < y.db.jobs[step.id].attempts
    ensures Next(z, step).db == z.db
  {
    LaterGeneration(y, steps, z, step.id);
    StaleIsInert(z, step);
  }

  lemma LaterGeneration(y: System, steps: seq<Step>, z: System, id: JobId)
    requires Base(y) && z == Run(y, steps) && id in y.db.jobs && !y.db.jobs[id].input.recovered
    ensures id in z.db.jobs && y.db.jobs[id].attempts <= z.db.jobs[id].attempts
  {
    RunPersists(y, steps, id);
  }

  /** Both a claim and crash recovery do move a job's generation on. */
  lemma ClaimFences(s: Store, id: JobId)
    requires id in s.jobs
    ensures Claim(s, id).jobs[id] != s.jobs[id] ==> Claim(s, id).jobs[id].attempts == s.jobs[id].attempts + 1
    ensures RecoverInterrupted(s).jobs[id] != s.jobs[id] ==>
      RecoverInterrupted(s).jobs[id].attempts == s.jobs[id].attempts + 1
    ensures !(RecoverInterrupted(s).jobs[id].status.Validating? || RecoverInterrupted(s).jobs[id].status.Proving?
              || RecoverInterrupted(s).jobs[id].status.ProofRequested?
              || RecoverInterrupted(s).jobs[id].status.Submitting?)
  {
  }

  // ---------- the end of an unsigned job ----------

  lemma RollbackKeepsTerminal(s: Store, ancestor: int, retry: Option<JobId>, id: JobId)
    requires id in s.jobs && !s.jobs[id].input.recovered && UnsignedTerminal(s.jobs[id])
    ensures id in RollbackAfter(s, ancestor, retry).jobs && RollbackAfter(s, ancestor, retry).jobs[id] == s.jobs[id]
  {
  }

  lemma ConfirmKeepsTerminal(y: System, step: Step, id: JobId)
    requires ApplyingOwner(y) && (step.StepConfirm? || step.StepInsertRecovered?)
    requires id in y.db.jobs && UnsignedTerminal(y.db.jobs[id])
    ensures id in Next(y, step).db.jobs && Next(y, step).db.jobs[id] == y.db.jobs[id]
  {
  }

  lemma ReconcileKeepsTerminal(s: Store, o: JobId, mined: Mined, final: bool, id: JobId)
    requires id in s.jobs && UnsignedTerminal(s.jobs[id])
    ensures id in Reconcile(s, o, mined, final).jobs && Reconcile(s, o, mined, final).jobs[id] == s.jobs[id]
  {
  }

  lemma IndexerKeepsTerminal(y: System, step: Step, id: JobId)
    requires ApplyingOwner(y) && ByIndexer(step) && id in y.db.jobs && !y.db.jobs[id].input.recovered
    requires UnsignedTerminal(y.db.jobs[id])
    ensures id in Next(y, step).db.jobs && Next(y, step).db.jobs[id] == y.db.jobs[id]
  {
    if !RewritesJobs(step) {
      OtherJobsSame(y, step);
    } else {
      RewritingKeepsTerminal(y, step, id);
    }
  }

  lemma RewritingKeepsTerminal(y: System, step: Step, id: JobId)
    requires ApplyingOwner(y) && RewritesJobs(step) && id in y.db.jobs && !y.db.jobs[id].input.recovered
    requires UnsignedTerminal(y.db.jobs[id])
    ensures id in Next(y, step).db.jobs && Next(y, step).db.jobs[id] == y.db.jobs[id]
  {
    if step.StepRollback? {
      RollingKeepsTerminal(y, step, id);
    } else if step.StepReconcile? {
      ReconcilingKeepsTerminal(y, step, id);
    } else {
      ConfirmKeepsTerminal(y, step, id);
    }
  }

  lemma RollingKeepsTerminal(y: System, step: Step, id: JobId)
    requires step.StepRollback? && id in y.db.jobs && !y.db.jobs[id].input.recovered && UnsignedTerminal(y.db.jobs[id])
    ensures id in Next(y, step).db.jobs && Next(y, step).db.jobs[id] == y.db.jobs[id]
  {
    RollbackKeepsTerminal(y.db, step.ancestor, step.retry, id);
  }

  lemma ReconcilingKeepsTerminal(y: System, step: Step, id: JobId)
    requires step.StepReconcile? && id in y.db.jobs && UnsignedTerminal(y.db.jobs[id])
    ensures id in Next(y, step).db.jobs && Next(y, step).db.jobs[id] == y.db.jobs[id]
  {
    ReconcileKeepsTerminal(y.db, step.id, step.mined, step.final, id);
  }

  lemma StepKeepsTerminal(y: System, step: Step, id: JobId)
    requires Base(y) && id in y.db.jobs && !y.db.jobs[id].input.recovered && UnsignedTerminal(y.db.jobs[id])
    ensures id in Next(y, step).db.jobs && Next(y, step).db.jobs[id] == y.db.jobs[id]
  {
    if ByIndexer(step) {
      IndexerKeepsTerminal(y, step, id);
    } else if Possible(y, step) {
      WorkKeepsJobsSane(y, step);
      assert Evolves(y.db.jobs[id], Next(y, step).db.jobs[id]);
    }
  }

  /** A job that ended unsigned is never touched again, by anyone, in any run. */
  lemma {:induction false} TerminalForever(y: System, steps: seq<Step>, id: JobId)
    requires Base(y) && id in y.db.jobs && !y.db.jobs[id].input.recovered && UnsignedTerminal(y.db.jobs[id])
    ensures id in Run(y, steps).db.jobs && Run(y, steps).db.jobs[id] == y.db.jobs[id]
    decreases |steps|
  {
    if steps != [] {
      var earlier := steps[..|steps| - 1];
      TerminalForever(y, earlier, id);
      RunKeepsBase(y, earlier);
      StepKeepsTerminal(Run(y, earlier), steps[|steps| - 1], id);
    }
  }

  lemma UncalledUnsigned(y: System, id: JobId)
    requires Base(y) && id in y.db.jobs && y.db.jobs[id].intent.None? && y.db.jobs[id].prepared.None?
    ensures forall i :: 0 <= i < |y.out.calls| ==> y.out.calls[i].job != id
    ensures forall i :: 0 <= i < |y.out.broadcasts| ==> y.out.broadcasts[i].job != id
  {
    forall i | 0 <= i < |y.out.calls|
      ensures y.out.calls[i].job != id
    {
      assert Sealed(y.db.jobs, y.out.calls[i]);
    }
  }

  lemma CancelledAtOnce(y: System, id: JobId)
    requires Base(y) && Cancel(y.db, id).Success?
    ensures var k := Next(y, StepCancel(id)).db.jobs;
      id in k && k[id].status.Rejected? && UnsignedTerminal(k[id]) && k[id].intent.None? && !k[id].input.recovered
  {
    assert !y.db.jobs[id].input.recovered;
  }

  /**
    A cancelled job stays rejected, frees the writer, and was never sent to the
    prover or to the chain, before or after, whatever happens later.
   */
  lemma CancelledForever(y: System, id: JobId, steps: seq<Step>, z: System)
    requires Base(y) && Cancel(y.db, id).Success? && z == Run(Next(y, StepCancel(id)), steps)
    ensures id in z.db.jobs && z.db.jobs[id].status.Rejected? && Released(z.db.jobs[id])
    ensures forall i :: 0 <= i < |z.out.calls| ==> z.out.calls[i].job != id
    ensures forall i :: 0 <= i < |z.out.broadcasts| ==> z.out.broadcasts[i].job != id
  {
    var mid := Next(y, StepCancel(id));
    CancelledAtOnce(y, id);
    StepKeepsBase(y, StepCancel(id));
    TerminalForever(mid, steps, id);
    RunKeepsBase(mid, steps);
    UncalledUnsigned(z, id);
  }
}
