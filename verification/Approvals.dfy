/**
  Approval over whole runs: nobody but an operator approves, each approval was
  of the digest current at that moment, and where approval is required no proof
  is bought without one.
 */
module Approvals {
  import opened Common
  import opened Chain
  import opened Gateway
  import opened Runs
  import opened Ownership
  import opened LifeCycle
  import Quiet
  import Core
  import Ledger

  // ---------- what a row says ----------

  predicate Honest(j: Job) {
    j.status == Approved ==> j.approved
  }

  predicate AllHonest(jobs: Jobs) {
    forall id :: id in jobs ==> Honest(jobs[id])
  }

  /** What the tables gain as rows: fresh requests, and confirmed receipts of other gateways. */
  predicate Arrived(j: Job) {
    j.status != Approved && j.status != Proving && !j.approved && j.intent.None?
  }

  lemma NewRowsArrive(y: System, step: Step, id: JobId)
    requires Base(y) && id in Next(y, step).db.jobs && id !in y.db.jobs
    ensures Arrived(Next(y, step).db.jobs[id])
  {
    if !ByIndexer(step) {
      if Possible(y, step) {
        Quiet.TransactIsQuiet(y, step);
      }
    } else if !RewritesJobs(step) {
      OtherJobsSame(y, step);
    } else {
      RewrittenRowsArrive(y, step, id);
    }
  }

  lemma RewrittenRowsArrive(y: System, step: Step, id: JobId)
    requires RewritesJobs(step) && id in Next(y, step).db.jobs && id !in y.db.jobs
    ensures Arrived(Next(y, step).db.jobs[id])
  {
    if step.StepInsertRecovered? {
      Core.InsertRecoveredNext(y, step);
    } else if step.StepConfirm? {
      Core.ConfirmNext(y, step);
    } else {
      NoRowArrives(y, step, id);
    }
  }

  lemma NoRowArrives(y: System, step: Step, id: JobId)
    requires (step.StepReconcile? || step.StepRollback?) && id in Next(y, step).db.jobs
    ensures id in y.db.jobs
  {
    if Next(y, step) != y {
      if step.StepReconcile? {
        Core.ReconcileNext(y, step);
      } else {
        Core.RollbackNext(y, step);
      }
    }
  }

  // ---------- one step ----------

  /** The approval of this very row, with the digest current at that moment. */
  predicate Approves(y: System, step: Step, id: JobId) {
    id in y.db.jobs && y.db.jobs[id].status == AwaitingApproval && step == StepApprove(id, CurrentDigest(y.db.jobs[id]))
  }

  lemma RowMoves(y: System, step: Step, id: JobId)
    requires id in y.db.jobs && id in Next(y, step).db.jobs
    ensures var j, k := y.db.jobs[id], Next(y, step).db.jobs[id];
      if ByIndexer(step) then IndexerEdge(step, id, j, k) else Moves(step, id, j, k)
  {
    if ByIndexer(step) {
      IndexerMoves(y, step, id);
    } else if Possible(y, step) {
      StatusMoves(y.db, step, id);
    } else {
      StaysPut(step, id, y.db.jobs[id]);
    }
  }

  lemma ApprovingTakes(y: System, step: Step, id: JobId)
    requires Approves(y, step, id)
    ensures id in Next(y, step).db.jobs && Next(y, step).db.jobs[id].approved
  {
    ApproveIff(y.db, id, step.digest);
  }

  lemma FlagMoves(y: System, step: Step, id: JobId, j: Job, k: Job)
    requires id in y.db.jobs && j == y.db.jobs[id] && !Approves(y, step, id)
    requires if ByIndexer(step) then IndexerEdge(step, id, j, k) else Moves(step, id, j, k)
    ensures k.approved == j.approved
  {
  }

  /** The flag of a row goes up in one way, and stays up. */
  lemma ApprovedIff(y: System, step: Step, id: JobId)
    requires Base(y) && id in Next(y, step).db.jobs
    ensures Next(y, step).db.jobs[id].approved <==>
      (id in y.db.jobs && y.db.jobs[id].approved) || Approves(y, step, id)
  {
    if Approves(y, step, id) {
      ApprovingTakes(y, step, id);
    } else if id in y.db.jobs {
      RowMoves(y, step, id);
      FlagMoves(y, step, id, y.db.jobs[id], Next(y, step).db.jobs[id]);
    } else {
      NewRowsArrive(y, step, id);
    }
  }

  lemma StepKeepsHonest(y: System, step: Step)
    requires Base(y) && AllHonest(y.db.jobs)
    ensures AllHonest(Next(y, step).db.jobs)
  {
    forall id | id in Next(y, step).db.jobs
      ensures Honest(Next(y, step).db.jobs[id])
    {
      if id in y.db.jobs {
        RowMoves(y, step, id);
        HonestEdge(step, id, y.db.jobs[id], Next(y, step).db.jobs[id]);
      } else {
        NewRowsArrive(y, step, id);
      }
    }
  }

  lemma HonestEdge(step: Step, id: JobId, j: Job, k: Job)
    requires if ByIndexer(step) then IndexerEdge(step, id, j, k) else Moves(step, id, j, k)
    requires Honest(j)
    ensures Honest(k)
  {
  }

  // ---------- whole runs ----------

  lemma {:induction false} RunKeepsHonest(y: System, steps: seq<Step>)
    requires Base(y) && AllHonest(y.db.jobs)
    ensures AllHonest(Run(y, steps).db.jobs)
    decreases |steps|
  {
    if steps != [] {
      var earlier := steps[..|steps| - 1];
      RunKeepsHonest(y, earlier);
      RunKeepsBase(y, earlier);
      StepKeepsHonest(Run(y, earlier), steps[|steps| - 1]);
    }
  }

  /** Some step of the run approved the row. */
  ghost predicate WasApproved(y: System, steps: seq<Step>, id: JobId) {
    exists k :: 0 <= k < |steps| && ApprovedAt(y, steps, k, id)
  }

  ghost predicate ApprovedAt(y: System, steps: seq<Step>, k: nat, id: JobId)
    requires k < |steps|
  {
    Approves(Run(y, steps[..k]), steps[k], id)
  }

  lemma WasApprovedLater(y: System, steps: seq<Step>, n: nat, id: JobId)
    requires n <= |steps| && WasApproved(y, steps[..n], id)
    ensures WasApproved(y, steps, id)
  {
    var k :| 0 <= k < n && ApprovedAt(y, steps[..n], k, id);
    assert steps[..n][..k] == steps[..k];
    assert ApprovedAt(y, steps, k, id);
  }

  lemma {:induction false} FlagHasApproval(y: System, steps: seq<Step>, id: JobId)
    requires Base(y) && y.db.jobs == map[]
    requires id in Run(y, steps).db.jobs && Run(y, steps).db.jobs[id].approved
    ensures WasApproved(y, steps, id)
    decreases |steps|
  {
    if steps != [] {
      var n := |steps| - 1;
      RunKeepsBase(y, steps[..n]);
      ApprovedIff(Run(y, steps[..n]), steps[n], id);
      if Approves(Run(y, steps[..n]), steps[n], id) {
        assert ApprovedAt(y, steps, n, id);
      } else {
        FlagHasApproval(y, steps[..n], id);
        WasApprovedLater(y, steps, n, id);
      }
    }
  }

  lemma EmptyBase(mode: Mode, outerKey: Key, feeKey: Key, accounts: Ledger.Accounts)
    ensures Base(Initial(mode, outerKey, feeKey, accounts))
    ensures Initial(mode, outerKey, feeKey, accounts).db.jobs == map[]
  {
    Core.InitialCore(mode, outerKey, feeKey, accounts);
  }

  /**
    In every run of either mode, through failures, restarts and rollbacks, a job
    stands approved only after an operator approved the digest it had then.
   */
  lemma ApprovedWasApproved(mode: Mode, outerKey: Key, feeKey: Key, accounts: Ledger.Accounts, y: System,
                            steps: seq<Step>, id: JobId)
    requires y == Initial(mode, outerKey, feeKey, accounts) && id in Run(y, steps).db.jobs
    requires Run(y, steps).db.jobs[id].status == Approved
    ensures WasApproved(y, steps, id)
  {
    EmptyBase(mode, outerKey, feeKey, accounts);
    RunKeepsHonest(y, steps);
    FlagHasApproval(y, steps, id);
  }

  // ---------- where approval is required ----------

  /**
    A worker that requires approval ends its preflight there.  It starts proving
    only a job it claimed as approved, or one whose proof was already requested.
   */
  predicate Requires(y: System, step: Step) {
    step.StepSetProving? && step.id in y.db.jobs ==>
      y.db.jobs[step.id].status == Proving || y.db.jobs[step.id].request.Some?
  }

  ghost predicate AlwaysRequires(y: System, steps: seq<Step>) {
    forall k :: 0 <= k < |steps| ==> Requires(Run(y, steps[..k]), steps[k])
  }

  predicate Bought(j: Job) {
    Honest(j) && (j.status == Proving || j.intent.Some? ==> j.approved)
  }

  predicate AllBought(jobs: Jobs) {
    forall id :: id in jobs ==> Bought(jobs[id])
  }

  lemma BoughtEdge(step: Step, id: JobId, j: Job, k: Job)
    requires if ByIndexer(step) then IndexerEdge(step, id, j, k) else Moves(step, id, j, k)
    requires Bought(j) && (j.request.Some? ==> j.intent.Some?)
    requires step.StepSetProving? && step.id == id ==> j.status == Proving || j.request.Some?
    ensures Bought(k)
  {
  }

  lemma StepKeepsBought(y: System, step: Step)
    requires Base(y) && AllBought(y.db.jobs) && Requires(y, step)
    ensures AllBought(Next(y, step).db.jobs)
  {
    forall id | id in Next(y, step).db.jobs
      ensures Bought(Next(y, step).db.jobs[id])
    {
      if id in y.db.jobs {
        RowMoves(y, step, id);
        assert Answered(y.out, id, y.db.jobs[id]);
        BoughtEdge(step, id, y.db.jobs[id], Next(y, step).db.jobs[id]);
      } else {
        NewRowsArrive(y, step, id);
      }
    }
  }

  lemma {:induction false} RunKeepsBought(y: System, steps: seq<Step>)
    requires Base(y) && AllBought(y.db.jobs) && AlwaysRequires(y, steps)
    ensures AllBought(Run(y, steps).db.jobs)
    decreases |steps|
  {
    if steps != [] {
      var n := |steps| - 1;
      forall k | 0 <= k < n
        ensures Requires(Run(y, steps[..n][..k]), steps[..n][k])
      {
        assert steps[..n][..k] == steps[..k];
      }
      RunKeepsBought(y, steps[..n]);
      RunKeepsBase(y, steps[..n]);
      StepKeepsBought(Run(y, steps[..n]), steps[n]);
    }
  }

  /** Where approval is required, every job that was ever sent to the prover had been approved. */
  lemma NoUnapprovedProof(mode: Mode, outerKey: Key, feeKey: Key, accounts: Ledger.Accounts, y: System,
                          steps: seq<Step>, z: System, i: nat)
    requires y == Initial(mode, outerKey, feeKey, accounts) && AlwaysRequires(y, steps) && z == Run(y, steps)
    requires i < |z.out.calls|
    ensures WasApproved(y, steps, z.out.calls[i].job)
  {
    EmptyBase(mode, outerKey, feeKey, accounts);
    RunKeepsBought(y, steps);
    RunKeepsBase(y, steps);
    assert Sealed(z.db.jobs, z.out.calls[i]);
    FlagHasApproval(y, steps, z.out.calls[i].job);
  }
}
