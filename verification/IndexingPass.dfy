/**
  A pass over the blocks is a run of the state machine: the guards that runs
  put on the indexer's first steps are what the block index ensures.
 */
module IndexingPass {
  import opened Common
  import opened Chain
  import opened Gateway
  import opened Runs

  // ---------- the settlement a rollback retries ----------

  predicate NotAfter(j: Job, k: Job)
    requires j.block.Some? && k.block.Some?
  {
    j.block.value.number < k.block.value.number
    || (j.block.value.number == k.block.value.number && j.created <= k.created)
  }

  /** A rollback always has a choice: there is an earliest candidate, or none at all. */
  lemma RetryExists(jobs: Jobs, ancestor: int, left: set<JobId>) returns (retry: Option<JobId>)
    requires left <= jobs.Keys
    ensures retry.Some? ==> retry.value in left && RetryCandidate(jobs[retry.value], ancestor)
    ensures forall id :: id in left && RetryCandidate(jobs[id], ancestor) ==>
      retry.Some? && NotAfter(jobs[retry.value], jobs[id])
    decreases left
  {
    if left == {} {
      retry := None;
    } else {
      var id :| id in left;
      retry := RetryExists(jobs, ancestor, left - {id});
      if RetryCandidate(jobs[id], ancestor) && (retry.None? || NotAfter(jobs[id], jobs[retry.value])) {
        retry := Some(id);
      }
    }
  }

  lemma SomeRetry(jobs: Jobs, ancestor: int) returns (retry: Option<JobId>)
    ensures RetryChoice(jobs, ancestor, retry)
  {
    retry := RetryExists(jobs, ancestor, jobs.Keys);
  }

  // ---------- one operation, one step ----------

  /** The step that does this to the block table, while blocks are being indexed. */
  lemma StepFor(y: System, op: IndexOp) returns (step: Step)
    requires y.phase.Indexing? && Legal(y.db.mode, y.db.rows, op)
    ensures Next(y, step).db.rows == After(y.db.rows, op) && Next(y, step).db.mode == y.db.mode
    ensures Next(y, step).out == y.out
    ensures Next(y, step).phase == if op.SetBoundary? then Exploring else Indexing
    ensures ByIndexer(step) && (op.UndoTo? <==> step.StepRollback?)
  {
    match op
    case UndoTo(ancestor) =>
      var retry := SomeRetry(y.db.jobs, ancestor);
      step := StepRollback(ancestor, retry);
    case PutOn(b) => step := StepIndexRow(b);
    case SetBoundary(through) => step := StepFinalize(through);
  }

  lemma {:induction false} StepsFor(y: System, ops: seq<IndexOp>, after: Rows) returns (steps: seq<Step>)
    requires y.phase.Indexing? && Leads(y.db.mode, y.db.rows, ops, after)
    ensures var z := Run(y, steps);
      z.db.rows == after && z.phase.Indexing? && z.db.mode == y.db.mode && z.out == y.out
    ensures |steps| == |ops|
    decreases |ops|
  {
    if ops == [] {
      steps := [];
    } else {
      var n := |ops| - 1;
      var earlier := StepsFor(y, ops[..n], AfterAll(y.db.rows, ops[..n]));
      assert ops[n] in ops;
      var step := StepFor(Run(y, earlier), ops[n]);
      steps := earlier + [step];
      assert steps[..|steps| - 1] == earlier;
    }
  }

  /**
    Whatever a failed pass did to the block table, and whatever a successful one
    did, some run of the same number of indexer steps does.
   */
  lemma PassIsRun(index: BlockIndex, was: seq<IndexOp>, y: System) returns (steps: seq<Step>)
    requires y.phase.Indexing? && y.db.mode == index.mode
    requires index.Since(was, y.db.rows) || index.Passed(was, y.db.rows)
    ensures Run(y, steps).db.rows == index.rows && |steps| == |index.ops| - |was|
    ensures Run(y, steps).phase == if index.Passed(was, y.db.rows) then Exploring else Indexing
  {
    if index.Passed(was, y.db.rows) {
      var n := |index.ops| - 1;
      var ended := AfterAll(y.db.rows, index.ops[|was|..n]);
      var earlier := StepsFor(y, index.ops[|was|..n], ended);
      var step := StepFor(Run(y, earlier), index.ops[n]);
      steps := earlier + [step];
      assert steps[..|steps| - 1] == earlier;
    } else {
      steps := StepsFor(y, index.ops[|was|..], index.rows);
    }
  }

  /** An indexer tick's first part, and a run that does the same to any gateway over the same block table. */
  method IndexTick(index: BlockIndex, rpc: Rpc, head: nat, finalized: Option<Block>, ghost y: System)
    returns (r: Result<Block>, ghost steps: seq<Step>)
    requires index.Valid() && rpc.w == index.w && (finalized.Some? <==> index.mode.Finalized?)
    requires finalized.Some? ==> Genuine(index.w, finalized.value)
    requires y.phase.Indexing? && y.db.mode == index.mode && y.db.rows == index.rows
    modifies index, rpc
    ensures index.Valid() && Run(y, steps).db.rows == index.rows
    ensures r.Success? ==> Run(y, steps).phase.Exploring? && Below(Run(y, steps).db.rows, head)
  {
    ghost var was := index.ops;
    r := index.IndexBlocks(rpc, head, finalized);
    steps := PassIsRun(index, was, y);
  }

  /** The height through which a pass flags blocks is where the test on receipts begins to fail, in either mode. */
  lemma BoundaryIsReceiptTest(index: BlockIndex, n: nat, head: nat, finalized: Option<Block>)
    requires n <= head && (finalized.Some? <==> index.mode.Finalized?)
    ensures n <= index.FinalizedThrough(head, finalized) <==>
      IsFinal(index.mode, n, head, index.confirmations, if finalized.Some? then Some(finalized.value.number) else None)
  {
  }
}
