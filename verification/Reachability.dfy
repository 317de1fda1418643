/**
  What the safety theorems leave room for, and where they stop: a reachable
  open gateway with a live job, and the reason why uniqueness is claimed in
  Finalized mode only.
 */
module Reachability {
  import opened Common
  import opened Chain
  import opened Gateway
  import opened Runs
  import opened Safety
  import Ledger

  /** An account the bridge may act on: its newest action state is known. */
  predicate Ready(accounts: Ledger.Accounts, outerKey: Key, action: Field) {
    outerKey in accounts && HeadAction(accounts[outerKey], action)
  }

  function BridgeInput(action: Field): Input {
    Input(0, None, None, Some(Checkpoint([], action)), None, false)
  }

  /** One empty indexer pass, and then a bridge job. */
  function OpeningSteps(action: Field): seq<Step> {
    [StepBeginTick, StepFinalize(Some(0)), StepEndEvents(0, []), StepEndRecovery, StepReady,
     StepCreateJob(0, Bridge, BridgeInput(action), 1)]
  }

  lemma PrefixRun(y: System, steps: seq<Step>, k: nat)
    requires k < |steps|
    ensures Run(y, steps[..k + 1]) == Next(Run(y, steps[..k]), steps[k])
  {
    assert steps[..k + 1][..k] == steps[..k];
  }

  lemma EmptyIndexing(y: System, action: Field)
    requires y.phase.Idle? && y.db.rows == map[]
    ensures Run(y, OpeningSteps(action)[..2]) == y.(phase := Exploring)
  {
    var steps := OpeningSteps(action);
    assert Run(y, steps[..0]) == y;
    PrefixRun(y, steps, 0);
    assert Run(y, steps[..1]) == y.(phase := Indexing);
    PrefixRun(y, steps, 1);
    assert Finalize(y.db.rows, Some(0)) == map[];
  }

  lemma EmptyRecovery(y: System)
    requires y.phase.Exploring? && y.db.rows == map[] && y.db.events == map[] && y.db.cursor == -1
    ensures Next(Next(Next(y, StepEndEvents(0, [])), StepEndRecovery), StepReady)
      == y.(db := y.db.(cursor := 0, ready := true), phase := Idle)
  {
    assert Next(y, StepEndEvents(0, [])) == y.(db := y.db.(cursor := 0), phase := Recovering([]));
  }

  lemma ThreeFurther(y: System, steps: seq<Step>, k: nat)
    requires k + 3 <= |steps|
    ensures Run(y, steps[..k + 3]) == Next(Next(Next(Run(y, steps[..k]), steps[k]), steps[k + 1]), steps[k + 2])
  {
    PrefixRun(y, steps, k);
    PrefixRun(y, steps, k + 1);
    PrefixRun(y, steps, k + 2);
  }

  /** The first pass over an empty chain opens the gateway. */
  lemma OpeningPass(y: System, action: Field)
    requires y.phase.Idle? && y.db.rows == map[] && y.db.events == map[] && y.db.cursor == -1
    ensures Run(y, OpeningSteps(action)[..5]) == y.(db := y.db.(ready := true, cursor := 0))
  {
    EmptyIndexing(y, action);
    ThreeFurther(y, OpeningSteps(action), 2);
    EmptyRecovery(y.(phase := Exploring));
  }

  lemma AdmittedNext(y: System, action: Field)
    requires y.db.ready && y.db.jobs == map[] && y.db.writer == Writer(None, None, 0, None, None, None)
    requires Ready(y.db.ledger.accounts, y.db.outerKey, action)
    ensures var db := Next(y, StepCreateJob(0, Bridge, BridgeInput(action), 1)).db;
      db.ready && 0 in db.jobs && !Released(db.jobs[0]) && db.writer.job == Some(0)
  {
    Admitted(y.db, action);
  }

  /** A gateway that is open for work and has its one live job is reachable. */
  lemma OpenWithLiveJob(outerKey: Key, feeKey: Key, accounts: Ledger.Accounts, action: Field)
    requires Ready(accounts, outerKey, action)
    ensures var db := Run(Initial(Finalized, outerKey, feeKey, accounts), OpeningSteps(action)).db;
      db.ready && 0 in db.jobs && !Released(db.jobs[0]) && db.writer.job == Some(0)
  {
    var y := Initial(Finalized, outerKey, feeKey, accounts);
    OpeningPass(y, action);
    PrefixRun(y, OpeningSteps(action), 5);
    assert OpeningSteps(action)[..6] == OpeningSteps(action);
    AdmittedNext(y.(db := y.db.(ready := true, cursor := 0)), action);
  }

  lemma Admitted(s: Store, action: Field)
    requires s.ready && s.jobs == map[] && s.writer == Writer(None, None, 0, None, None, None)
    requires Ready(s.ledger.accounts, s.outerKey, action)
    ensures var t := CreateJob(s, 0, Bridge, BridgeInput(action), 1);
      t.Success? && t.value.ready && t.value.jobs == map[0 := NewJob(Bridge, BridgeInput(action), s.now)]
      && t.value.writer.job == Some(0)
  {
    assert Lock(s) == Success(s);
    var made := InsertJob(s, 0, Bridge, BridgeInput(action)).value;
    assert made.store.jobs == map[0 := NewJob(Bridge, BridgeInput(action), s.now)];
    assert NoLiveJobs(made.store.jobs, Some(0));
  }

  /**
    Reconciliation keeps the one-writer rule exactly when it does not reopen a
    confirmed job that no longer owns the writer.  In Finalized mode a final
    receipt stays final, so that never happens; a confirmation threshold is
    reversible, and there it can.
   */
  lemma ReconcileKeepsOneWriterIff(s: Store, id: JobId, mined: Mined, final: bool)
    requires AllLiveAttached(s)
    ensures AllLiveAttached(Reconcile(s, id, mined, final)) <==>
      !(Reconcilable(s, id, mined) && s.jobs[id].status.Confirmed? && !final && s.writer.job != Some(id))
  {
    var t := Reconcile(s, id, mined, final);
    if Reconcilable(s, id, mined) && s.jobs[id].status.Confirmed? && !final && s.writer.job != Some(id) {
      assert id in t.jobs && !Released(t.jobs[id]) && t.writer.job != Some(id);
    } else {
      forall o | o in t.jobs && !Released(t.jobs[o])
        ensures t.writer.job == Some(o)
      {
        assert o != id ==> t.jobs[o] == s.jobs[o];
      }
    }
  }

  /** The depth a threshold asks for; at least the block itself. */
  function Depth(confirmations: nat): nat {
    if confirmations > 1 then confirmations - 1 else 0
  }

  /**
    A block found final under one head is found not final under a lower one
    exactly when the threshold falls between the two.
   */
  lemma ThresholdReversesIff(number: nat, head: nat, lower: nat, confirmations: nat)
    requires number <= lower < head
    ensures IsFinal(Confirmations, number, head, confirmations, None)
      && !IsFinal(Confirmations, number, lower, confirmations, None)
      <==> lower < number + Depth(confirmations) <= head
  {
  }

  /** The receipt test and the flag that block indexing sets agree, in either mode. */
  lemma FlagIsFinality(mode: Mode, number: nat, head: nat, confirmations: nat, finalized: Option<nat>)
    requires number <= head
    ensures IsFinal(mode, number, head, confirmations, finalized) <==>
      match mode
      case Finalized => finalized.Some? && number <= finalized.value
      case Confirmations => Depth(confirmations) <= head && number <= head - Depth(confirmations)
  {
  }
}
