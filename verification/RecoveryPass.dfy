/**
  The recovery and reconciliation passes over the tables, as the program runs
  them.  Each is a run of the state machine in Runs, so that everything proved
  of runs holds of it, wherever it is interrupted.
 */
module RecoveryPass {
  import opened Common
  import opened Chain
  import opened ActionLog
  import opened Gateway
  import opened Runs
  import opened Tables
  import Custody
  import Ledger

  /** A job with history under a confirmed job of this hash. */
  method FindApplied(db: GatewayDb, tx: Hash) returns (applied: bool)
    ensures applied == AlreadyApplied(db.View(), tx)
  {
    applied := false;
    var left := db.jobs.Keys;
    while left != {}
      invariant left <= db.jobs.Keys
      invariant forall id :: id in db.jobs && id !in left ==>
        !(db.jobs[id].txHash == Some(tx) && db.jobs[id].status.Confirmed? && Ledger.Recorded(db.ledger.history, id))
      decreases left
    {
      var id :| id in left;
      left := left - {id};
      if db.jobs[id].txHash == Some(tx) && db.jobs[id].status.Confirmed? && Ledger.Recorded(db.ledger.history, id) {
        assert id in db.View().jobs;
        return true;
      }
    }
  }

  /** The oldest job that carries this hash. */
  method FindOwner(db: GatewayDb, tx: Hash) returns (choice: Option<JobId>)
    ensures OwnerChoice(db.jobs, tx, choice)
  {
    choice := None;
    var left := db.jobs.Keys;
    while left != {}
      invariant left <= db.jobs.Keys
      invariant choice.Some? ==> choice.value in db.jobs && CarriesHash(db.jobs[choice.value], tx)
      invariant forall id :: id in db.jobs && id !in left && CarriesHash(db.jobs[id], tx) ==>
        choice.Some? && db.jobs[choice.value].created <= db.jobs[id].created
      decreases left
    {
      var id :| id in left;
      left := left - {id};
      if CarriesHash(db.jobs[id], tx) && (choice.None? || db.jobs[id].created < db.jobs[choice.value].created) {
        choice := Some(id);
      }
    }
  }

  /** The action rows of a receipt, one insert for each. */
  method WriteActions(db: GatewayDb, p: Posting)
    modifies db
    ensures db.View() == old(db.View()).(actions := Write(old(db.actions), p))
  {
    for i := 0 to Count(p)
      invariant db.View() == old(db.View()).(actions := db.actions)
      invariant db.actions == WriteFirst(old(db.actions), p, i)
    {
      var k := KeyAt(p, i);
      if k in db.actions {
        var row := db.actions[k].(removed := false);
        if p.receipt.BridgeReceipt? {
          row := row.(before := RowAt(p, i).before, after := p.receipt.states[i], block := p.block, hash := p.hash);
        }
        db.actions := db.actions[k := row];
      } else {
        db.actions := db.actions[k := RowAt(p, i)];
      }
    }
  }

  /** The application transaction of either kind of receipt. */
  method Apply(db: GatewayDb, id: JobId, tx: Hash, block: nat, hash: Hash, receipt: Receipt) returns (r: Result<()>)
    requires id in db.jobs
    modifies db, db.ledger
    ensures Commits(ApplyReceipt(old(db.View()), id, tx, block, hash, receipt), r, old(db.View()), db.View())
  {
    var app := ApplicationFor(db.View(), id, block, hash, receipt);
    var known := Ledger.Recorded(db.ledger.history, id);
    if receipt.SettlementReceipt? {
      r := db.ledger.ApplySettlement(app);
    } else {
      r := db.ledger.ApplyBridge(app);
    }
    if r.Failure? || known {
      return;
    }
    WriteActions(db, Posting(app.effect.outer, tx, block, hash, receipt));
    if receipt.SettlementReceipt? {
      db.pending := db.pending - {id};
    }
  }

  method Confirm(db: GatewayDb, id: JobId, e: Event)
    requires id in db.jobs
    modifies db
    ensures db.View() == ConfirmRecovered(old(db.View()), id, e)
  {
    var j := db.jobs[id].(status := Confirmed, values := Some(e.tx));
    db.jobs := db.jobs[id := j.(txHash := Some(e.tx), block := Some(Inclusion(e.block, e.hash)))];
  }

  /** A row id that no table has seen. */
  predicate Unused(s: Store, id: JobId) {
    id !in s.jobs && !Ledger.Recorded(s.ledger.history, id)
  }

  ghost predicate UsesOnly(s: Store, t: Store, id: JobId) {
    forall o :: Unused(s, o) && o != id ==> Unused(t, o)
  }

  lemma ApplyUses(s: Store, t: Store, id: JobId, e: Event)
    requires id in s.jobs && ApplyReceipt(s, id, e.tx, e.block, e.hash, e.receipt) == Success(t)
    ensures UsesOnly(s, t, id)
  {
    if !Ledger.Recorded(s.ledger.history, id) {
      Ledger.ApplyHistory(s.ledger, ApplicationFor(s, id, e.block, e.hash, e.receipt));
    }
  }

  /** The job that carries the event's hash, rebuilt from Ethereum if no row does. */
  method FindOrInsert(db: GatewayDb, e: Event, uuid: JobId, ghost out: Outside, ghost todo: seq<Event>)
    returns (id: JobId, ghost steps: seq<Step>)
    requires Unused(db.View(), uuid) && todo != [] && todo[0] == e && !AlreadyApplied(db.View(), e.tx)
    modifies db
    ensures Run(System(old(db.View()), out, Recovering(todo)), steps) == System(db.View(), out, Recovering(todo))
    ensures id in db.jobs && OwnerChoice(db.jobs, e.tx, Some(id)) && !AlreadyApplied(db.View(), e.tx)
    ensures UsesOnly(old(db.View()), db.View(), uuid)
  {
    var owner := FindOwner(db, e.tx);
    if owner.Some? {
      return owner.value, [];
    }
    ghost var s := db.View();
    db.jobs := db.jobs[uuid := RecoveredJob(db.View(), e)];
    InsertedIsOwner(s, uuid, e);
    OneStep(System(s, out, Recovering(todo)), StepInsertRecovered(uuid));
    return uuid, [StepInsertRecovered(uuid)];
  }

  /** Apply the receipt in one transaction, and confirm the job in the next. */
  method ApplyThenConfirm(db: GatewayDb, id: JobId, e: Event, ghost out: Outside, ghost todo: seq<Event>)
    returns (r: Result<()>, ghost steps: seq<Step>)
    requires id in db.jobs && todo != [] && todo[0] == e
    requires OwnerChoice(db.jobs, e.tx, Some(id)) && !AlreadyApplied(db.View(), e.tx)
    modifies db, db.ledger
    ensures Run(System(old(db.View()), out, Recovering(todo)), steps)
      == System(db.View(), out, if r.Success? then Recovering(todo[1..]) else Idle)
    ensures UsesOnly(old(db.View()), db.View(), id)
  {
    ghost var y := System(db.View(), out, Recovering(todo));
    r := Apply(db, id, e.tx, e.block, e.hash, e.receipt);
    AppliedStep(y, id, r, db.View());
    OneStep(y, StepApply(id));
    steps := [StepApply(id)];
    if r.Success? {
      ApplyUses(y.db, db.View(), id, e);
      Confirm(db, id, e);
      ExtendRun(y, steps, StepConfirm);
      steps := steps + [StepConfirm];
    }
  }

  lemma AppliedStep(y: System, id: JobId, r: Result<()>, after: Store)
    requires y.phase.Recovering? && y.phase.todo != [] && !AlreadyApplied(y.db, y.phase.todo[0].tx)
    requires OwnerChoice(y.db.jobs, y.phase.todo[0].tx, Some(id))
    requires var e := y.phase.todo[0];
      Commits(ApplyReceipt(y.db, id, e.tx, e.block, e.hash, e.receipt), r, y.db, after)
    ensures Next(y, StepApply(id)) == System(after, y.out, if r.Success? then Applied(y.phase.todo, id) else Idle)
    ensures after.jobs == y.db.jobs
  {
  }

  /** One accepted event; an applied one is passed over. */
  method RecoverEvent(db: GatewayDb, e: Event, uuid: JobId, ghost out: Outside, ghost todo: seq<Event>)
    returns (r: Result<()>, ghost steps: seq<Step>)
    requires Unused(db.View(), uuid) && todo != [] && todo[0] == e
    modifies db, db.ledger
    ensures Run(System(old(db.View()), out, Recovering(todo)), steps)
      == System(db.View(), out, if r.Success? then Recovering(todo[1..]) else Idle)
    ensures UsesOnly(old(db.View()), db.View(), uuid)
  {
    ghost var y := System(db.View(), out, Recovering(todo));
    var applied := FindApplied(db, e.tx);
    if applied {
      OneStep(y, StepSkip);
      return Success(()), [StepSkip];
    }
    var id: JobId;
    ghost var found, done;
    id, found := FindOrInsert(db, e, uuid, out, todo);
    r, done := ApplyThenConfirm(db, id, e, out, todo);
    Custody.RunSplits(y, found, done);
    steps := found + done;
  }

  /**
    `recover_gateway_state` after its query: every event in order, stopping at
    the first that fails.  The pass is a run of the state machine.
   */
  method RecoverGatewayState(db: GatewayDb, todo: seq<Event>, uuids: seq<JobId>, ghost out: Outside)
    returns (r: Result<()>, ghost steps: seq<Step>)
    requires |uuids| == |todo| && forall i, j :: 0 <= i < j < |uuids| ==> uuids[i] != uuids[j]
    requires forall i :: 0 <= i < |uuids| ==> Unused(db.View(), uuids[i])
    modifies db, db.ledger
    ensures Run(System(old(db.View()), out, Recovering(todo)), steps)
      == System(db.View(), out, if r.Success? then Recovering([]) else Idle)
  {
    ghost var y := System(db.View(), out, Recovering(todo));
    steps := [];
    r := Success(());
    for i := 0 to |todo|
      invariant Run(y, steps) == System(db.View(), out, Recovering(todo[i..]))
      invariant forall k :: i <= k < |uuids| ==> Unused(db.View(), uuids[k])
    {
      ghost var done;
      r, done := RecoverEvent(db, todo[i], uuids[i], out, todo[i..]);
      Custody.RunSplits(y, steps, done);
      steps := steps + done;
      assert todo[i..][1..] == todo[i + 1..];
      if r.Failure? {
        return;
      }
    }
    r := Success(());
  }

  /** One row of `reconcile_jobs`, given the receipt the node reports for its hash. */
  method ReconcileRow(db: GatewayDb, id: JobId, mined: Mined, receipt: Receipt, final: bool) returns (r: Result<()>)
    modifies db, db.ledger
    ensures r.Failure? ==> db.View() == old(db.View())
    ensures r.Success? && !AppliesFirst(old(db.View()), id, mined, final) ==>
      db.View() == Reconcile(old(db.View()), id, mined, final)
    ensures r.Success? && AppliesFirst(old(db.View()), id, mined, final) ==>
      ReconcileReceipt(old(db.View()), id, mined, receipt).Success?
      && db.View() == Reconcile(ReconcileReceipt(old(db.View()), id, mined, receipt).value, id, mined, final)
  {
    r := Success(());
    if !Reconcilable(db.View(), id, mined) {
      return;
    }
    var j := db.jobs[id];
    if j.status.Reorged? && (!final || mined.succeeded) {
      return;
    }
    if !mined.succeeded && final {
      db.jobs := db.jobs[id := j.(status := EthereumReverted)];
      db.pending := db.pending - {id};
      return;
    }
    if final && !(receipt.SettlementReceipt? && j.input.submission.None?) {
      r := Apply(db, id, j.txHash.value, mined.number, mined.hash, receipt);
      if r.Failure? {
        return;
      }
    }
    db.jobs := db.jobs[id := j.(status := if final then Confirmed else Submitted,
                                block := Some(Inclusion(mined.number, mined.hash)))];
  }

  predicate AppliesFirst(s: Store, id: JobId, mined: Mined, final: bool) {
    Reconcilable(s, id, mined) && !s.jobs[id].status.Reorged? && mined.succeeded && final
  }

  lemma ExtendRun(y: System, steps: seq<Step>, step: Step)
    ensures Run(y, steps + [step]) == Next(Run(y, steps), step)
  {
    assert (steps + [step])[..|steps + [step]| - 1] == steps;
  }

  lemma OneStep(y: System, step: Step)
    ensures Run(y, [step]) == Next(y, step)
  {
    assert [step][..0] == [];
  }

  /** The rebuilt row carries the hash no other row carried, and is not applied yet. */
  lemma InsertedIsOwner(s: Store, id: JobId, e: Event)
    requires Unused(s, id) && OwnerChoice(s.jobs, e.tx, None) && !AlreadyApplied(s, e.tx)
    ensures OwnerChoice(InsertRecovered(s, id, e).jobs, e.tx, Some(id))
    ensures !AlreadyApplied(InsertRecovered(s, id, e), e.tx)
  {
  }
}
