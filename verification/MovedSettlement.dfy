/**
  A run with a threshold in which a settlement is mined again in another block.
  Its account effect is undone and redone; its action row keeps the old block.
 */
module MovedSettlement {
  import opened Common
  import opened Chain
  import opened ActionLog
  import opened Gateway
  import opened Runs
  import opened Core
  import opened Threshold
  import opened ActionRuns
  import Ledger

  /** The same transaction, in a block of the other branch. */
  const AGAIN := EVENT.(block := 12, hash := 112)

  const KEY := ActionKey(TX, 0, 1)

  const OLD_ROW := ActionRow(OUTER, 7, 8, 10, 10, false)

  // ---------- everything is rolled back ----------

  const ORPHANED: Rows := map[10 := Row(10, false, false), 11 := Row(11, false, false), 12 := Row(12, false, false)]

  function Undone(): Store {
    Opened().(ready := false, jobs := map[], ledger := Ledger.State(ACCOUNTS, []),
              actions := map[KEY := OLD_ROW.(removed := true)], rows := ORPHANED,
              events := map[TX := EVENT.(removed := true)], cursor := 9)
  }

  lemma OldActions()
    ensures Opened().actions == map[KEY := OLD_ROW]
  {
    var p := Posted10(EVENT);
    assert WriteFirst(map[], p, 0) == map[];
    assert WriteFirst(map[], p, 1) == Upsert(map[], p, 0) == map[KEY := OLD_ROW];
  }

  lemma LedgerUndone(id: JobId, e: Event, ancestor: nat)
    requires ancestor < e.block
    ensures Ledger.Rollback(LedgerAfter(id, e), ancestor) == Ledger.State(ACCOUNTS, [])
  {
    var app := Ledger.Application(id, e.block, e.hash, Ledger.SettlementEffect(OUTER, PAYER, 0, [5], 7, 8));
    EffectOnAccounts(id, e);
    assert [app][..0] == [];
    assert Ledger.Represents(Ledger.State(ACCOUNTS, []), ACCOUNTS, []);
    Ledger.ApplyExtendsReplay(Ledger.State(ACCOUNTS, []), ACCOUNTS, [], app);
    assert [] + [app] == [app];
    Ledger.RollbackIsReplay(LedgerAfter(id, e), ACCOUNTS, [app], ancestor);
    assert Ledger.UpTo([app], ancestor) == [];
  }

  lemma JobUndone(s: Store)
    requires s.jobs == map[0 := Rebuilt(EVENT)] && s.writer.job.None? && s.pending == {}
    ensures RetryChoice(s.jobs, 9, None) && RollbackJobs(s, 9, None) == map[]
    ensures RollbackPending(s, map[], None) == {}
  {
    assert s.jobs.Keys == {0} && s.jobs[0] == Rebuilt(EVENT);
    assert Deleted(s, 9, 0);
  }

  lemma ChainUndone()
    ensures RollbackBlocks(ROWS, 9) == ORPHANED
    ensures RollbackEvents(map[TX := EVENT], 9) == map[TX := EVENT.(removed := true)]
    ensures MarkRemoved(map[KEY := OLD_ROW], 9) == map[KEY := OLD_ROW.(removed := true)]
  {
  }

  lemma AllUndone()
    ensures RetryChoice(Opened().jobs, 9, None) && RollbackAfter(Opened(), 9, None) == Undone()
  {
    OldActions();
    LedgerUndone(0, EVENT, 9);
    JobUndone(Opened());
    ChainUndone();
  }

  lemma Undoes()
    ensures Run(System(Opened(), Start().out, Idle), [StepBeginTick, StepRollback(9, None)])
      == System(Undone(), Start().out, Indexing)
  {
    var y := System(Opened(), Start().out, Idle);
    Run2(y, StepBeginTick, StepRollback(9, None));
    Begins(y);
    AllUndone();
    RolledBackTo(y.(phase := Indexing), 9, None);
  }

  // ---------- the other branch ----------

  const BRANCH1: Rows := ORPHANED[10 := Row(110, true, false)][11 := Row(111, true, false)]
  const BRANCH2: Rows := BRANCH1[12 := Row(112, true, false)][13 := Row(113, true, false)]
  const BRANCH3: Rows := map[
    10 := Row(110, true, true), 11 := Row(111, true, true), 12 := Row(112, true, true),
    13 := Row(113, true, false), 14 := Row(114, true, false)]

  lemma BranchBegins(y: System)
    requires y.phase.Indexing? && y.db.rows == ORPHANED
    ensures Run(y, [StepIndexRow(BlockAt(10, 110)), StepIndexRow(BlockAt(11, 111))]) == y.(db := y.db.(rows := BRANCH1))
  {
    Run2(y, StepIndexRow(BlockAt(10, 110)), StepIndexRow(BlockAt(11, 111)));
    RowIndexed(y, BlockAt(10, 110));
    RowIndexed(y.(db := y.db.(rows := ORPHANED[10 := Row(110, true, false)])), BlockAt(11, 111));
  }

  lemma BranchGrows(y: System)
    requires y.phase.Indexing? && y.db.rows == BRANCH1
    ensures Run(y, [StepIndexRow(BlockAt(12, 112)), StepIndexRow(BlockAt(13, 113))]) == y.(db := y.db.(rows := BRANCH2))
  {
    Run2(y, StepIndexRow(BlockAt(12, 112)), StepIndexRow(BlockAt(13, 113)));
    RowIndexed(y, BlockAt(12, 112));
    RowIndexed(y.(db := y.db.(rows := BRANCH1[12 := Row(112, true, false)])), BlockAt(13, 113));
  }

  lemma BranchFinal()
    ensures Below(BRANCH2, 13) && Finalize(InsertBlock(BRANCH2, BlockAt(14, 114)), Some(12)) == BRANCH3
  {
  }

  lemma BranchEnds(y: System)
    requires y.phase.Indexing? && y.db.mode.Confirmations? && y.db.rows == BRANCH2
    ensures Run(y, [StepIndexRow(BlockAt(14, 114)), StepFinalize(Some(12))])
      == y.(db := y.db.(rows := BRANCH3), phase := Exploring)
  {
    Run2(y, StepIndexRow(BlockAt(14, 114)), StepFinalize(Some(12)));
    BranchFinal();
    RowIndexed(y, BlockAt(14, 114));
    BoundarySet(y.(db := y.db.(rows := InsertBlock(BRANCH2, BlockAt(14, 114)))), 12);
  }

  function Branched(): Store {
    Undone().(rows := BRANCH3, events := map[TX := AGAIN], cursor := 14)
  }

  lemma OnlyAgain(s: Store)
    requires s.rows == BRANCH3 && s.events == map[TX := AGAIN]
    ensures EventList(s, [AGAIN]) && Below(s.rows, 14)
  {
    assert FinalEvent(s, TX);
    assert forall tx :: FinalEvent(s, tx) ==> tx == TX;
  }

  lemma FindsAgain(y: System)
    requires y == System(Undone().(rows := BRANCH3), Start().out, Exploring)
    ensures Run(y, [StepIndexEvent(AGAIN), StepEndEvents(14, [AGAIN])])
      == System(Branched(), Start().out, Recovering([AGAIN]))
  {
    Run2(y, StepIndexEvent(AGAIN), StepEndEvents(14, [AGAIN]));
    assert y.db.events[TX].removed;
    EventIndexed(y, AGAIN);
    var z := y.(db := y.db.(events := map[TX := AGAIN]));
    assert y.db.events[AGAIN.tx := AGAIN] == map[TX := AGAIN];
    OnlyAgain(z.db);
    EventsEnd(z, 14, [AGAIN]);
  }

  const BRANCH_STEPS := [StepIndexRow(BlockAt(10, 110)), StepIndexRow(BlockAt(11, 111))]
    + [StepIndexRow(BlockAt(12, 112)), StepIndexRow(BlockAt(13, 113))]
    + [StepIndexRow(BlockAt(14, 114)), StepFinalize(Some(12))]

  lemma BranchRun(y: System)
    requires y == System(Undone(), Start().out, Indexing)
    ensures Run(y, BRANCH_STEPS) == System(Undone().(rows := BRANCH3), Start().out, Exploring)
  {
    var y1, y2 := y.(db := y.db.(rows := BRANCH1)), y.(db := y.db.(rows := BRANCH2));
    BranchBegins(y);
    BranchGrows(y1);
    BranchEnds(y2);
    var a := [StepIndexRow(BlockAt(10, 110)), StepIndexRow(BlockAt(11, 111))];
    var b := [StepIndexRow(BlockAt(12, 112)), StepIndexRow(BlockAt(13, 113))];
    Compose(y, a, y1, b, y2);
    Compose(y, a + b, y2, [StepIndexRow(BlockAt(14, 114)), StepFinalize(Some(12))],
            System(Undone().(rows := BRANCH3), Start().out, Exploring));
  }

  // ---------- applied again ----------

  function Ended(): Store {
    AfterReceipt(Branched(), 1, AGAIN).(ready := true)
  }

  const RECOVER_AGAIN := [StepInsertRecovered(1), StepApply(1), StepConfirm, StepEndRecovery]

  lemma AppliedAgain()
    ensures Run(System(Branched(), Start().out, Recovering([AGAIN])), RECOVER_AGAIN + [StepReady])
      == System(Ended(), Start().out, Idle)
  {
    var y := System(Branched(), Start().out, Recovering([AGAIN]));
    RecoversOne(y, 1, AGAIN);
    var z := y.(db := AfterReceipt(Branched(), 1, AGAIN), phase := Reconciling);
    Opens(z);
    Run1(z, StepReady);
    Compose(y, RECOVER_AGAIN, z, [StepReady], System(Ended(), Start().out, Idle));
  }

  function MovedSteps(): seq<Step> {
    FirstPass() + [StepBeginTick, StepRollback(9, None)] + BRANCH_STEPS
      + [StepIndexEvent(AGAIN), StepEndEvents(14, [AGAIN])] + (RECOVER_AGAIN + [StepReady])
  }

  lemma MovedToBranch()
    ensures Run(Start(), FirstPass() + [StepBeginTick, StepRollback(9, None)] + BRANCH_STEPS)
      == System(Undone().(rows := BRANCH3), Start().out, Exploring)
  {
    FirstPassOpens();
    Undoes();
    var undo := [StepBeginTick, StepRollback(9, None)];
    var y := System(Undone(), Start().out, Indexing);
    Compose(Start(), FirstPass(), System(Opened(), Start().out, Idle), undo, y);
    BranchRun(y);
    Compose(Start(), FirstPass() + undo, y, BRANCH_STEPS, System(Undone().(rows := BRANCH3), Start().out, Exploring));
  }

  lemma MovedRun()
    ensures Run(Start(), MovedSteps()) == System(Ended(), Start().out, Idle)
  {
    MovedToBranch();
    var branch := FirstPass() + [StepBeginTick, StepRollback(9, None)] + BRANCH_STEPS;
    var find := [StepIndexEvent(AGAIN), StepEndEvents(14, [AGAIN])];
    var y := System(Undone().(rows := BRANCH3), Start().out, Exploring);
    var z := System(Branched(), Start().out, Recovering([AGAIN]));
    FindsAgain(y);
    Compose(Start(), branch, y, find, z);
    AppliedAgain();
    Compose(Start(), branch + find, z, RECOVER_AGAIN + [StepReady], System(Ended(), Start().out, Idle));
  }

  lemma KeptOldRow()
    ensures Ended().actions == map[KEY := OLD_ROW]
  {
    var table: ActionTable := map[KEY := OLD_ROW.(removed := true)];
    var p := Posted10(AGAIN);
    assert KeyAt(p, 0) == KEY;
    assert WriteFirst(table, p, 0) == table;
    assert WriteFirst(table, p, 1) == Upsert(table, p, 0);
    assert table[KEY := table[KEY].(removed := false)] == map[KEY := OLD_ROW];
  }

  /**
    A run from empty tables after which the settlement of block 12 is applied,
    its action row still says block 10 of the other branch, the row is not
    served, and a rollback of block 12 undoes the accounts but not the row.
   */
  lemma MovedRowStays()
    ensures var db := Run(Start(), MovedSteps()).db;
      && db.ready && db.ledger == LedgerAfter(1, AGAIN)
      && KEY in db.actions && db.actions[KEY].block == 10 && !db.actions[KEY].removed && !Served(db, KEY)
      && var undone := RollbackAfter(db, 11, None);
         undone.ledger.accounts == ACCOUNTS && KEY in undone.actions && !undone.actions[KEY].removed
  {
    MovedRun();
    KeptOldRow();
    LedgerUndone(1, AGAIN, 11);
  }
}
