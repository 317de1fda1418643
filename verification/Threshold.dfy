/**
  Concrete runs with a threshold of three confirmations, from empty tables:
  what can happen there, and cannot in Finalized mode.  Every pass uses the
  boundary the indexer computes, two blocks below the head.
 */
module Threshold {
  import opened Common
  import opened Chain
  import opened ActionLog
  import opened Gateway
  import opened Runs
  import opened Core
  import opened OneWriter
  import opened Replaying
  import opened Recovery
  import Ledger
  import Custody
  import ActionRuns

  // ---------- putting runs together ----------

  lemma Run1(y: System, a: Step)
    ensures Run(y, [a]) == Next(y, a)
  {
    assert [a][..0] == [] && Run(y, []) == y;
  }

  lemma Run2(y: System, a: Step, b: Step)
    ensures Run(y, [a, b]) == Next(Next(y, a), b)
  {
    assert [a, b][..1] == [a];
    Run1(y, a);
  }

  lemma Run3(y: System, a: Step, b: Step, c: Step)
    ensures Run(y, [a, b, c]) == Next(Next(Next(y, a), b), c)
  {
    assert [a, b, c][..2] == [a, b];
    Run2(y, a, b);
  }

  lemma Run4(y: System, a: Step, b: Step, c: Step, d: Step)
    ensures Run(y, [a, b, c, d]) == Next(Next(Next(Next(y, a), b), c), d)
  {
    assert [a, b, c, d][..3] == [a, b, c];
    Run3(y, a, b, c);
  }

  lemma Compose(y: System, first: seq<Step>, mid: System, second: seq<Step>, z: System)
    requires Run(y, first) == mid && Run(mid, second) == z
    ensures Run(y, first + second) == z
  {
    Custody.RunSplits(y, first, second);
  }

  // ---------- what each step of the indexer does when it is taken ----------

  lemma Begins(y: System)
    requires y.phase.Idle?
    ensures Next(y, StepBeginTick) == y.(phase := Indexing)
  {
  }

  lemma RowIndexed(y: System, b: Block)
    requires y.phase.Indexing? && Below(y.db.rows, b.number - 1)
    ensures Next(y, StepIndexRow(b)) == y.(db := y.db.(rows := InsertBlock(y.db.rows, b)))
  {
  }

  lemma BoundarySet(y: System, through: nat)
    requires y.phase.Indexing? && y.db.mode.Confirmations?
    ensures Next(y, StepFinalize(Some(through)))
      == y.(db := y.db.(rows := Finalize(y.db.rows, Some(through))), phase := Exploring)
  {
  }

  lemma EventIndexed(y: System, e: Event)
    requires y.phase.Exploring? && e.block > y.db.cursor && !e.removed && MinedOnce(y.db, e) && LogIndexFree(y.db, e)
    ensures Next(y, StepIndexEvent(e)) == y.(db := y.db.(events := y.db.events[e.tx := e]))
  {
  }

  lemma EventsEnd(y: System, head: nat, todo: seq<Event>)
    requires y.phase.Exploring? && Below(y.db.rows, head) && EventList(y.db, todo)
    ensures Next(y, StepEndEvents(head, todo))
      == y.(db := y.db.(cursor := Advanced(y.db.cursor, head)), phase := Recovering(todo))
  {
  }

  lemma RowRebuilt(y: System, id: JobId)
    requires y.phase.Recovering? && y.phase.todo != [] && !AlreadyApplied(y.db, y.phase.todo[0].tx)
    requires OwnerChoice(y.db.jobs, y.phase.todo[0].tx, None) && id !in y.db.jobs
    ensures Next(y, StepInsertRecovered(id)) == y.(db := InsertRecovered(y.db, id, y.phase.todo[0]))
  {
  }

  lemma ReceiptApplied(y: System, id: JobId, t: Store)
    requires y.phase.Recovering? && y.phase.todo != [] && !AlreadyApplied(y.db, y.phase.todo[0].tx)
    requires OwnerChoice(y.db.jobs, y.phase.todo[0].tx, Some(id)) && AppliedTo(y.db, id, y.phase.todo[0]) == Success(t)
    ensures Next(y, StepApply(id)) == y.(db := t, phase := Applied(y.phase.todo, id))
  {
  }

  lemma JobConfirmed(y: System)
    requires y.phase.Applied? && y.phase.todo != []
    ensures Next(y, StepConfirm)
      == System(ConfirmRecovered(y.db, y.phase.id, y.phase.todo[0]), y.out, Recovering(y.phase.todo[1..]))
  {
  }

  lemma RecoveryEnds(y: System)
    requires y.phase == Recovering([])
    ensures Next(y, StepEndRecovery) == y.(phase := Reconciling)
  {
  }

  lemma Opens(y: System)
    requires y.phase.Reconciling?
    ensures Next(y, StepReady) == y.(db := y.db.(ready := true), phase := Idle)
  {
  }

  lemma RolledBackTo(y: System, ancestor: nat, retry: Option<JobId>)
    requires y.phase.Indexing? && y.db.mode.Confirmations? && RetryChoice(y.db.jobs, ancestor, retry)
    ensures Next(y, StepRollback(ancestor, retry)) == y.(db := RollbackAfter(y.db, ancestor, retry))
  {
  }

  lemma Reconciled(y: System, id: JobId, mined: Mined, final: bool)
    requires y.phase.Reconciling? && ReceiptTruthful(y.db, id, mined, final)
    ensures Next(y, StepReconcile(id, mined, final)) == y.(db := Reconcile(y.db, id, mined, final))
  {
  }

  // ---------- a first pass: block 10 has an accepted settlement, and is final ----------

  const OUTER: Key := 1
  const PAYER: Key := 2
  const TX: Hash := 1

  const OUTER_ACCOUNT := Ledger.Account([], Some([0]), true, None)
  const PAYER_ACCOUNT := Ledger.Account([], None, false, Some(0))
  const ACCOUNTS: Ledger.Accounts := map[OUTER := OUTER_ACCOUNT, PAYER := PAYER_ACCOUNT]
  const RECEIPT := SettlementReceipt([5], 7, 8, 1)
  const EVENT := Event(Settlement, TX, 10, 10, 0, RECEIPT, false)

  function Start(): System {
    Initial(Confirmations, OUTER, PAYER, ACCOUNTS)
  }

  function BlockAt(n: nat, hash: Hash): Block {
    Block(n, hash, hash - 1)
  }

  function Row(hash: Hash, canonical: bool, finalized: bool): BlockRow {
    BlockRow(hash, hash - 1, canonical, finalized)
  }

  const ROWS: Rows := map[10 := Row(10, true, true), 11 := Row(11, true, false), 12 := Row(12, true, false)]

  const FIRST_BLOCKS := [StepBeginTick, StepIndexRow(BlockAt(10, 10)), StepIndexRow(BlockAt(11, 11))]
  const FIRST_BOUNDARY := [StepIndexRow(BlockAt(12, 12)), StepFinalize(Some(10)), StepIndexEvent(EVENT)]

  lemma FirstBlocks()
    ensures Run(Start(), FIRST_BLOCKS)
      == Start().(db := Start().db.(rows := map[10 := Row(10, true, false), 11 := Row(11, true, false)]),
                  phase := Indexing)
  {
    var y := Start();
    Run3(y, FIRST_BLOCKS[0], FIRST_BLOCKS[1], FIRST_BLOCKS[2]);
    Begins(y);
    var y1 := y.(phase := Indexing);
    RowIndexed(y1, BlockAt(10, 10));
    var rows: Rows := map[10 := Row(10, true, false)];
    assert InsertBlock(map[], BlockAt(10, 10)) == rows;
    var y2 := y1.(db := y1.db.(rows := rows));
    RowIndexed(y2, BlockAt(11, 11));
  }

  function Explored(): System {
    Start().(db := Start().db.(rows := ROWS, events := map[TX := EVENT]), phase := Exploring)
  }

  lemma ThirdBlock(rows: Rows)
    requires rows == map[10 := Row(10, true, false), 11 := Row(11, true, false)]
    ensures Below(rows, 11)
    ensures Finalize(InsertBlock(rows, BlockAt(12, 12)), Some(10)) == ROWS
  {
  }

  lemma SecondBlocks(y: System)
    requires y == Start().(db := Start().db.(rows := map[10 := Row(10, true, false), 11 := Row(11, true, false)]),
                           phase := Indexing)
    ensures Run(y, [StepIndexRow(BlockAt(12, 12)), StepFinalize(Some(10))])
      == Start().(db := Start().db.(rows := ROWS), phase := Exploring)
  {
    Run2(y, StepIndexRow(BlockAt(12, 12)), StepFinalize(Some(10)));
    ThirdBlock(y.db.rows);
    RowIndexed(y, BlockAt(12, 12));
    BoundarySet(y.(db := y.db.(rows := InsertBlock(y.db.rows, BlockAt(12, 12)))), 10);
  }

  lemma FirstBoundary()
    ensures Run(Start(), FIRST_BLOCKS + FIRST_BOUNDARY) == Explored()
  {
    FirstBlocks();
    var rows: Rows := map[10 := Row(10, true, false), 11 := Row(11, true, false)];
    var y := Start().(db := Start().db.(rows := rows), phase := Indexing);
    var z := Start().(db := Start().db.(rows := ROWS), phase := Exploring);
    SecondBlocks(y);
    EventIndexed(z, EVENT);
    Run1(z, StepIndexEvent(EVENT));
    assert FIRST_BOUNDARY == [StepIndexRow(BlockAt(12, 12)), StepFinalize(Some(10))] + [StepIndexEvent(EVENT)];
    Compose(y, [StepIndexRow(BlockAt(12, 12)), StepFinalize(Some(10))], z, [StepIndexEvent(EVENT)], Explored());
    Compose(Start(), FIRST_BLOCKS, y, FIRST_BOUNDARY, Explored());
  }

  // ---------- recovering the settlement, wherever it was mined ----------

  const SETTLED: Ledger.Accounts := map[
    OUTER := Ledger.Account([5], Some([8, 7, 0]), true, None), PAYER := Ledger.Account([], None, false, Some(1))]

  function History(id: JobId, e: Event): seq<Ledger.HistoryRow> {
    [Ledger.HistoryRow(id, OUTER, OUTER_ACCOUNT, e.block, e.hash),
     Ledger.HistoryRow(id, PAYER, PAYER_ACCOUNT, e.block, e.hash)]
  }

  function LedgerAfter(id: JobId, e: Event): Ledger.State {
    Ledger.State(SETTLED, History(id, e))
  }

  const SUBMISSION := Submission(OUTER, PAYER, 0)

  /** The gateway before the settlement: no jobs, initial accounts. */
  predicate Untouched(s: Store) {
    s.jobs == map[] && s.pending == {} && s.ledger == Ledger.State(ACCOUNTS, [])
    && s.outerKey == OUTER && s.feeKey == PAYER && s.now == 0
  }

  function Rebuilt(e: Event): Job {
    Job(Settlement, Confirmed, 0, Input(0, None, None, None, Some(SUBMISSION), true), 0,
        None, Some(TX), false, None, None,
        None, None, Some(TX), Some(Inclusion(e.block, e.hash)), 0, None)
  }

  function Posted10(e: Event): Posting {
    ActionRuns.PostingOf(OUTER, e)
  }

  lemma EffectOnAccounts(id: JobId, e: Event)
    ensures var app := Ledger.Application(id, e.block, e.hash, Ledger.SettlementEffect(OUTER, PAYER, 0, [5], 7, 8));
      Ledger.Apply(Ledger.State(ACCOUNTS, []), app) == Success(LedgerAfter(id, e))
  {
    var effect := Ledger.SettlementEffect(OUTER, PAYER, 0, [5], 7, 8);
    assert Ledger.Take(Ledger.Actions(OUTER_ACCOUNT), 3) == [0];
    assert [8, 7] + [0] == [8, 7, 0];
    assert Ledger.SettledOuter(OUTER_ACCOUNT, [5], 7, 8) == Ledger.Account([5], Some([8, 7, 0]), true, None);
    var settled := ACCOUNTS[OUTER := Ledger.Account([5], Some([8, 7, 0]), true, None)];
    assert settled[PAYER] == PAYER_ACCOUNT;
    assert Ledger.Advanced(PAYER_ACCOUNT) == Ledger.Account([], None, false, Some(1));
    assert settled[PAYER := Ledger.Advanced(PAYER_ACCOUNT)] == SETTLED;
    assert Ledger.EffectOn(ACCOUNTS, effect) == Success(SETTLED);
    var app := Ledger.Application(id, e.block, e.hash, effect);
    assert Ledger.RowsOf(ACCOUNTS, app) == History(id, e);
    assert [] + History(id, e) == History(id, e);
  }

  function AfterReceipt(s: Store, id: JobId, e: Event): Store {
    s.(jobs := map[id := Rebuilt(e)], ledger := LedgerAfter(id, e), actions := Write(s.actions, Posted10(e)))
  }

  lemma InsertsRow(s: Store, id: JobId, e: Event)
    requires Untouched(s) && e.kind.Settlement? && e.tx == TX
    ensures InsertRecovered(s, id, e) == s.(jobs := map[id := Rebuilt(e)])
  {
    assert RecoveredSubmission(s) == SUBMISSION;
  }

  lemma AppliesReceipt(s: Store, id: JobId, e: Event)
    requires Untouched(s) && e.kind.Settlement? && e.tx == TX && e.receipt == RECEIPT
    ensures AppliedTo(s.(jobs := map[id := Rebuilt(e)]), id, e) == Success(AfterReceipt(s, id, e))
  {
    EffectOnAccounts(id, e);
    var none: set<JobId> := {};
    assert none - {id} == none;
  }

  /** The recovery of one settlement that no stored job carries. */
  lemma RecoversOne(y: System, id: JobId, e: Event)
    requires y.phase == Recovering([e]) && Untouched(y.db) && e.kind.Settlement? && e.tx == TX && e.receipt == RECEIPT
    ensures Run(y, [StepInsertRecovered(id), StepApply(id), StepConfirm, StepEndRecovery])
      == y.(db := AfterReceipt(y.db, id, e), phase := Reconciling)
  {
    Run4(y, StepInsertRecovered(id), StepApply(id), StepConfirm, StepEndRecovery);
    var s := y.db;
    InsertsRow(s, id, e);
    RowRebuilt(y, id);
    var y1 := y.(db := s.(jobs := map[id := Rebuilt(e)]));
    AppliesReceipt(s, id, e);
    NotYetApplied(y1.db, e.tx);
    ReceiptApplied(y1, id, AfterReceipt(s, id, e));
    var y2 := y.(db := AfterReceipt(s, id, e), phase := Applied([e], id));
    JobConfirmed(y2);
    ConfirmsSame(y2.db, id, e);
    assert [e][1..] == [];
    RecoveryEnds(y.(db := AfterReceipt(s, id, e), phase := Recovering([])));
  }

  lemma NotYetApplied(s: Store, tx: Hash)
    requires s.ledger.history == []
    ensures !AlreadyApplied(s, tx)
  {
  }

  lemma ConfirmsSame(s: Store, id: JobId, e: Event)
    requires e.tx == TX && s.jobs == map[id := Rebuilt(e)]
    ensures ConfirmRecovered(s, id, e) == s
  {
  }

  /** The gateway after its first pass: open, with the settlement of block 10 applied. */
  function Opened(): Store {
    AfterReceipt(Explored().db.(cursor := 12), 0, EVENT).(ready := true)
  }

  function FirstPass(): seq<Step> {
    FIRST_BLOCKS + FIRST_BOUNDARY + [StepEndEvents(12, [EVENT])]
      + [StepInsertRecovered(0), StepApply(0), StepConfirm, StepEndRecovery] + [StepReady]
  }

  lemma FirstEvents()
    ensures Run(Start(), FIRST_BLOCKS + FIRST_BOUNDARY + [StepEndEvents(12, [EVENT])])
      == Explored().(db := Explored().db.(cursor := 12), phase := Recovering([EVENT]))
  {
    FirstBoundary();
    var y := Explored();
    assert FinalEvent(y.db, TX);
    assert forall tx :: FinalEvent(y.db, tx) ==> tx == TX;
    EventsEnd(y, 12, [EVENT]);
    Run1(y, StepEndEvents(12, [EVENT]));
    Compose(Start(), FIRST_BLOCKS + FIRST_BOUNDARY, y, [StepEndEvents(12, [EVENT])],
            y.(db := y.db.(cursor := 12), phase := Recovering([EVENT])));
  }

  lemma FirstPassOpens()
    ensures Run(Start(), FirstPass()) == System(Opened(), Start().out, Idle)
  {
    FirstEvents();
    var y := Explored().(db := Explored().db.(cursor := 12), phase := Recovering([EVENT]));
    RecoversOne(y, 0, EVENT);
    var z := y.(db := AfterReceipt(y.db, 0, EVENT), phase := Reconciling);
    Opens(z);
    Run1(z, StepReady);
    Compose(Start(), FIRST_BLOCKS + FIRST_BOUNDARY + [StepEndEvents(12, [EVENT])], y,
            [StepInsertRecovered(0), StepApply(0), StepConfirm, StepEndRecovery], z);
    Compose(Start(), FIRST_BLOCKS + FIRST_BOUNDARY + [StepEndEvents(12, [EVENT])]
            + [StepInsertRecovered(0), StepApply(0), StepConfirm, StepEndRecovery], z,
            [StepReady], System(Opened(), Start().out, Idle));
  }

  // ---------- the head falls back: a confirmed job is reopened beside a live one ----------

  function BridgeInput(): Input {
    Input(0, None, None, Some(Checkpoint([], 8)), None, false)
  }

  /** A bridge job is admitted, holds the writer row, and is live. */
  function WithBridge(): Store {
    Opened().(jobs := Opened().jobs[1 := NewJob(Bridge, BridgeInput(), 0)],
              writer := Writer(Some(1), Some(BridgeJob(1)), 1, None, None, Some(1)))
  }

  lemma BridgeAdmitted()
    ensures CreateJob(Opened(), 1, Bridge, BridgeInput(), 1) == Success(WithBridge())
  {
    var s := Opened();
    assert Lock(s) == Success(s);
    var made := InsertJob(s, 1, Bridge, BridgeInput()).value;
    assert made.store == s.(jobs := s.jobs[1 := NewJob(Bridge, BridgeInput(), 0)]);
    assert NoLiveJobs(made.store.jobs, Some(1));
    assert HeadAction(SETTLED[OUTER], 8);
  }

  /** The rows once the head is two blocks lower and block 10 is no longer below the boundary. */
  const RECEDED: Rows := map[10 := Row(10, true, false), 11 := Row(11, true, false), 12 := Row(12, false, false)]

  lemma HistoryStays(id: JobId)
    ensures Ledger.Rollback(LedgerAfter(id, EVENT), 11) == LedgerAfter(id, EVENT)
  {
    Ledger.KeepAll(History(id, EVENT), 11);
  }

  const HALF: Rows := map[10 := Row(10, true, true), 11 := Row(11, true, false), 12 := Row(12, false, false)]

  lemma ActionsStay(s: Store)
    requires s.actions == Write(map[], Posted10(EVENT))
    ensures MarkRemoved(s.actions, 11) == s.actions
  {
    WriteFirstContents(map[], Posted10(EVENT), 1);
    forall k | k in s.actions
      ensures s.actions[k].block <= 11
    {
      assert KeyAt(Posted10(EVENT), 0) == k;
      assert s.actions[k] == Upserted(map[], Posted10(EVENT), 0);
    }
  }

  const BRIDGED: Jobs := map[0 := Rebuilt(EVENT), 1 := NewJob(Bridge, BridgeInput(), 0)]

  lemma BridgedStay(s: Store)
    requires s.jobs == BRIDGED
    ensures RetryChoice(s.jobs, 11, None) && RollbackJobs(s, 11, None) == s.jobs
  {
    assert s.jobs.Keys == {0, 1};
    assert RolledBack(s, 11, None, 0) == s.jobs[0] && RolledBack(s, 11, None, 1) == s.jobs[1];
    assert !Deleted(s, 11, 0) && !Deleted(s, 11, 1);
  }

  /** The store after a rollback to block 11 that changes no job. */
  lemma HeadFalls(s: Store)
    requires s.rows == ROWS && s.events == map[TX := EVENT] && s.cursor == 12 && s.ledger == LedgerAfter(0, EVENT)
    requires s.actions == Write(map[], Posted10(EVENT)) && s.pending == {} && s.jobs == BRIDGED
    ensures RetryChoice(s.jobs, 11, None)
    ensures RollbackAfter(s, 11, None) == s.(ready := false, rows := HALF, cursor := 11)
  {
    HistoryStays(0);
    ActionsStay(s);
    BridgedStay(s);
    assert RollbackBlocks(ROWS, 11) == HALF;
    assert RollbackEvents(map[TX := EVENT], 11) == map[TX := EVENT];
    assert RollbackPending(s, BRIDGED, None) == {};
  }

  function FallingSteps(): seq<Step> {
    [StepCreateJob(1, Bridge, BridgeInput(), 1), StepBeginTick, StepRollback(11, None)]
      + [StepFinalize(Some(9)), StepEndEvents(11, []), StepEndRecovery]
      + [StepReconcile(0, Mined(10, 10, true), false), StepReady]
  }

  /** A second pass whose head is block 11. */
  function Fallen(): System {
    System(WithBridge().(ready := false, rows := HALF, cursor := 11), Start().out, Indexing)
  }

  lemma BridgeStep()
    ensures Next(System(Opened(), Start().out, Idle), StepCreateJob(1, Bridge, BridgeInput(), 1))
      == System(WithBridge(), Start().out, Idle)
  {
    BridgeAdmitted();
  }

  lemma WithBridgeTables()
    ensures WithBridge().jobs == BRIDGED
    ensures RetryChoice(WithBridge().jobs, 11, None)
    ensures RollbackAfter(WithBridge(), 11, None) == WithBridge().(ready := false, rows := HALF, cursor := 11)
  {
    assert WithBridge().jobs == BRIDGED;
    HeadFalls(WithBridge());
  }

  lemma BridgeThenRollback()
    ensures Run(System(Opened(), Start().out, Idle),
                [StepCreateJob(1, Bridge, BridgeInput(), 1), StepBeginTick, StepRollback(11, None)]) == Fallen()
  {
    var y := System(Opened(), Start().out, Idle);
    Run3(y, StepCreateJob(1, Bridge, BridgeInput(), 1), StepBeginTick, StepRollback(11, None));
    BridgeStep();
    Begins(System(WithBridge(), Start().out, Idle));
    WithBridgeTables();
    RolledBackTo(System(WithBridge(), Start().out, Indexing), 11, None);
  }

  lemma NothingFinal(s: Store)
    requires s.rows == RECEDED
    ensures EventList(s, []) && Below(s.rows, 11)
  {
    assert forall tx :: !FinalEvent(s, tx);
  }

  lemma HalfRecedes()
    ensures Finalize(HALF, Some(9)) == RECEDED
  {
  }

  lemma BoundaryRecedes(y: System)
    requires y.phase.Indexing? && y.db.mode.Confirmations? && y.db.rows == HALF && y.db.cursor == 11
    ensures Run(y, [StepFinalize(Some(9)), StepEndEvents(11, []), StepEndRecovery])
      == y.(db := y.db.(rows := RECEDED), phase := Reconciling)
  {
    Run3(y, StepFinalize(Some(9)), StepEndEvents(11, []), StepEndRecovery);
    BoundarySet(y, 9);
    HalfRecedes();
    NothingFinalEnds(y.(db := y.db.(rows := RECEDED), phase := Exploring));
  }

  lemma NothingFinalEnds(y: System)
    requires y.phase.Exploring? && y.db.rows == RECEDED && y.db.cursor == 11
    ensures Next(Next(y, StepEndEvents(11, [])), StepEndRecovery) == y.(phase := Reconciling)
  {
    NothingFinal(y.db);
    EventsEnd(y, 11, []);
    RecoveryEnds(y.(phase := Recovering([])));
  }

  /** The job of block 10, polled because its threshold is reversible, is found short of confirmations. */
  function Reopened(): Store {
    Fallen().db.(rows := RECEDED).(jobs := BRIDGED[0 := Rebuilt(EVENT).(status := Submitted)])
  }

  lemma ShortOfConfirmations(s: Store)
    requires s.mode.Confirmations? && s.rows == RECEDED && s.events == map[TX := EVENT] && s.jobs == BRIDGED
    ensures ReceiptTruthful(s, 0, Mined(10, 10, true), false)
    ensures Reconcile(s, 0, Mined(10, 10, true), false) == s.(jobs := s.jobs[0 := Rebuilt(EVENT).(status := Submitted)])
  {
    assert s.jobs[0] == Rebuilt(EVENT) && s.events[TX] == EVENT;
  }

  lemma Reopening(y: System)
    requires y.phase.Reconciling? && y.db.mode.Confirmations? && y.db.rows == RECEDED
    requires y.db.events == map[TX := EVENT] && y.db.jobs == BRIDGED
    ensures Run(y, [StepReconcile(0, Mined(10, 10, true), false), StepReady])
      == y.(db := y.db.(jobs := BRIDGED[0 := Rebuilt(EVENT).(status := Submitted)], ready := true), phase := Idle)
  {
    Run2(y, StepReconcile(0, Mined(10, 10, true), false), StepReady);
    ShortOfConfirmations(y.db);
    Reconciled(y, 0, Mined(10, 10, true), false);
    Opens(y.(db := y.db.(jobs := BRIDGED[0 := Rebuilt(EVENT).(status := Submitted)])));
  }

  lemma FallenTables()
    ensures Fallen().db.jobs == BRIDGED && Fallen().db.events == map[TX := EVENT] && Fallen().db.mode.Confirmations?
  {
    WithBridgeTables();
  }

  lemma ReopensTheOld()
    ensures Run(System(Fallen().db.(rows := RECEDED), Start().out, Reconciling),
                [StepReconcile(0, Mined(10, 10, true), false), StepReady])
      == System(Reopened().(ready := true), Start().out, Idle)
  {
    FallenTables();
    Reopening(System(Fallen().db.(rows := RECEDED), Start().out, Reconciling));
  }

  /**
    A run from empty tables that ends open with two live jobs: a bridge job in
    the writer row, and a settlement that was confirmed until the head fell.
   */
  lemma TwoLiveByReconciling()
    ensures var db := Run(Start(), FirstPass() + FallingSteps()).db;
      db.ready && 0 in db.jobs && 1 in db.jobs && !Released(db.jobs[0]) && !Released(db.jobs[1]) && !OneLive(db.jobs)
  {
    FallingRun();
    ReopenedIsLive();
  }

  lemma FallingRun()
    ensures Run(Start(), FirstPass() + FallingSteps()) == System(Reopened().(ready := true), Start().out, Idle)
  {
    FirstPassOpens();
    FallingTail();
    Compose(Start(), FirstPass(), System(Opened(), Start().out, Idle), FallingSteps(),
            System(Reopened().(ready := true), Start().out, Idle));
  }

  lemma FallingTail()
    ensures Run(System(Opened(), Start().out, Idle), FallingSteps())
      == System(Reopened().(ready := true), Start().out, Idle)
  {
    var y := System(Opened(), Start().out, Idle);
    var first := [StepCreateJob(1, Bridge, BridgeInput(), 1), StepBeginTick, StepRollback(11, None)];
    var second := [StepFinalize(Some(9)), StepEndEvents(11, []), StepEndRecovery];
    var third := [StepReconcile(0, Mined(10, 10, true), false), StepReady];
    BridgeThenRollback();
    BoundaryRecedes(Fallen());
    ReopensTheOld();
    var mid := System(Fallen().db.(rows := RECEDED), Start().out, Reconciling);
    Compose(y, first, Fallen(), second, mid);
    Compose(y, first + second, mid, third, System(Reopened().(ready := true), Start().out, Idle));
  }

  lemma ReopenedIsLive()
    ensures var jobs := Reopened().jobs;
      0 in jobs && 1 in jobs && !Released(jobs[0]) && !Released(jobs[1]) && !OneLive(jobs)
  {
    var jobs := Reopened().jobs;
    assert 0 in jobs && 1 in jobs && !Released(jobs[0]) && !Released(jobs[1]);
  }
}
