/**
  A run with a threshold in which the gateway is opened over a signed job
  outside the writer row: a settlement whose finality receded, orphaned because
  a later one has to be retried.
 */
module OrphanedPredecessor {
  import opened Common
  import opened Chain
  import opened ActionLog
  import opened Gateway
  import opened Runs
  import opened Core
  import opened Threshold
  import opened OneWriter
  import Ledger

  // ---------- a settlement of our own is admitted ----------

  const CHECKPOINT := Checkpoint([5], 8)
  const TOKEN := Token(7, 1)
  const INPUT := Input(0, None, Some(TOKEN), Some(CHECKPOINT), None, false)
  const OWNER := "sequencer"
  const RESERVED := Writer(Some(7), Some(Client(OWNER)), 1, Some(120), Some(CHECKPOINT), None)
  const ATTACHED := Writer(Some(7), Some(Client(OWNER)), 1, None, Some(CHECKPOINT), Some(1))

  function Fresh(): Job {
    NewJob(Settlement, INPUT, 0)
  }

  /** What admission and the worker need to know of the tables. */
  predicate Recovered10(s: Store) {
    s.ready && s.now == 0 && s.outerKey == OUTER && s.ledger.accounts == SETTLED && s.keys == map[]
    && 0 in s.jobs && s.jobs[0] == Rebuilt(EVENT)
  }

  lemma Acquires(y: System)
    requires Recovered10(y.db) && y.db.jobs.Keys == {0} && y.db.writer == Writer(None, None, 0, None, None, None)
    ensures Next(y, StepAcquire(OWNER, None, CHECKPOINT, 7)) == y.(db := y.db.(writer := RESERVED))
  {
    var s := y.db;
    assert Lock(s) == Success(s);
    assert NoLiveJobs(s.jobs, None);
    assert AccountMatches(SETTLED[OUTER], CHECKPOINT);
    assert Acquire(s, OWNER, None, CHECKPOINT, 7) == Success(s.(writer := RESERVED));
  }

  lemma Creates(y: System)
    requires Recovered10(y.db) && y.db.jobs.Keys == {0} && y.db.writer == RESERVED
    ensures Next(y, StepCreateJob(1, Settlement, INPUT, 0))
      == y.(db := y.db.(jobs := y.db.jobs[1 := Fresh()], writer := ATTACHED))
  {
    var s := y.db;
    assert Lock(s) == Success(s);
    var made := InsertJob(s, 1, Settlement, INPUT).value;
    assert made.store == s.(jobs := s.jobs[1 := Fresh()]);
    assert NoLiveJobs(made.store.jobs, Some(1));
    assert AccountMatches(SETTLED[OUTER], CHECKPOINT);
    assert AttachSettlement(made.store, 1, INPUT) == Success(made.store.(writer := ATTACHED));
  }

  // ---------- and proved, signed and sent by the worker ----------

  /** Job 1 in some state, and what has crossed to the outside. */
  function At(y: System, j: Job, out: Outside): System {
    System(Put(y.db, 1, j), out, y.phase)
  }

  lemma AtTwice(y: System, j: Job, out: Outside, k: Job, later: Outside)
    ensures At(At(y, j, out), k, later) == At(y, k, later)
  {
    assert y.db.jobs[1 := j][1 := k] == y.db.jobs[1 := k];
  }

  predicate Working(y: System, j: Job) {
    Recovered10(y.db) && y.db.jobs.Keys == {0, 1} && y.db.jobs[1] == j && y.db.writer == ATTACHED
  }

  function Claimed(): Job {
    Fresh().(status := Validating, attempts := 1)
  }

  const O0 := Outside({}, {}, [], {}, {}, [])
  const O1 := O0.(claims := {ClaimOf(1, 1)})

  lemma Claims(y: System)
    requires Working(y, Fresh()) && y.out == O0
    ensures Next(y, StepClaim(1)) == At(y, Claimed(), O1)
  {
    assert Lock(y.db) == Success(y.db);
    assert Claimable(y.db, 1);
    assert O0.claims + {ClaimOf(1, 1)} == {ClaimOf(1, 1)};
  }

  function Checked(): Job {
    Claimed().(preflight := Some(0), values := Some(0))
  }

  lemma Both(y: System, a: Step, j: Job, out: Outside, b: Step, k: Job, later: Outside)
    requires Next(y, a) == At(y, j, out) && Next(At(y, j, out), b) == At(At(y, j, out), k, later)
    ensures Run(y, [a, b]) == At(y, k, later)
  {
    Run2(y, a, b);
    AtTwice(y, j, out, k, later);
  }

  function Digested(): Job {
    Claimed().(preflight := Some(0))
  }

  lemma Digests(y: System)
    requires Working(y, Claimed()) && y.out == O1
    ensures Next(y, StepSaveDigest(1, 1, 0)) == At(y, Digested(), O1)
  {
  }

  lemma Values(y: System)
    requires Working(y, Digested()) && y.out == O1
    ensures Next(y, StepSavePreflight(1, 1, 0)) == At(y, Checked(), O1)
  {
  }

  lemma Preflights(y: System)
    requires Working(y, Claimed()) && y.out == O1
    ensures Run(y, [StepSaveDigest(1, 1, 0), StepSavePreflight(1, 1, 0)]) == At(y, Checked(), O1)
  {
    Digests(y);
    WorkingAt(y, Claimed(), Digested(), O1);
    Values(At(y, Digested(), O1));
    Both(y, StepSaveDigest(1, 1, 0), Digested(), O1, StepSavePreflight(1, 1, 0), Checked(), O1);
  }

  function ProvingJob(): Job {
    Checked().(status := Proving)
  }

  function SealedJob(): Job {
    ProvingJob().(intent := Some(1))
  }

  const O2 := O1.(intents := {Call(1, 1)})
  const O3 := O1.(calls := [Call(1, 1)])
  const O4 := O3.(answers := {Answer(1, 9)})

  lemma StartsProving(y: System)
    requires Working(y, Checked()) && y.out == O1
    ensures Next(y, StepSetProving(1, 1)) == At(y, ProvingJob(), O1)
  {
  }

  lemma SealsIntent(y: System)
    requires Working(y, ProvingJob()) && y.out == O1
    ensures Next(y, StepBeginProof(1, 1, 1)) == At(y, SealedJob(), O2)
  {
    assert FreshIntent(O1, 1);
    assert O1.intents + {Call(1, 1)} == {Call(1, 1)};
  }

  lemma Seals(y: System)
    requires Working(y, Checked()) && y.out == O1
    ensures Run(y, [StepSetProving(1, 1), StepBeginProof(1, 1, 1)]) == At(y, SealedJob(), O2)
  {
    StartsProving(y);
    WorkingAt(y, Checked(), ProvingJob(), O1);
    SealsIntent(At(y, ProvingJob(), O1));
    Both(y, StepSetProving(1, 1), ProvingJob(), O1, StepBeginProof(1, 1, 1), SealedJob(), O2);
  }

  lemma SameRow(y: System, j: Job, out: Outside)
    requires Working(y, j)
    ensures y.(out := out) == At(y, j, out)
  {
    assert y.db.jobs == y.db.jobs[1 := j];
  }

  lemma CallsProver(y: System)
    requires Working(y, SealedJob()) && y.out == O2
    ensures Next(y, StepCallProver(1, 1)) == At(y, SealedJob(), O3)
  {
    var none: set<Call> := {};
    assert O2.intents - {Call(1, 1)} == none;
    assert O2.calls + [Call(1, 1)] == [Call(1, 1)];
    SameRow(y, SealedJob(), O3);
  }

  lemma HearsProver(y: System)
    requires Working(y, SealedJob()) && y.out == O3
    ensures Next(y, StepProverAnswers(1, 1, 9)) == At(y, SealedJob(), O4)
  {
    assert O3.answers + {Answer(1, 9)} == {Answer(1, 9)};
    SameRow(y, SealedJob(), O4);
  }

  lemma Calls(y: System)
    requires Working(y, SealedJob()) && y.out == O2
    ensures Run(y, [StepCallProver(1, 1), StepProverAnswers(1, 1, 9)]) == At(y, SealedJob(), O4)
  {
    CallsProver(y);
    WorkingAt(y, SealedJob(), SealedJob(), O3);
    HearsProver(At(y, SealedJob(), O3));
    Both(y, StepCallProver(1, 1), SealedJob(), O3, StepProverAnswers(1, 1, 9), SealedJob(), O4);
  }

  function RequestedJob(): Job {
    SealedJob().(request := Some(9), status := ProofRequested)
  }

  function Proved(): Job {
    RequestedJob().(proof := Some(3))
  }

  lemma StoresRequest(y: System)
    requires Working(y, SealedJob()) && y.out == O4
    ensures Next(y, StepFinishProof(1, 1, 9)) == At(y, RequestedJob(), O4)
  {
  }

  lemma StoresProof(y: System)
    requires Working(y, RequestedJob()) && y.out == O4
    ensures Next(y, StepSaveProof(1, 1, 3, 0)) == At(y, Proved(), O4)
  {
  }

  lemma Proves(y: System)
    requires Working(y, SealedJob()) && y.out == O4
    ensures Run(y, [StepFinishProof(1, 1, 9), StepSaveProof(1, 1, 3, 0)]) == At(y, Proved(), O4)
  {
    StoresRequest(y);
    WorkingAt(y, SealedJob(), RequestedJob(), O4);
    StoresProof(At(y, RequestedJob(), O4));
    Both(y, StepFinishProof(1, 1, 9), RequestedJob(), O4, StepSaveProof(1, 1, 3, 0), Proved(), O4);
  }

  const SIGNED := Prepared(2, 4)

  function SendingJob(): Job {
    Proved().(status := Submitting)
  }

  function SignedJob(): Job {
    SendingJob().(prepared := Some(SIGNED), txHash := Some(2))
  }

  const O5 := O4.(holding := {Holding(1, SIGNED)})
  const O6 := O5.(broadcasts := [Sent(1, 4)])

  lemma StartsSending(y: System)
    requires Working(y, Proved()) && y.out == O4
    ensures Next(y, StepBeginSend(1, 1, 3, 0)) == At(y, SendingJob(), O4)
  {
  }

  lemma StoresSigned(y: System)
    requires Working(y, SendingJob()) && y.out == O4
    ensures Next(y, StepPersist(1, 1, SIGNED)) == At(y, SignedJob(), O5)
  {
    assert FreshSignature(y.db.jobs, 1, SIGNED);
    assert O4.holding + {Holding(1, SIGNED)} == {Holding(1, SIGNED)};
  }

  lemma Signs(y: System)
    requires Working(y, Proved()) && y.out == O4
    ensures Run(y, [StepBeginSend(1, 1, 3, 0), StepPersist(1, 1, SIGNED)]) == At(y, SignedJob(), O5)
  {
    StartsSending(y);
    WorkingAt(y, Proved(), SendingJob(), O4);
    StoresSigned(At(y, SendingJob(), O4));
    Both(y, StepBeginSend(1, 1, 3, 0), SendingJob(), O4, StepPersist(1, 1, SIGNED), SignedJob(), O5);
  }

  function SentJob(): Job {
    SignedJob().(status := Submitted)
  }

  lemma BroadcastsIt(y: System)
    requires Working(y, SignedJob()) && y.out == O5
    ensures Next(y, StepBroadcast(1, SIGNED)) == At(y, SignedJob(), O6)
  {
    assert O5.broadcasts + [Sent(1, 4)] == [Sent(1, 4)];
    SameRow(y, SignedJob(), O6);
  }

  lemma MarksIt(y: System)
    requires Working(y, SignedJob()) && y.out == O6
    ensures Next(y, StepMarkSubmitted(1, 1)) == At(y, SentJob(), O6)
  {
    assert Holding(1, SIGNED) in O6.holding;
  }

  lemma Sends(y: System)
    requires Working(y, SignedJob()) && y.out == O5
    ensures Run(y, [StepBroadcast(1, SIGNED), StepMarkSubmitted(1, 1)]) == At(y, SentJob(), O6)
  {
    BroadcastsIt(y);
    WorkingAt(y, SignedJob(), SignedJob(), O6);
    MarksIt(At(y, SignedJob(), O6));
    Both(y, StepBroadcast(1, SIGNED), SignedJob(), O6, StepMarkSubmitted(1, 1), SentJob(), O6);
  }

  lemma WorkingAt(y: System, j: Job, k: Job, out: Outside)
    requires Working(y, j)
    ensures Working(At(y, k, out), k)
  {
    assert y.db.jobs[1 := k].Keys == {0, 1};
  }

  const WORK1 := [StepClaim(1)] + [StepSaveDigest(1, 1, 0), StepSavePreflight(1, 1, 0)]
    + [StepSetProving(1, 1), StepBeginProof(1, 1, 1)]
  const WORK2 := [StepCallProver(1, 1), StepProverAnswers(1, 1, 9)]
    + [StepFinishProof(1, 1, 9), StepSaveProof(1, 1, 3, 0)]
  const WORK3 := [StepBeginSend(1, 1, 3, 0), StepPersist(1, 1, SIGNED)]
    + [StepBroadcast(1, SIGNED), StepMarkSubmitted(1, 1)]

  lemma WorksUntilSealed(y: System)
    requires Working(y, Fresh()) && y.out == O0
    ensures Run(y, WORK1) == At(y, SealedJob(), O2)
  {
    var y1, y2 := At(y, Claimed(), O1), At(y, Checked(), O1);
    Run1(y, StepClaim(1));
    Claims(y);
    WorkingAt(y, Fresh(), Claimed(), O1);
    Preflights(y1);
    AtTwice(y, Claimed(), O1, Checked(), O1);
    Compose(y, [StepClaim(1)], y1, [StepSaveDigest(1, 1, 0), StepSavePreflight(1, 1, 0)], y2);
    WorkingAt(y, Fresh(), Checked(), O1);
    Seals(y2);
    AtTwice(y, Checked(), O1, SealedJob(), O2);
    Compose(y, [StepClaim(1)] + [StepSaveDigest(1, 1, 0), StepSavePreflight(1, 1, 0)], y2,
            [StepSetProving(1, 1), StepBeginProof(1, 1, 1)], At(y, SealedJob(), O2));
  }

  lemma WorksUntilProved(y: System)
    requires Working(y, SealedJob()) && y.out == O2
    ensures Run(y, WORK2) == At(y, Proved(), O4)
  {
    var y1 := At(y, SealedJob(), O4);
    Calls(y);
    WorkingAt(y, SealedJob(), SealedJob(), O4);
    Proves(y1);
    AtTwice(y, SealedJob(), O4, Proved(), O4);
    Compose(y, [StepCallProver(1, 1), StepProverAnswers(1, 1, 9)], y1,
            [StepFinishProof(1, 1, 9), StepSaveProof(1, 1, 3, 0)], At(y, Proved(), O4));
  }

  lemma WorksUntilSent(y: System)
    requires Working(y, Proved()) && y.out == O4
    ensures Run(y, WORK3) == At(y, SentJob(), O6)
  {
    var y1 := At(y, SignedJob(), O5);
    Signs(y);
    WorkingAt(y, Proved(), SignedJob(), O5);
    Sends(y1);
    AtTwice(y, SignedJob(), O5, SentJob(), O6);
    Compose(y, [StepBeginSend(1, 1, 3, 0), StepPersist(1, 1, SIGNED)], y1,
            [StepBroadcast(1, SIGNED), StepMarkSubmitted(1, 1)], At(y, SentJob(), O6));
  }

  lemma Works(y: System)
    requires Working(y, Fresh()) && y.out == O0
    ensures Run(y, WORK1 + WORK2 + WORK3) == At(y, SentJob(), O6)
  {
    var y1, y2 := At(y, SealedJob(), O2), At(y, Proved(), O4);
    WorksUntilSealed(y);
    WorkingAt(y, Fresh(), SealedJob(), O2);
    WorksUntilProved(y1);
    AtTwice(y, SealedJob(), O2, Proved(), O4);
    Compose(y, WORK1, y1, WORK2, y2);
    WorkingAt(y, Fresh(), Proved(), O4);
    WorksUntilSent(y2);
    AtTwice(y, Proved(), O4, SentJob(), O6);
    Compose(y, WORK1 + WORK2, y2, WORK3, At(y, SentJob(), O6));
  }

  // ---------- it is mined in block 13, not final yet ----------

  /** The chain tables after the first pass. */
  predicate Indexed12(s: Store) {
    s.mode.Confirmations? && s.rows == ROWS && s.events == map[TX := EVENT] && s.cursor == 12
    && s.ledger == LedgerAfter(0, EVENT) && s.actions == Write(map[], Posted10(EVENT)) && s.pending == {}
  }

  const ROWS13: Rows := map[
    10 := Row(10, true, true), 11 := Row(11, true, true), 12 := Row(12, true, false), 13 := Row(13, true, false)]

  lemma Rows13()
    ensures Below(ROWS, 12) && Finalize(InsertBlock(ROWS, BlockAt(13, 13)), Some(11)) == ROWS13
  {
  }

  lemma SecondPassIndexes(y: System)
    requires Indexed12(y.db) && y.phase.Idle?
    ensures Run(y, [StepBeginTick, StepIndexRow(BlockAt(13, 13)), StepFinalize(Some(11))])
      == y.(db := y.db.(rows := ROWS13), phase := Exploring)
  {
    Run3(y, StepBeginTick, StepIndexRow(BlockAt(13, 13)), StepFinalize(Some(11)));
    Begins(y);
    Rows13();
    RowIndexed(y.(phase := Indexing), BlockAt(13, 13));
    BoundarySet(y.(db := y.db.(rows := InsertBlock(ROWS, BlockAt(13, 13))), phase := Indexing), 11);
  }

  predicate Applied10(s: Store) {
    s.rows == ROWS13 && s.events == map[TX := EVENT] && s.ledger == LedgerAfter(0, EVENT)
    && 0 in s.jobs && s.jobs[0] == Rebuilt(EVENT)
  }

  lemma OnlyFirstFinal(s: Store)
    requires Applied10(s)
    ensures EventList(s, [EVENT]) && Below(s.rows, 13) && AlreadyApplied(s, TX)
  {
    assert FinalEvent(s, TX);
    assert forall tx :: FinalEvent(s, tx) ==> tx == TX;
    assert s.ledger.history[0].job == 0;
    assert Ledger.Recorded(s.ledger.history, 0);
  }

  lemma Skips(y: System, e: Event)
    requires y.phase == Recovering([e]) && AlreadyApplied(y.db, e.tx)
    ensures Next(Next(y, StepSkip), StepEndRecovery) == y.(phase := Reconciling)
  {
    assert [e][1..] == [];
    RecoveryEnds(y.(phase := Recovering([])));
  }

  lemma SecondPassRecovers(y: System)
    requires Applied10(y.db) && y.db.cursor == 12 && y.phase.Exploring?
    ensures Run(y, [StepEndEvents(13, [EVENT]), StepSkip, StepEndRecovery])
      == y.(db := y.db.(cursor := 13), phase := Reconciling)
  {
    Run3(y, StepEndEvents(13, [EVENT]), StepSkip, StepEndRecovery);
    OnlyFirstFinal(y.db);
    EventsEnd(y, 13, [EVENT]);
    var z := y.(db := y.db.(cursor := 13), phase := Recovering([EVENT]));
    OnlyFirstFinal(z.db);
    Skips(z, EVENT);
  }

  function MinedJob(): Job {
    SentJob().(block := Some(Inclusion(13, 13)))
  }

  lemma MinedTruthful(s: Store)
    requires Applied10(s) && s.mode.Confirmations? && 1 in s.jobs && s.jobs[1] == SentJob()
    ensures ReceiptTruthful(s, 1, Mined(13, 13, true), false)
    ensures Reconcile(s, 1, Mined(13, 13, true), false) == Put(s, 1, MinedJob())
  {
  }

  lemma SecondPassReconciles(y: System)
    requires Applied10(y.db) && y.db.mode.Confirmations? && 1 in y.db.jobs && y.db.jobs[1] == SentJob()
    requires y.phase.Reconciling?
    ensures Run(y, [StepReconcile(1, Mined(13, 13, true), false), StepReady])
      == System(Put(y.db, 1, MinedJob()).(ready := true), y.out, Idle)
  {
    Run2(y, StepReconcile(1, Mined(13, 13, true), false), StepReady);
    MinedTruthful(y.db);
    Reconciled(y, 1, Mined(13, 13, true), false);
    Opens(y.(db := Put(y.db, 1, MinedJob())));
  }

  const PASS2 := [StepBeginTick, StepIndexRow(BlockAt(13, 13)), StepFinalize(Some(11))]
    + [StepEndEvents(13, [EVENT]), StepSkip, StepEndRecovery]
    + [StepReconcile(1, Mined(13, 13, true), false), StepReady]

  lemma SecondPass(y: System)
    requires Working(y, SentJob()) && Indexed12(y.db) && y.phase.Idle?
    ensures Run(y, PASS2) == y.(db := Put(y.db, 1, MinedJob()).(rows := ROWS13, cursor := 13))
  {
    var a := [StepBeginTick, StepIndexRow(BlockAt(13, 13)), StepFinalize(Some(11))];
    var b := [StepEndEvents(13, [EVENT]), StepSkip, StepEndRecovery];
    var y1 := y.(db := y.db.(rows := ROWS13), phase := Exploring);
    var y2 := y.(db := y.db.(rows := ROWS13, cursor := 13), phase := Reconciling);
    SecondPassIndexes(y);
    SecondPassRecovers(y1);
    Compose(y, a, y1, b, y2);
    SecondPassReconciles(y2);
    Compose(y, a + b, y2, [StepReconcile(1, Mined(13, 13, true), false), StepReady],
            y.(db := Put(y.db, 1, MinedJob()).(rows := ROWS13, cursor := 13)));
  }

  // ---------- the head falls back to block 11 ----------

  function RetriedJob(): Job {
    SentJob().(status := Queued, txHash := None, block := None)
  }

  const ROWS11: Rows := map[
    10 := Row(10, true, true), 11 := Row(11, true, true), 12 := Row(12, false, false), 13 := Row(13, false, false)]

  const BEFORE: Jobs := map[0 := Rebuilt(EVENT), 1 := MinedJob()]
  const AFTER: Jobs := map[0 := Rebuilt(EVENT).(status := Reorged), 1 := RetriedJob()]

  lemma EarliestIsMined(jobs: Jobs)
    requires jobs == BEFORE
    ensures RetryChoice(jobs, 11, Some(1))
  {
    assert jobs.Keys == {0, 1};
  }

  lemma JobsFall(s: Store)
    requires s.jobs == BEFORE
    ensures RollbackJobs(s, 11, Some(1)) == AFTER
  {
    assert s.jobs.Keys == {0, 1};
    assert RolledBack(s, 11, Some(1), 0) == AFTER[0] && RolledBack(s, 11, Some(1), 1) == AFTER[1];
    assert !Deleted(s, 11, 0) && !Deleted(s, 11, 1);
  }

  lemma ChainFalls(s: Store)
    requires s.rows == ROWS13 && s.events == map[TX := EVENT] && s.cursor == 13 && s.ledger == LedgerAfter(0, EVENT)
    requires s.actions == Write(map[], Posted10(EVENT)) && s.pending == {} && s.jobs == BEFORE
    ensures RollbackAfter(s, 11, Some(1)) == s.(ready := false, jobs := AFTER, rows := ROWS11, cursor := 11)
  {
    HistoryStays(0);
    ActionsStay(s);
    JobsFall(s);
    assert RollbackBlocks(ROWS13, 11) == ROWS11;
    assert RollbackEvents(map[TX := EVENT], 11) == map[TX := EVENT];
    assert RollbackPending(s, AFTER, Some(1)) == {};
  }

  const UNFINAL: Rows := map[
    10 := Row(10, true, false), 11 := Row(11, true, false), 12 := Row(12, false, false), 13 := Row(13, false, false)]

  lemma ThirdPassFalls(y: System)
    requires y.phase.Idle? && y.db.mode.Confirmations? && y.db.jobs == BEFORE && y.db.rows == ROWS13
    requires y.db.events == map[TX := EVENT] && y.db.cursor == 13 && y.db.ledger == LedgerAfter(0, EVENT)
    requires y.db.actions == Write(map[], Posted10(EVENT)) && y.db.pending == {}
    ensures Run(y, [StepBeginTick, StepRollback(11, Some(1))])
      == y.(db := y.db.(ready := false, jobs := AFTER, rows := ROWS11, cursor := 11), phase := Indexing)
  {
    Run2(y, StepBeginTick, StepRollback(11, Some(1)));
    Begins(y);
    EarliestIsMined(y.db.jobs);
    ChainFalls(y.db);
    RolledBackTo(y.(phase := Indexing), 11, Some(1));
  }

  lemma NoneFinal(s: Store)
    requires s.rows == UNFINAL
    ensures EventList(s, []) && Below(s.rows, 11)
  {
    assert forall tx :: !FinalEvent(s, tx);
  }

  lemma Unfinals()
    ensures Finalize(ROWS11, Some(9)) == UNFINAL
  {
  }

  lemma ThirdPassOpens(y: System)
    requires y.phase.Indexing? && y.db.mode.Confirmations? && y.db.rows == ROWS11 && y.db.cursor == 11
    ensures Run(y, [StepFinalize(Some(9)), StepEndEvents(11, []), StepEndRecovery, StepReady])
      == y.(db := y.db.(rows := UNFINAL, ready := true), phase := Idle)
  {
    Run4(y, StepFinalize(Some(9)), StepEndEvents(11, []), StepEndRecovery, StepReady);
    BoundarySet(y, 9);
    Unfinals();
    var z := y.(db := y.db.(rows := UNFINAL), phase := Exploring);
    NoneFinal(z.db);
    EventsEnd(z, 11, []);
    RecoveryEnds(z.(phase := Recovering([])));
    Opens(z.(phase := Reconciling));
  }

  const PASS3 := [StepBeginTick, StepRollback(11, Some(1))]
    + [StepFinalize(Some(9)), StepEndEvents(11, []), StepEndRecovery, StepReady]

  lemma ThirdPass(y: System)
    requires y.phase.Idle? && y.db.ready && y.db.mode.Confirmations? && y.db.jobs == BEFORE && y.db.rows == ROWS13
    requires y.db.events == map[TX := EVENT] && y.db.cursor == 13 && y.db.ledger == LedgerAfter(0, EVENT)
    requires y.db.actions == Write(map[], Posted10(EVENT)) && y.db.pending == {}
    ensures Run(y, PASS3) == y.(db := y.db.(jobs := AFTER, rows := UNFINAL, cursor := 11))
  {
    ThirdPassFalls(y);
    var z := y.(db := y.db.(ready := false, jobs := AFTER, rows := ROWS11, cursor := 11), phase := Indexing);
    ThirdPassOpens(z);
    Compose(y, [StepBeginTick, StepRollback(11, Some(1))], z,
            [StepFinalize(Some(9)), StepEndEvents(11, []), StepEndRecovery, StepReady],
            y.(db := y.db.(jobs := AFTER, rows := UNFINAL, cursor := 11)));
  }

  // ---------- the whole run ----------

  const ADMISSION := [StepAcquire(OWNER, None, CHECKPOINT, 7), StepCreateJob(1, Settlement, INPUT, 0)]

  lemma OpenedTables()
    ensures Recovered10(Opened()) && Opened().jobs.Keys == {0} && Indexed12(Opened())
    ensures Opened().writer == Writer(None, None, 0, None, None, None)
  {
  }

  function Admitted(): Store {
    Opened().(jobs := Opened().jobs[1 := Fresh()], writer := ATTACHED)
  }

  lemma Admits()
    ensures Run(System(Opened(), O0, Idle), ADMISSION) == System(Admitted(), O0, Idle)
    ensures Working(System(Admitted(), O0, Idle), Fresh()) && Indexed12(Admitted())
  {
    var y := System(Opened(), O0, Idle);
    OpenedTables();
    Run2(y, ADMISSION[0], ADMISSION[1]);
    Acquires(y);
    Creates(y.(db := y.db.(writer := RESERVED)));
  }

  lemma AtKeepsChain(y: System, j: Job, out: Outside)
    requires Indexed12(y.db)
    ensures Indexed12(At(y, j, out).db)
  {
  }

  function Submitted13(): System {
    At(System(Admitted(), O0, Idle), SentJob(), O6)
  }

  lemma Submits13()
    ensures Run(System(Opened(), O0, Idle), ADMISSION + (WORK1 + WORK2 + WORK3)) == Submitted13()
    ensures Working(Submitted13(), SentJob()) && Indexed12(Submitted13().db) && Submitted13().phase.Idle?
  {
    var y, z := System(Opened(), O0, Idle), System(Admitted(), O0, Idle);
    Admits();
    Works(z);
    Compose(y, ADMISSION, z, WORK1 + WORK2 + WORK3, Submitted13());
    WorkingAt(z, Fresh(), SentJob(), O6);
    AtKeepsChain(z, SentJob(), O6);
  }

  lemma MinedTables(y: System)
    requires Working(y, SentJob()) && Indexed12(y.db)
    ensures var s := Put(y.db, 1, MinedJob()).(rows := ROWS13, cursor := 13);
      s.jobs == BEFORE && s.events == map[TX := EVENT] && s.ledger == LedgerAfter(0, EVENT) && s.ready
      && s.actions == Write(map[], Posted10(EVENT)) && s.pending == {} && s.mode.Confirmations?
  {
    assert y.db.jobs[1 := MinedJob()].Keys == {0, 1};
  }

  lemma Falls(y: System)
    requires Working(y, SentJob()) && Indexed12(y.db) && y.phase.Idle?
    ensures var z := Run(y, PASS2 + PASS3);
      z.db.ready && z.db.jobs == AFTER && z.db.writer == ATTACHED
  {
    SecondPass(y);
    MinedTables(y);
    var z := y.(db := Put(y.db, 1, MinedJob()).(rows := ROWS13, cursor := 13));
    ThirdPass(z);
    Compose(y, PASS2, z, PASS3, z.(db := z.db.(jobs := AFTER, rows := UNFINAL, cursor := 11)));
  }

  function OrphaningSteps(): seq<Step> {
    FirstPass() + ((ADMISSION + (WORK1 + WORK2 + WORK3)) + (PASS2 + PASS3))
  }

  lemma OrphaningRun()
    ensures var db := Run(Start(), OrphaningSteps()).db;
      db.ready && db.jobs == AFTER && db.writer == ATTACHED
  {
    FirstPassOpens();
    Submits13();
    Falls(Submitted13());
    var y := System(Opened(), O0, Idle);
    var steps := ADMISSION + (WORK1 + WORK2 + WORK3);
    Compose(y, steps, Submitted13(), PASS2 + PASS3, Run(Submitted13(), PASS2 + PASS3));
    Compose(Start(), FirstPass(), y, steps + (PASS2 + PASS3), Run(Submitted13(), PASS2 + PASS3));
  }

  /**
    A run from empty tables, with no reconciliation after the reorganization,
    that ends open with two live jobs: the retried settlement in the writer row,
    and outside it the signed one it orphaned.
   */
  lemma TwoLiveByOpening()
    ensures var db := Run(Start(), OrphaningSteps()).db;
      db.ready && Stray(db, 0) && db.writer.job == Some(1) && 1 in db.jobs && !Released(db.jobs[1]) && !OneLive(db.jobs)
  {
    OrphaningRun();
    AfterIsLive(Run(Start(), OrphaningSteps()).db);
  }

  lemma AfterIsLive(s: Store)
    requires s.jobs == AFTER && s.writer == ATTACHED
    ensures Stray(s, 0) && 1 in s.jobs && !Released(s.jobs[1]) && !OneLive(s.jobs)
  {
    assert 0 in s.jobs && 1 in s.jobs && !Released(s.jobs[0]) && !Released(s.jobs[1]);
  }
}
