/**
  A run in which a confirmed job's command stays in the pool: a client repeats
  its request after recovery has applied the receipt, which takes the command
  out of the pool, and before recovery has confirmed the job.
 */
module ReplayedCommand {
  import opened Common
  import opened Chain
  import opened ActionLog
  import opened Gateway
  import opened Runs
  import opened Core
  import LifeCycle
  import Pool
  import Reachability
  import Reservations
  import Threshold
  import Ledger

  const OUTER: Key := 1
  const FEE: Key := 2
  const ACCOUNTS: Ledger.Accounts :=
    map[OUTER := Ledger.Account([], Some([7]), false, None), FEE := Ledger.Account([], None, false, Some(0))]
  const CHECKPOINT := Checkpoint([], 7)
  const KEY: Hash := 9
  const INPUT := Input(3, Some(KEY), Some(Token(5, 1)), Some(CHECKPOINT), Some(Submission(OUTER, FEE, 0)), false)
  const SIGNED := Prepared(8, 8)
  const EVENT := Event(Settlement, 8, 10, 110, 0, SettlementReceipt([4], 7, 6, 1), false)

  function Start(): System {
    Initial(Finalized, OUTER, FEE, ACCOUNTS)
  }

  /** The gateway after a first pass over an empty chain. */
  function Opened(): System {
    Start().(db := Start().db.(ready := true, cursor := 0))
  }

  // ---------- admission and the worker ----------

  const ACQUIRE := StepAcquire("client", None, CHECKPOINT, 5)
  const ATTACHED := Writer(Some(5), Some(Client("client")), 1, None, Some(CHECKPOINT), Some(0))

  function Reserved(): System {
    Opened().(db := Opened().db.(writer := ATTACHED.(expires := Some(120), job := None)))
  }

  lemma Reserves()
    ensures Next(Opened(), ACQUIRE) == Reserved()
  {
    Reservations.AcquireIff(Opened().db, "client", None, CHECKPOINT, 5);
  }

  /** The tables while job 0 is in some state. */
  function With(j: Job, pending: set<JobId>): Store {
    Opened().db.(writer := ATTACHED, jobs := map[0 := j], keys := map[KEY := 0], pending := pending)
  }

  function Queued(): Job {
    NewJob(Settlement, INPUT, 0)
  }

  lemma Admits(s: Store)
    requires s == Reserved().db
    ensures SendZkapp(s, 0, INPUT) == Success(With(Queued(), {0}))
  {
    Reservations.CommandAdmittedIff(s, 0, INPUT);
    var t := SendZkapp(s, 0, INPUT).value;
    assert t.jobs == map[0 := t.jobs[0]] && t.jobs[0] == Queued();
    assert t.pending == {0} && t.keys == map[KEY := 0];
  }

  lemma SendNext(y: System, t: Store)
    requires SendZkapp(y.db, 0, INPUT) == Success(t)
    ensures Next(y, StepSendZkapp(0, INPUT)) == y.(db := t)
  {
  }

  lemma Sends()
    ensures Next(Reserved(), StepSendZkapp(0, INPUT)) == Reserved().(db := With(Queued(), {0}))
  {
    Admits(Reserved().db);
    SendNext(Reserved(), With(Queued(), {0}));
  }

  const CLAIMED := Outside({ClaimOf(0, 1)}, {}, [], {}, {}, [])
  const HELD := CLAIMED.(holding := {Holding(0, SIGNED)})

  function Validated(): Job {
    Queued().(status := Validating, attempts := 1)
  }

  function Sending(): Job {
    Validated().(values := Some(0), proof := Some(0), status := Submitting)
  }

  function Signed(): Job {
    Sending().(prepared := Some(SIGNED), txHash := Some(8))
  }

  lemma ClaimsJob(s: Store)
    requires s == With(Queued(), {0})
    ensures Claim(s, 0) == With(Validated(), {0})
  {
    LifeCycle.ClaimIff(s, 0);
  }

  lemma Claims(y: System)
    requires y.db == With(Queued(), {0}) && y.out == Start().out
    ensures Next(y, StepClaim(0)) == y.(db := With(Validated(), {0}), out := CLAIMED)
  {
    ClaimsJob(y.db);
    assert y.out.claims + {ClaimOf(0, 1)} == {ClaimOf(0, 1)};
  }

  lemma BeginsSend(y: System)
    requires y.db == With(Validated(), {0}) && y.out == CLAIMED
    ensures Next(y, StepBeginSend(0, 1, 0, 0)) == y.(db := With(Sending(), {0}))
  {
    LifeCycle.ProofUpdates(y.db, 0, 1, 0, 0);
  }

  lemma Signs(y: System)
    requires y.db == With(Sending(), {0}) && y.out == CLAIMED
    ensures Next(y, StepPersist(0, 1, SIGNED)) == y.(db := With(Signed(), {0}), out := HELD)
  {
    LifeCycle.SendingUpdates(y.db, 0, 1, SIGNED);
    assert CLAIMED.holding + {Holding(0, SIGNED)} == {Holding(0, SIGNED)};
  }

  function WorkSteps(): seq<Step> {
    [ACQUIRE, StepSendZkapp(0, INPUT), StepClaim(0)] + [StepBeginSend(0, 1, 0, 0), StepPersist(0, 1, SIGNED)]
  }

  function Worked(): System {
    System(With(Signed(), {0}), HELD, Idle)
  }

  lemma Works()
    ensures Run(Opened(), WorkSteps()) == Worked()
  {
    Reserves();
    Sends();
    var y := Reserved().(db := With(Queued(), {0}));
    Claims(y);
    var z := y.(db := With(Validated(), {0}), out := CLAIMED);
    Threshold.Run3(Opened(), ACQUIRE, StepSendZkapp(0, INPUT), StepClaim(0));
    BeginsSend(z);
    Signs(z.(db := With(Sending(), {0})));
    Threshold.Run2(z, StepBeginSend(0, 1, 0, 0), StepPersist(0, 1, SIGNED));
    Threshold.Compose(Opened(), [ACQUIRE, StepSendZkapp(0, INPUT), StepClaim(0)], z,
                      [StepBeginSend(0, 1, 0, 0), StepPersist(0, 1, SIGNED)], Worked());
  }

  // ---------- the second pass, up to the application ----------

  const ROWS: Rows := map[10 := BlockRow(110, 109, true, true)]

  function Indexed(): System {
    Worked().(db := Worked().db.(rows := ROWS), phase := Exploring)
  }

  lemma Indexes()
    ensures Run(Worked(), [StepBeginTick, StepIndexRow(Block(10, 110, 109)), StepFinalize(Some(10))]) == Indexed()
  {
    var y := Worked();
    Threshold.Run3(y, StepBeginTick, StepIndexRow(Block(10, 110, 109)), StepFinalize(Some(10)));
    var a := y.(phase := Indexing);
    assert Next(y, StepBeginTick) == a;
    var b := a.(db := y.db.(rows := map[10 := BlockRow(110, 109, true, false)]));
    assert InsertBlock(map[], Block(10, 110, 109)) == b.db.rows;
    assert Next(a, StepIndexRow(Block(10, 110, 109))) == b;
    assert Finalize(b.db.rows, Some(10)) == ROWS;
    assert Next(b, StepFinalize(Some(10))) == Indexed();
  }

  /** The tables when recovery begins. */
  function Listed(): Store {
    Indexed().db.(events := map[8 := EVENT], cursor := 10)
  }

  lemma ListsEvent(s: Store)
    requires s.events == map[8 := EVENT] && s.rows == ROWS
    ensures FinalEvent(s, 8) && EventList(s, [EVENT])
  {
    assert forall tx :: FinalEvent(s, tx) ==> tx == 8;
    assert [EVENT][0] in [EVENT];
  }

  lemma Lists()
    ensures Run(Indexed(), [StepIndexEvent(EVENT), StepEndEvents(10, [EVENT])])
      == System(Listed(), HELD, Recovering([EVENT]))
  {
    var y := Indexed();
    Threshold.Run2(y, StepIndexEvent(EVENT), StepEndEvents(10, [EVENT]));
    var a := y.(db := y.db.(events := map[8 := EVENT]));
    assert y.db.events[8 := EVENT] == map[8 := EVENT];
    assert Next(y, StepIndexEvent(EVENT)) == a;
    ListsEvent(a.db);
    assert Next(a, StepEndEvents(10, [EVENT])) == System(Listed(), HELD, Recovering([EVENT]));
  }

  /** After the application the command is out of the pool, and the job is as it was. */
  lemma Applies(y: System)
    requires y == System(Listed(), HELD, Recovering([EVENT]))
    ensures var z := Next(y, StepApply(0));
      && z.phase == Applied([EVENT], 0) && z.db.jobs == y.db.jobs && z.db.keys == y.db.keys && z.db.ready
      && z.db.writer == y.db.writer && 0 !in z.db.pending
  {
    var s := y.db;
    assert s.jobs[0] == Signed() && CarriesHash(s.jobs[0], 8);
    assert OwnerChoice(s.jobs, 8, Some(0));
    assert !AlreadyApplied(s, 8);
    var app := ApplicationFor(s, 0, 10, 110, EVENT.receipt);
    assert app.effect == Ledger.SettlementEffect(OUTER, FEE, 0, [4], 7, 6);
    Ledger.SettlementAcceptedIff(s.ledger, app);
    assert ApplyReceipt(s, 0, 8, 10, 110, EVENT.receipt).Success?;
  }

  // ---------- the request is repeated, and the job confirmed ----------

  lemma Repeats(y: System)
    requires y.phase == Applied([EVENT], 0) && y.db.jobs == map[0 := Signed()] && y.db.keys == map[KEY := 0]
    requires y.db.ready && y.db.writer == ATTACHED
    ensures Next(y, StepSendZkapp(1, INPUT)) == y.(db := y.db.(pending := y.db.pending + {0}))
  {
    Reservations.RepeatedIff(y.db, 1, Settlement, INPUT, 0, 0);
  }

  lemma ConfirmsBehind(y: System)
    requires y.phase == Applied([EVENT], 0) && y.db.jobs == map[0 := Signed()] && 0 in y.db.pending
    ensures Pool.LeftBehind(Next(y, StepConfirm).db, 0)
  {
    LifeCycle.ConfirmIff(y.db, 0, EVENT);
  }

  lemma LastSteps(y: System)
    requires y == System(Listed(), HELD, Recovering([EVENT]))
    ensures Pool.LeftBehind(Run(y, [StepApply(0), StepSendZkapp(1, INPUT), StepConfirm]).db, 0)
  {
    Applies(y);
    var a := Next(y, StepApply(0));
    Repeats(a);
    ConfirmsBehind(Next(a, StepSendZkapp(1, INPUT)));
    Threshold.Run3(y, StepApply(0), StepSendZkapp(1, INPUT), StepConfirm);
  }

  // ---------- the run ----------

  const INDEX_STEPS := [StepBeginTick, StepIndexRow(Block(10, 110, 109)), StepFinalize(Some(10))]
  const LIST_STEPS := [StepIndexEvent(EVENT), StepEndEvents(10, [EVENT])]
  const LAST_STEPS := [StepApply(0), StepSendZkapp(1, INPUT), StepConfirm]

  function RepeatingSteps(): seq<Step> {
    Reachability.OpeningSteps(7)[..5] + (WorkSteps() + (INDEX_STEPS + (LIST_STEPS + LAST_STEPS)))
  }

  /**
    A Finalized run from empty tables that ends with a confirmed job whose
    command is still pending.
   */
  lemma ConfirmedStaysPending()
    ensures Pool.LeftBehind(Run(Start(), RepeatingSteps()).db, 0)
  {
    Reachability.OpeningPass(Start(), 7);
    Works();
    Indexes();
    Lists();
    var y := System(Listed(), HELD, Recovering([EVENT]));
    LastSteps(y);
    Threshold.Compose(Indexed(), LIST_STEPS, y, LAST_STEPS, Run(y, LAST_STEPS));
    Threshold.Compose(Worked(), INDEX_STEPS, Indexed(), LIST_STEPS + LAST_STEPS, Run(y, LAST_STEPS));
    Threshold.Compose(Opened(), WorkSteps(), Worked(), INDEX_STEPS + (LIST_STEPS + LAST_STEPS), Run(y, LAST_STEPS));
    Threshold.Compose(Start(), Reachability.OpeningSteps(7)[..5], Opened(),
                      WorkSteps() + (INDEX_STEPS + (LIST_STEPS + LAST_STEPS)), Run(y, LAST_STEPS));
  }
}
