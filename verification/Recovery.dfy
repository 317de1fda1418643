/**
  What replaying amounts to over whole runs from empty tables: the accounts in
  every reachable state, what a rollback undoes, and why it does not matter
  where recovery was interrupted.
 */
module Recovery {
  import opened Common
  import opened Chain
  import opened Gateway
  import opened Runs
  import opened Safety
  import opened Ownership
  import opened Core
  import opened Replaying
  import UndoOrders
  import Ledger

  const BLANK := Book([], [])

  lemma InitialBook(mode: Mode, outerKey: Key, feeKey: Key, initial: Ledger.Accounts)
    ensures Kept(Initial(mode, outerKey, feeKey, initial), initial, BLANK)
  {
    InitialCore(mode, outerKey, feeKey, initial);
  }

  /** A run from empty tables to `y`, in either mode, and what its book says. */
  ghost predicate Arrives(mode: Mode, outerKey: Key, feeKey: Key, initial: Ledger.Accounts, steps: seq<Step>,
                          y: System, book: Book)
  {
    && y == Run(Initial(mode, outerKey, feeKey, initial), steps)
    && book == BookOf(Initial(mode, outerKey, feeKey, initial), BLANK, steps)
  }

  lemma StepKeys(y: System, step: Step)
    requires CoreHolds(y)
    ensures Next(y, step).db.mode == y.db.mode
    ensures Next(y, step).db.outerKey == y.db.outerKey && Next(y, step).db.feeKey == y.db.feeKey
  {
    if ByIndexer(step) {
      if ReadsChain(step) {
        ReadingKeepsKeys(y, step);
      } else {
        LateStepKeepsChain(y, step);
      }
    } else if Possible(y, step) {
      Quiet.TransactIsQuiet(y, step);
    }
  }

  lemma {:induction false} RunKeys(y: System, steps: seq<Step>)
    requires CoreHolds(y)
    ensures Run(y, steps).db.mode == y.db.mode
    ensures Run(y, steps).db.outerKey == y.db.outerKey && Run(y, steps).db.feeKey == y.db.feeKey
    decreases |steps|
  {
    if steps != [] {
      RunKeys(y, steps[..|steps| - 1]);
      RunKeepsCore(y, steps[..|steps| - 1]);
      StepKeys(Run(y, steps[..|steps| - 1]), steps[|steps| - 1]);
    }
  }

  lemma ArrivesKept(mode: Mode, outerKey: Key, feeKey: Key, initial: Ledger.Accounts, steps: seq<Step>,
                    y: System, book: Book)
    requires Arrives(mode, outerKey, feeKey, initial, steps, y, book)
    ensures Kept(y, initial, book) && y.db.mode == mode && y.db.outerKey == outerKey && y.db.feeKey == feeKey
  {
    var start := Initial(mode, outerKey, feeKey, initial);
    InitialBook(mode, outerKey, feeKey, initial);
    RunKeepsBook(start, initial, BLANK, steps);
    RunKeys(start, steps);
  }

  // ---------- the accounts of every reachable state ----------

  lemma BookTells(y: System, initial: Ledger.Accounts, book: Book)
    requires Kept(y, initial, book)
    ensures Ledger.Represents(y.db.ledger, initial, book.apps) && Ledger.Ordered(book.apps)
    ensures ReplayEvents(y.db.outerKey, y.db.feeKey, initial, book.log) == Success(y.db.ledger.accounts)
    ensures Nonce(y.db.ledger.accounts, y.db.feeKey) == Nonce(initial, y.db.feeKey) + SettlementCount(book.log)
  {
    BookOrdered(y.db, initial, book);
    MirrorsReplay(y.db.outerKey, y.db.feeKey, initial, book);
    ReplayNonce(y.db.outerKey, y.db.feeKey, initial, book.log);
  }

  /**
    Exactly-once replay, in either mode.  In every reachable state the accounts
    are those of applying a list of accepted events of the local chain, each
    once and in chain order, leaving out none that comes before another; and
    the fee payer's nonce has moved by exactly the number of settlements in it.
   */
  lemma ExactlyOnceReplay(mode: Mode, outerKey: Key, feeKey: Key, initial: Ledger.Accounts, steps: seq<Step>,
                          y: System, book: Book)
    requires Arrives(mode, outerKey, feeKey, initial, steps, y, book)
    ensures ReplayEvents(outerKey, feeKey, initial, book.log) == Success(y.db.ledger.accounts)
    ensures Ascending(book.log) && LogFirm(y.db, book.log) && LogClosed(y.db, book.log)
    ensures Nonce(y.db.ledger.accounts, feeKey) == Nonce(initial, feeKey) + SettlementCount(book.log)
  {
    ArrivesKept(mode, outerKey, feeKey, initial, steps, y, book);
    BookTells(y, initial, book);
  }

  /** No run applies out of block order, so every undo log is the exact one. */
  lemma OrderAlwaysHolds(mode: Mode, outerKey: Key, feeKey: Key, initial: Ledger.Accounts, steps: seq<Step>,
                         y: System, book: Book)
    requires Arrives(mode, outerKey, feeKey, initial, steps, y, book)
    ensures Ledger.Represents(y.db.ledger, initial, book.apps) && Ledger.Ordered(book.apps)
  {
    ArrivesKept(mode, outerKey, feeKey, initial, steps, y, book);
    BookTells(y, initial, book);
  }

  /**
    A rollback of any run, in either mode, leaves exactly the replay of the
    events at or below the ancestor.
   */
  lemma RunRollbackIsReplay(mode: Mode, outerKey: Key, feeKey: Key, initial: Ledger.Accounts, steps: seq<Step>,
                            y: System, book: Book, ancestor: nat, retry: Option<JobId>)
    requires Arrives(mode, outerKey, feeKey, initial, steps, y, book)
    requires Next(y, StepRollback(ancestor, retry)) != y
    ensures var z := Next(y, StepRollback(ancestor, retry));
      && Ledger.Represents(z.db.ledger, initial, Ledger.UpTo(book.apps, ancestor))
      && ReplayEvents(outerKey, feeKey, initial, EventsUpTo(book.log, ancestor)) == Success(z.db.ledger.accounts)
      && Nonce(z.db.ledger.accounts, feeKey)
         == Nonce(initial, feeKey) + SettlementCount(EventsUpTo(book.log, ancestor))
  {
    var step := StepRollback(ancestor, retry);
    ArrivesKept(mode, outerKey, feeKey, initial, steps, y, book);
    StepKeepsBook(y, step, initial, book);
    StepKeys(y, step);
    BookTells(Next(y, step), initial, Entered(y, step, book));
  }

  /** In force, each job is applied once: it carries one transaction, and the log has that once. */
  lemma JobsApart(s: Store, book: Book)
    requires AppsOwned(s, book) && LogFirm(s, book.log) && Ascending(book.log) && HashesStored(s.jobs)
    ensures UndoOrders.JobsDistinct(book.apps)
  {
    forall i, j | 0 <= i < j < |book.apps|
      ensures book.apps[i].job != book.apps[j].job
    {
      assert Earlier(book.log[i], book.log[j]);
      assert s.events[book.log[i].tx] == book.log[i] && s.events[book.log[j].tx] == book.log[j];
      assert CarriesHash(s.jobs[book.apps[i].job], book.log[i].tx);
      assert CarriesHash(s.jobs[book.apps[j].job], book.log[j].tx);
      assert HashStored(s.jobs[book.apps[i].job]);
    }
  }

  lemma BookUndoes(s: Store, initial: Ledger.Accounts, book: Book, ancestor: int, undo: seq<Ledger.HistoryRow>)
    requires BookSound(s, initial, book) && SaneJobs(s.jobs) && UndoOrders.UndoSorted(s.ledger.history, ancestor, undo)
    ensures Ledger.Restore(s.ledger.accounts, undo) == Ledger.Rollback(s.ledger, ancestor).accounts
  {
    SaneStored(s.jobs);
    JobsApart(s, book);
    BookOrdered(s, initial, book);
    UndoOrders.AnyUndoIsReplay(initial, book.apps, ancestor, undo);
    Ledger.RollbackIsReplay(s.ledger, initial, book.apps, ancestor);
  }

  /**
    The rows of one job tie in the query that a rollback reads.  In every run,
    whichever of the orders it returns, restoring gives the same accounts.
   */
  lemma RunUndoesInAnyOrder(mode: Mode, outerKey: Key, feeKey: Key, initial: Ledger.Accounts, steps: seq<Step>,
                            y: System, book: Book, ancestor: nat, retry: Option<JobId>,
                            undo: seq<Ledger.HistoryRow>)
    requires Arrives(mode, outerKey, feeKey, initial, steps, y, book)
    requires Next(y, StepRollback(ancestor, retry)) != y
    requires UndoOrders.UndoSorted(y.db.ledger.history, ancestor, undo)
    ensures Next(y, StepRollback(ancestor, retry)).db.ledger.accounts == Ledger.Restore(y.db.ledger.accounts, undo)
  {
    ArrivesKept(mode, outerKey, feeKey, initial, steps, y, book);
    RollbackNext(y, StepRollback(ancestor, retry));
    BookUndoes(y.db, initial, book, ancestor, undo);
  }

  /** In Finalized mode the guard lets no rollback undo an application. */
  lemma RollbackUndoesNothing(outerKey: Key, feeKey: Key, initial: Ledger.Accounts, steps: seq<Step>,
                              y: System, book: Book, ancestor: nat, retry: Option<JobId>)
    requires Arrives(Finalized, outerKey, feeKey, initial, steps, y, book)
    ensures Next(y, StepRollback(ancestor, retry)).db.ledger == y.db.ledger
  {
    var step := StepRollback(ancestor, retry);
    ArrivesKept(Finalized, outerKey, feeKey, initial, steps, y, book);
    if Next(y, step) != y {
      RollbackNext(y, step);
      FirmBelow(y.db, book.log, ancestor);
      BookOrdered(y.db, initial, book);
      Ledger.NothingToUndo(y.db.ledger.history, ancestor, initial, book.apps);
    }
  }

  lemma FirmBelow(s: Store, log: seq<Event>, ancestor: nat)
    requires s.mode.Finalized? && LogFirm(s, log) && MayRollBack(s, ancestor)
    ensures forall i :: 0 <= i < |log| ==> log[i].block <= ancestor
  {
    forall i | 0 <= i < |log|
      ensures log[i].block <= ancestor
    {
      assert Firm(s, log[i].tx);
    }
  }

  // ---------- interruptions ----------

  /** The tables at the end of a recovery pass. */
  ghost predicate Recovered(s: Store, initial: Ledger.Accounts, book: Book) {
    ChainSound(s) && SaneJobs(s.jobs) && BookSound(s, initial, book) && AllApplied(s)
  }

  predicate FinalNow(s: Store, e: Event) {
    FinalEvent(s, e.tx) && s.events[e.tx] == e
  }

  /** Applied while final, but no longer final: possible where finality can recede. */
  predicate Remainder(s: Store, log: seq<Event>, e: Event) {
    e in log && !FinalNow(s, e)
  }

  /** When a recovery pass has ended, the log is every final event and the remainder. */
  lemma PassAbsorbsAll(s: Store, initial: Ledger.Accounts, book: Book, e: Event)
    requires Recovered(s, initial, book)
    ensures e in book.log <==> FinalNow(s, e) || Remainder(s, book.log, e)
    ensures s.mode.Finalized? ==> !Remainder(s, book.log, e)
  {
    if FinalNow(s, e) {
      AppliedIsLogged(s, initial, book, e.tx);
    }
    if e in book.log {
      var i :| 0 <= i < |book.log| && book.log[i] == e;
      assert Firm(s, book.log[i].tx) && s.events[e.tx] == e;
    }
  }

  ghost predicate SameFinal(s: Store, t: Store) {
    forall e :: FinalNow(s, e) <==> FinalNow(t, e)
  }

  ghost predicate SameRemainder(s: Store, a: seq<Event>, t: Store, b: seq<Event>) {
    forall e :: Remainder(s, a, e) <==> Remainder(t, b, e)
  }

  lemma SameMembers(s: Store, t: Store, initial: Ledger.Accounts, a: Book, b: Book)
    requires Recovered(s, initial, a) && Recovered(t, initial, b) && SameFinal(s, t)
    requires SameRemainder(s, a.log, t, b.log)
    ensures forall e :: e in a.log <==> e in b.log
  {
    forall e
      ensures e in a.log <==> e in b.log
    {
      PassAbsorbsAll(s, initial, a, e);
      PassAbsorbsAll(t, initial, b, e);
      assert FinalNow(s, e) <==> FinalNow(t, e);
      assert Remainder(s, a.log, e) <==> Remainder(t, b.log, e);
    }
  }

  lemma LogAscends(s: Store, initial: Ledger.Accounts, book: Book)
    requires Recovered(s, initial, book)
    ensures Ascending(book.log)
  {
  }

  /** The logs of two ended passes agree exactly when their remainders do. */
  lemma SameLogsIff(s: Store, t: Store, initial: Ledger.Accounts, a: Book, b: Book)
    requires Recovered(s, initial, a) && Recovered(t, initial, b) && SameFinal(s, t)
    ensures a.log == b.log <==> SameRemainder(s, a.log, t, b.log)
  {
    if SameRemainder(s, a.log, t, b.log) {
      SameMembers(s, t, initial, a, b);
      LogAscends(s, initial, a);
      LogAscends(t, initial, b);
      AscendingUnique(a.log, b.log);
    }
    if a.log == b.log {
      EqualRemainder(s, t, a.log);
    }
  }

  lemma EqualRemainder(s: Store, t: Store, log: seq<Event>)
    requires SameFinal(s, t)
    ensures SameRemainder(s, log, t, log)
  {
    forall e
      ensures Remainder(s, log, e) <==> Remainder(t, log, e)
    {
      assert FinalNow(s, e) <==> FinalNow(t, e);
    }
  }

  lemma EndsRecovered(y: System, initial: Ledger.Accounts, book: Book)
    requires Kept(y, initial, book) && y.phase.Reconciling?
    ensures Recovered(y.db, initial, book)
  {
  }

  lemma NoRemainder(s: Store, t: Store, initial: Ledger.Accounts, a: Book, b: Book)
    requires Recovered(s, initial, a) && Recovered(t, initial, b) && s.mode.Finalized? && t.mode.Finalized?
    ensures SameRemainder(s, a.log, t, b.log)
  {
    forall e
      ensures Remainder(s, a.log, e) <==> Remainder(t, b.log, e)
    {
      PassAbsorbsAll(s, initial, a, e);
      PassAbsorbsAll(t, initial, b, e);
    }
  }

  /**
    Recovery does not depend on where it was interrupted.  Two runs over the
    same final events, one stopped and restarted anywhere (also between the
    commit of an application and the update of its job), the other not, reach
    the same accounts in Finalized mode, always; with a reversible threshold,
    exactly if they agree on what was applied and is no longer final.
   */
  lemma InterruptionsDoNotMatter(mode: Mode, outerKey: Key, feeKey: Key, initial: Ledger.Accounts,
                                 crashed: seq<Step>, y: System, a: Book, smooth: seq<Step>, z: System, b: Book)
    requires Arrives(mode, outerKey, feeKey, initial, crashed, y, a) && y.phase.Reconciling?
    requires Arrives(mode, outerKey, feeKey, initial, smooth, z, b) && z.phase.Reconciling?
    requires SameFinal(y.db, z.db)
    ensures a.log == b.log <==> SameRemainder(y.db, a.log, z.db, b.log)
    ensures mode.Finalized? ==> a.log == b.log
    ensures a.log == b.log ==> y.db.ledger.accounts == z.db.ledger.accounts
  {
    ArrivesKept(mode, outerKey, feeKey, initial, crashed, y, a);
    ArrivesKept(mode, outerKey, feeKey, initial, smooth, z, b);
    BookTells(y, initial, a);
    BookTells(z, initial, b);
    EndsRecovered(y, initial, a);
    EndsRecovered(z, initial, b);
    SameLogsIff(y.db, z.db, initial, a, b);
    if mode.Finalized? {
      NoRemainder(y.db, z.db, initial, a, b);
    }
  }

  // ---------- a prefix of recovery, and then all of it ----------

  /** Blocks and events stay as they are, and nothing is rolled back. */
  ghost predicate Still(y: System, steps: seq<Step>) {
    && (forall k :: 0 <= k < |steps| ==> !steps[k].StepRollback?)
    && (forall k :: 0 <= k <= |steps| ==>
          Run(y, steps[..k]).db.rows == y.db.rows && Run(y, steps[..k]).db.events == y.db.events)
  }

  lemma StillPrefix(y: System, steps: seq<Step>, n: nat)
    requires Still(y, steps) && n <= |steps|
    ensures Still(y, steps[..n])
    ensures Run(y, steps[..n]).db.rows == y.db.rows && Run(y, steps[..n]).db.events == y.db.events
  {
    forall k | 0 <= k <= n
      ensures steps[..n][..k] == steps[..k]
    {
    }
  }

  lemma SameFinalNow(s: Store, t: Store)
    requires t.rows == s.rows && t.events == s.events
    ensures SameFinal(s, t)
  {
  }

  /** Applied events are final ones. */
  lemma EnteredFinal(y: System, step: Step, book: Book, e: Event)
    requires CoreHolds(y) && !step.StepRollback?
    ensures e in book.log ==> e in Entered(y, step, book).log
    ensures e in Entered(y, step, book).log ==> e in book.log || FinalNow(y.db, e)
  {
    if step.StepApply? && y.phase.Recovering? && y.phase.todo != [] {
      assert FinalNow(y.db, y.phase.todo[0]);
    }
  }

  lemma {:induction false} StillLog(y: System, book: Book, steps: seq<Step>, e: Event)
    requires CoreHolds(y) && Still(y, steps)
    ensures e in book.log ==> e in BookOf(y, book, steps).log
    ensures e in BookOf(y, book, steps).log ==> e in book.log || FinalNow(y.db, e)
    decreases |steps|
  {
    if steps != [] {
      var n := |steps| - 1;
      var earlier := steps[..n];
      StillPrefix(y, steps, n);
      StillLog(y, book, earlier, e);
      RunKeepsCore(y, earlier);
      EnteredFinal(Run(y, earlier), steps[n], BookOf(y, book, earlier), e);
      SameFinalNow(y.db, Run(y, earlier).db);
    }
  }

  lemma StillEnds(y: System, initial: Ledger.Accounts, book: Book, steps: seq<Step>, e: Event)
    requires Kept(y, initial, book) && Still(y, steps) && Run(y, steps).phase.Reconciling?
    ensures e in BookOf(y, book, steps).log <==> e in book.log || FinalNow(y.db, e)
  {
    StillLog(y, book, steps, e);
    RunKeepsBook(y, initial, book, steps);
    StillPrefix(y, steps, |steps|);
    assert steps[..|steps|] == steps;
    if FinalNow(y.db, e) {
      SameFinalNow(y.db, Run(y, steps).db);
      assert FinalNow(Run(y, steps).db, e);
      EndsRecovered(Run(y, steps), initial, BookOf(y, book, steps));
      PassAbsorbsAll(Run(y, steps).db, initial, BookOf(y, book, steps), e);
    }
  }

  /**
    In either mode, part of a recovery pass, a restart, and then a whole pass
    leave the same log and accounts as one whole pass from the same state.
   */
  lemma PrefixThenFull(y: System, initial: Ledger.Accounts, book: Book, crashed: seq<Step>, smooth: seq<Step>)
    requires Kept(y, initial, book) && Still(y, crashed) && Still(y, smooth)
    requires Run(y, crashed).phase.Reconciling? && Run(y, smooth).phase.Reconciling?
    ensures BookOf(y, book, crashed).log == BookOf(y, book, smooth).log
    ensures Run(y, crashed).db.ledger.accounts == Run(y, smooth).db.ledger.accounts
  {
    var a, b := BookOf(y, book, crashed), BookOf(y, book, smooth);
    RunKeepsBook(y, initial, book, crashed);
    RunKeepsBook(y, initial, book, smooth);
    forall e
      ensures e in a.log <==> e in b.log
    {
      StillEnds(y, initial, book, crashed, e);
      StillEnds(y, initial, book, smooth, e);
    }
    AscendingUnique(a.log, b.log);
    BookTells(Run(y, crashed), initial, a);
    BookTells(Run(y, smooth), initial, b);
    RunKeys(y, crashed);
    RunKeys(y, smooth);
  }

  // ---------- confirmed transactions and growing finality ----------

  /** Some job is confirmed under this transaction. */
  predicate Confirmed(s: Store, tx: Hash) {
    exists id :: id in s.jobs && s.jobs[id].status.Confirmed? && s.jobs[id].txHash == Some(tx)
  }

  lemma FinalAreConfirmed(s: Store, tx: Hash)
    requires AllApplied(s) && FinalEvent(s, tx)
    ensures Confirmed(s, tx)
  {
    assert AlreadyApplied(s, tx);
    var id :| id in s.jobs && s.jobs[id].txHash == Some(tx) && s.jobs[id].status.Confirmed?
      && Ledger.Recorded(s.ledger.history, id);
  }

  /** In Finalized mode, when a pass has ended, the confirmed transactions are exactly the final ones. */
  lemma ConfirmedAreFinal(s: Store, tx: Hash)
    requires TablesSound(s) && AllApplied(s)
    ensures Confirmed(s, tx) <==> FinalEvent(s, tx)
  {
    if FinalEvent(s, tx) {
      FinalAreConfirmed(s, tx);
    }
    if Confirmed(s, tx) {
      var id :| id in s.jobs && s.jobs[id].status.Confirmed? && s.jobs[id].txHash == Some(tx);
      assert IncludedBy(s, s.jobs[id]);
    }
  }

  /** So two Finalized runs over the same final events end with the same confirmed transactions. */
  lemma SameConfirmed(outerKey: Key, feeKey: Key, initial: Ledger.Accounts, crashed: seq<Step>, smooth: seq<Step>,
                      y: System, z: System, tx: Hash)
    requires y == Run(Initial(Finalized, outerKey, feeKey, initial), crashed) && y.phase.Reconciling?
    requires z == Run(Initial(Finalized, outerKey, feeKey, initial), smooth) && z.phase.Reconciling?
    requires FinalEvent(y.db, tx) <==> FinalEvent(z.db, tx)
    ensures Confirmed(y.db, tx) <==> Confirmed(z.db, tx)
  {
    RunKeepsInv(Initial(Finalized, outerKey, feeKey, initial), crashed);
    RunKeepsInv(Initial(Finalized, outerKey, feeKey, initial), smooth);
    ConfirmedAreFinal(y.db, tx);
    ConfirmedAreFinal(z.db, tx);
  }

  lemma RollbackGrows(s: Store, ancestor: nat, retry: Option<JobId>)
    requires s.mode.Finalized? && MayRollBack(s, ancestor)
    ensures Chain.FinalityGrows(s.rows, RollbackAfter(s, ancestor, retry).rows)
  {
  }

  lemma IndexRowGrows(s: Store, b: Chain.Block)
    requires FlagsSane(s.rows) && Chain.Below(s.rows, b.number - 1)
    ensures Chain.FinalityGrows(s.rows, Chain.InsertBlock(s.rows, b))
  {
    assert forall n: nat :: Chain.Canonical(s.rows, n) ==> n < b.number;
  }

  lemma StepGrowsFinality(y: System, step: Step)
    requires CoreHolds(y) && y.db.mode.Finalized?
    ensures Chain.FinalityGrows(y.db.rows, Next(y, step).db.rows)
  {
    if !ByIndexer(step) {
      if Possible(y, step) {
        Quiet.TransactIsQuiet(y, step);
      }
    } else if Next(y, step) != y {
      if step.StepRollback? {
        RollbackNext(y, step);
        RollbackGrows(y.db, step.ancestor, step.retry);
      } else if step.StepIndexRow? {
        IndexRowNext(y, step);
        IndexRowGrows(y.db, step.block);
      } else if step.StepFinalize? {
        FinalizeNext(y, step);
      } else if step.StepIndexEvent? {
        IndexEventNext(y, step);
      } else {
        LateStepKeepsChain(y, step);
      }
    }
  }

  /** In Finalized mode the set of finalized (number, hash) pairs only grows. */
  lemma {:induction false} RunGrowsFinality(y: System, steps: seq<Step>)
    requires CoreHolds(y) && y.db.mode.Finalized?
    ensures Chain.FinalityGrows(y.db.rows, Run(y, steps).db.rows)
    decreases |steps|
  {
    if steps != [] {
      var earlier := steps[..|steps| - 1];
      RunGrowsFinality(y, earlier);
      RunKeepsCore(y, earlier);
      RunKeys(y, earlier);
      StepGrowsFinality(Run(y, earlier), steps[|steps| - 1]);
    }
  }
}
