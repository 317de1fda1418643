/**
  The action rows over whole runs.  In Finalized mode they are always those of
  the events in force.  With a reversible threshold the bridge path still is
  right, and the settlement path exactly until a transaction is applied again
  from another block.
 */
module ActionRuns {
  import opened Common
  import opened Chain
  import opened ActionLog
  import opened Gateway
  import opened Runs
  import opened Ownership
  import opened Core
  import opened Replaying
  import opened Recovery
  import Quiet
  import Ledger

  function PostingOf(outerKey: Key, e: Event): Posting {
    Posting(outerKey, e.tx, e.block, e.hash, e.receipt)
  }

  function Postings(outerKey: Key, log: seq<Event>): seq<Posting> {
    seq(|log|, i requires 0 <= i < |log| => PostingOf(outerKey, log[i]))
  }

  /** The rows not removed are exactly those of the log, with their contents and inclusion blocks. */
  ghost predicate ActionsHold(s: Store, log: seq<Event>) {
    Shows(s.actions, Postings(s.outerKey, log)) && Addressed(s.actions, s.outerKey)
  }

  // ---------- one step ----------

  /** A receipt is applied while its transaction's row still shows an earlier inclusion. */
  ghost predicate Moves(y: System, step: Step) {
    && step.StepApply? && Next(y, step).db.ledger != y.db.ledger && y.phase.Recovering? && y.phase.todo != []
    && !Unmoved(y.db.actions, PostingOf(y.db.outerKey, y.phase.todo[0]))
  }

  lemma OtherActions(y: System, step: Step)
    requires CoreHolds(y) && !Enters(step)
    ensures Next(y, step).db.actions == y.db.actions
  {
    if ByIndexer(step) {
      if ReadsChain(step) {
        ReadingKeepsKeys(y, step);
      } else {
        LateStepKeepsChain(y, step);
      }
    } else if Possible(y, step) {
      Quiet.TransactIsQuiet(y, step);
    }
  }

  lemma {:induction false} PostingsCut(outerKey: Key, log: seq<Event>, ancestor: int)
    ensures PostingsUpTo(Postings(outerKey, log), ancestor) == Postings(outerKey, EventsUpTo(log, ancestor))
  {
    if log != [] {
      var n := |log| - 1;
      assert Postings(outerKey, log)[..n] == Postings(outerKey, log[..n]);
      PostingsCut(outerKey, log[..n], ancestor);
    }
  }

  lemma RollbackActions(y: System, step: Step, initial: Ledger.Accounts, book: Book)
    requires Kept(y, initial, book) && step.StepRollback? && ActionsHold(y.db, book.log)
    ensures ActionsHold(Next(y, step).db, Entered(y, step, book).log)
  {
    if Next(y, step) != y {
      RollbackNext(y, step);
      RollbackShows(y.db.actions, Postings(y.db.outerKey, book.log), step.ancestor);
      PostingsCut(y.db.outerKey, book.log, step.ancestor);
    }
  }

  lemma LogTxsDistinct(s: Store, log: seq<Event>)
    requires LogFirm(s, log) && Ascending(log)
    ensures TxsDistinct(Postings(s.outerKey, log))
  {
    forall m, n | 0 <= m < n < |log|
      ensures log[m].tx != log[n].tx
    {
      assert Earlier(log[m], log[n]);
    }
  }

  lemma AppliedWrites(s: Store, id: JobId, e: Event, t: Store)
    requires JobsConfigured(s) && AppliedTo(s, id, e) == Success(t) && t.ledger != s.ledger
    ensures t.outerKey == s.outerKey && t.actions == Write(s.actions, PostingOf(s.outerKey, e)) && id in s.jobs
  {
    EffectPrescribed(s, id, e);
  }

  /** What a committed application writes to the action rows. */
  lemma AppliedActions(y: System, step: Step, initial: Ledger.Accounts, book: Book)
    requires Kept(y, initial, book) && step.StepApply? && Next(y, step).db.ledger != y.db.ledger
    ensures y.phase.Recovering? && y.phase.todo != []
    ensures Next(y, step).db.outerKey == y.db.outerKey
    ensures Next(y, step).db.actions == Write(y.db.actions, PostingOf(y.db.outerKey, y.phase.todo[0]))
    ensures Entered(y, step, book).log == book.log + [y.phase.todo[0]]
  {
    ApplyNext(y, step);
    AppliedWrites(y.db, step.id, y.phase.todo[0], Next(y, step).db);
  }

  lemma PostingsSnoc(outerKey: Key, log: seq<Event>, e: Event)
    ensures Postings(outerKey, log + [e]) == Postings(outerKey, log) + [PostingOf(outerKey, e)]
  {
  }

  lemma ApplyActionsIff(y: System, step: Step, initial: Ledger.Accounts, book: Book)
    requires Kept(y, initial, book) && step.StepApply? && ActionsHold(y.db, book.log)
    ensures ActionsHold(Next(y, step).db, Entered(y, step, book).log) <==> !Moves(y, step)
  {
    if Next(y, step).db.ledger != y.db.ledger {
      AppliedActions(y, step, initial, book);
      StepKeepsBook(y, step, initial, book);
      var e := y.phase.todo[0];
      var p := PostingOf(y.db.outerKey, e);
      LogTxsDistinct(Next(y, step).db, book.log + [e]);
      PostingsSnoc(y.db.outerKey, book.log, e);
      ShowsOneMore(y.db.actions, Postings(y.db.outerKey, book.log), p);
      PostedIff(y.db.actions, p);
    } else {
      UnappliedActions(y, step);
    }
  }

  lemma UnappliedActions(y: System, step: Step)
    requires CoreHolds(y) && step.StepApply? && Next(y, step).db.ledger == y.db.ledger
    ensures Next(y, step).db.actions == y.db.actions && Next(y, step).db.outerKey == y.db.outerKey
  {
    if Next(y, step) != y {
      ApplyNext(y, step);
      if Next(y, step).phase.Applied? && !Ledger.Recorded(y.db.ledger.history, step.id) {
        var e := y.phase.todo[0];
        Ledger.ApplyHistory(y.db.ledger, ApplicationFor(y.db, step.id, e.block, e.hash, e.receipt));
      }
    }
  }

  /** The rows stay right through a step exactly when it does not apply a moved settlement. */
  lemma StepKeepsActionsIff(y: System, step: Step, initial: Ledger.Accounts, book: Book)
    requires Kept(y, initial, book) && ActionsHold(y.db, book.log)
    ensures ActionsHold(Next(y, step).db, Entered(y, step, book).log) <==> !Moves(y, step)
  {
    if step.StepApply? {
      ApplyActionsIff(y, step, initial, book);
    } else if step.StepRollback? {
      RollbackActions(y, step, initial, book);
    } else {
      OtherActions(y, step);
      StepKeys(y, step);
    }
  }

  // ---------- whole runs ----------

  ghost predicate ActionsHoldAt(y: System, book: Book, steps: seq<Step>, k: nat)
    requires k <= |steps|
  {
    ActionsHold(Run(y, steps[..k]).db, BookOf(y, book, steps[..k]).log)
  }

  ghost predicate NeverMoves(y: System, steps: seq<Step>) {
    forall k :: 0 <= k < |steps| ==> !Moves(Run(y, steps[..k]), steps[k])
  }

  lemma OneFurther(y: System, initial: Ledger.Accounts, book: Book, steps: seq<Step>, k: nat)
    requires Kept(y, initial, book) && k < |steps| && ActionsHoldAt(y, book, steps, k)
    ensures ActionsHoldAt(y, book, steps, k + 1) <==> !Moves(Run(y, steps[..k]), steps[k])
  {
    assert steps[..k + 1][..k] == steps[..k];
    RunKeepsBook(y, initial, book, steps[..k]);
    StepKeepsActionsIff(Run(y, steps[..k]), steps[k], initial, BookOf(y, book, steps[..k]));
  }

  lemma HoldsAtStart(y: System, book: Book, steps: seq<Step>)
    requires ActionsHold(y.db, book.log)
    ensures ActionsHoldAt(y, book, steps, 0)
  {
    assert steps[..0] == [];
  }

  lemma UnmovedFurther(y: System, initial: Ledger.Accounts, book: Book, steps: seq<Step>, k: nat)
    requires Kept(y, initial, book) && 0 < k <= |steps| && NeverMoves(y, steps) && ActionsHoldAt(y, book, steps, k - 1)
    ensures ActionsHoldAt(y, book, steps, k)
  {
    OneFurther(y, initial, book, steps, k - 1);
  }

  lemma {:induction false} UnmovedHolds(y: System, initial: Ledger.Accounts, book: Book, steps: seq<Step>, k: nat)
    requires Kept(y, initial, book) && ActionsHold(y.db, book.log) && k <= |steps| && NeverMoves(y, steps)
    ensures ActionsHoldAt(y, book, steps, k)
    decreases k
  {
    if k == 0 {
      HoldsAtStart(y, book, steps);
    } else {
      UnmovedHolds(y, initial, book, steps, k - 1);
      UnmovedFurther(y, initial, book, steps, k);
    }
  }

  /**
    In either mode the rows are right all through a run exactly when the run
    never applies a settlement whose row shows an earlier inclusion.
   */
  lemma ActionsRightIff(y: System, initial: Ledger.Accounts, book: Book, steps: seq<Step>)
    requires Kept(y, initial, book) && ActionsHold(y.db, book.log)
    ensures (forall k :: 0 <= k <= |steps| ==> ActionsHoldAt(y, book, steps, k)) <==> NeverMoves(y, steps)
  {
    if NeverMoves(y, steps) {
      forall k | 0 <= k <= |steps|
        ensures ActionsHoldAt(y, book, steps, k)
      {
        UnmovedHolds(y, initial, book, steps, k);
      }
    }
    if forall k :: 0 <= k <= |steps| ==> ActionsHoldAt(y, book, steps, k) {
      forall k | 0 <= k < |steps|
        ensures !Moves(Run(y, steps[..k]), steps[k])
      {
        assert ActionsHoldAt(y, book, steps, k) && ActionsHoldAt(y, book, steps, k + 1);
        OneFurther(y, initial, book, steps, k);
      }
    }
  }

  // ---------- Finalized mode ----------

  predicate NoneRemoved(actions: ActionTable) {
    forall k :: k in actions ==> !actions[k].removed
  }

  /** A row that shows belongs to a logged event of its transaction. */
  lemma ShownIsLogged(s: Store, log: seq<Event>, k: ActionKey)
    requires ActionsHold(s, log) && k in s.actions && !s.actions[k].removed
    ensures exists i :: 0 <= i < |log| && log[i].tx == k.tx && s.actions[k].block == log[i].block
  {
    var ps := Postings(s.outerKey, log);
    var n :| 0 <= n < |ps| && HasKey(ps[n], k);
    var i :| 0 <= i < Count(ps[n]) && KeyAt(ps[n], i) == k;
    assert Posted(s.actions, ps[n]);
    assert log[n].tx == k.tx && s.actions[k].block == log[n].block;
  }

  lemma FinalizedNeverMoves(y: System, step: Step, initial: Ledger.Accounts, book: Book)
    requires Kept(y, initial, book) && ActionsHold(y.db, book.log) && NoneRemoved(y.db.actions)
    ensures !Moves(y, step)
  {
    if Moves(y, step) {
      var e := y.phase.todo[0];
      var p := PostingOf(y.db.outerKey, e);
      var k := KeyAt(p, 0);
      assert k in y.db.actions && k.tx == e.tx;
      ShownIsLogged(y.db, book.log, k);
      var i :| 0 <= i < |book.log| && book.log[i].tx == e.tx;
      ApplyNext(y, step);
      LoggedAgain(y, step, initial, book, i);
    }
  }

  lemma PendingFinal(y: System)
    requires CoreHolds(y) && y.phase.Recovering? && y.phase.todo != []
    ensures FinalNow(y.db, y.phase.todo[0])
  {
  }

  lemma RecordedSame(s: Store, id: JobId, e: Event)
    requires Ledger.Recorded(s.ledger.history, id)
    ensures AppliedTo(s, id, e).Success? ==> AppliedTo(s, id, e).value.ledger == s.ledger
  {
  }

  /** An event already in the log is not applied again. */
  lemma LoggedAgain(y: System, step: Step, initial: Ledger.Accounts, book: Book, i: nat)
    requires Kept(y, initial, book) && step.StepApply? && y.phase.Recovering? && y.phase.todo != []
    requires i < |book.log| && book.log[i].tx == y.phase.todo[0].tx
    ensures Next(y, step).db.ledger == y.db.ledger
  {
    PendingFinal(y);
    LogHasFinal(y.db, book.log, i, y.phase.todo[0]);
    if Next(y, step) != y {
      ApplyNext(y, step);
      LoggedIsRecorded(y.db, initial, book, step.id, y.phase.todo[0]);
      RecordedSame(y.db, step.id, y.phase.todo[0]);
    }
  }

  lemma LogHasFinal(s: Store, log: seq<Event>, i: nat, e: Event)
    requires LogFirm(s, log) && i < |log| && log[i].tx == e.tx && FinalNow(s, e)
    ensures e in log
  {
    assert s.events[log[i].tx] == log[i];
  }

  lemma AppliedNotRemoved(y: System, step: Step, initial: Ledger.Accounts, book: Book)
    requires Kept(y, initial, book) && step.StepApply? && NoneRemoved(y.db.actions)
    ensures NoneRemoved(Next(y, step).db.actions)
  {
    if Next(y, step).db.ledger != y.db.ledger {
      AppliedActions(y, step, initial, book);
      WrittenNotRemoved(y.db.actions, PostingOf(y.db.outerKey, y.phase.todo[0]));
    } else {
      UnappliedActions(y, step);
    }
  }

  /** Rows of final blocks are out of a guarded rollback's reach. */
  lemma RowsOutOfReach(s: Store, log: seq<Event>, ancestor: nat)
    requires s.mode.Finalized? && LogFirm(s, log) && ActionsHold(s, log) && NoneRemoved(s.actions)
      && MayRollBack(s, ancestor)
    ensures MarkRemoved(s.actions, ancestor) == s.actions
  {
    FirmBelow(s, log, ancestor);
    forall k | k in s.actions
      ensures s.actions[k].block <= ancestor
    {
      ShownIsLogged(s, log, k);
    }
  }

  lemma RollbackNotRemoved(y: System, step: Step, initial: Ledger.Accounts, book: Book)
    requires Kept(y, initial, book) && y.db.mode.Finalized? && step.StepRollback?
    requires ActionsHold(y.db, book.log) && NoneRemoved(y.db.actions)
    ensures NoneRemoved(Next(y, step).db.actions)
  {
    if Next(y, step) != y {
      RollbackNext(y, step);
      RowsOutOfReach(y.db, book.log, step.ancestor);
    }
  }

  lemma RowsNotRemoved(y: System, step: Step, initial: Ledger.Accounts, book: Book)
    requires Kept(y, initial, book) && y.db.mode.Finalized?
    requires ActionsHold(y.db, book.log) && NoneRemoved(y.db.actions)
    ensures NoneRemoved(Next(y, step).db.actions)
  {
    if step.StepApply? {
      AppliedNotRemoved(y, step, initial, book);
    } else if step.StepRollback? {
      RollbackNotRemoved(y, step, initial, book);
    } else {
      OtherActions(y, step);
    }
  }

  lemma WrittenNotRemoved(actions: ActionTable, p: Posting)
    requires NoneRemoved(actions)
    ensures NoneRemoved(Write(actions, p))
  {
    WriteFirstContents(actions, p, Count(p));
    forall k | k in Write(actions, p)
      ensures !Write(actions, p)[k].removed
    {
      if HasKey(p, k) {
        var i :| 0 <= i < Count(p) && KeyAt(p, i) == k;
        assert Write(actions, p)[KeyAt(p, i)] == Upserted(actions, p, i);
      } else {
        LiveBefore(actions, p, k);
      }
    }
  }

  lemma {:induction false} FinalizedActions(y: System, initial: Ledger.Accounts, book: Book, steps: seq<Step>)
    requires Kept(y, initial, book) && y.db.mode.Finalized? && ActionsHold(y.db, book.log) && NoneRemoved(y.db.actions)
    ensures ActionsHold(Run(y, steps).db, BookOf(y, book, steps).log) && NoneRemoved(Run(y, steps).db.actions)
    decreases |steps|
  {
    if steps != [] {
      var earlier, last := steps[..|steps| - 1], steps[|steps| - 1];
      FinalizedActions(y, initial, book, earlier);
      RunKeepsBook(y, initial, book, earlier);
      RunKeys(y, earlier);
      var z, b := Run(y, earlier), BookOf(y, book, earlier);
      FinalizedNeverMoves(z, last, initial, b);
      StepKeepsActionsIff(z, last, initial, b);
      RowsNotRemoved(z, last, initial, b);
    }
  }

  /** The query that serves action rows: not removed, and joined to a final block. */
  predicate Served(s: Store, k: ActionKey) {
    k in s.actions && !s.actions[k].removed && Final(s.rows, s.actions[k].block, s.actions[k].hash)
  }

  /**
    In every run of Finalized mode the action rows are exactly those of the
    events in force, and all of them are served.
   */
  lemma ActionRowsAreTheLog(outerKey: Key, feeKey: Key, initial: Ledger.Accounts, steps: seq<Step>, y: System,
      book: Book)
    requires Arrives(Finalized, outerKey, feeKey, initial, steps, y, book)
    ensures ActionsHold(y.db, book.log)
    ensures forall k :: k in y.db.actions ==> Served(y.db, k)
  {
    var start := Initial(Finalized, outerKey, feeKey, initial);
    InitialBook(Finalized, outerKey, feeKey, initial);
    ArrivesKept(Finalized, outerKey, feeKey, initial, steps, y, book);
    FinalizedActions(start, initial, BLANK, steps);
    forall k | k in y.db.actions
      ensures Served(y.db, k)
    {
      ShownIsFinal(y.db, book.log, k);
    }
  }

  lemma ShownIsFinal(s: Store, log: seq<Event>, k: ActionKey)
    requires s.mode.Finalized? && LogFirm(s, log) && ActionsHold(s, log) && NoneRemoved(s.actions) && k in s.actions
    ensures Served(s, k)
  {
    var ps := Postings(s.outerKey, log);
    var n :| 0 <= n < |ps| && HasKey(ps[n], k);
    var i :| 0 <= i < Count(ps[n]) && KeyAt(ps[n], i) == k;
    assert Posted(s.actions, ps[n]);
    assert Firm(s, log[n].tx);
  }

  lemma LogDecidesRow(s: Store, t: Store, log: seq<Event>, k: ActionKey)
    requires ActionsHold(s, log) && ActionsHold(t, log) && s.outerKey == t.outerKey && NoneRemoved(s.actions)
    requires k in s.actions
    ensures k in t.actions && t.actions[k] == s.actions[k]
  {
    var ps := Postings(s.outerKey, log);
    var n :| 0 <= n < |ps| && HasKey(ps[n], k);
    var i :| 0 <= i < Count(ps[n]) && KeyAt(ps[n], i) == k;
    assert Posted(s.actions, ps[n]) && Posted(t.actions, ps[n]);
  }

  lemma LogDecidesRows(s: Store, t: Store, log: seq<Event>)
    requires ActionsHold(s, log) && ActionsHold(t, log) && s.outerKey == t.outerKey
    requires NoneRemoved(s.actions) && NoneRemoved(t.actions)
    ensures s.actions == t.actions
  {
    forall k | k in s.actions
      ensures k in t.actions && t.actions[k] == s.actions[k]
    {
      LogDecidesRow(s, t, log, k);
    }
    forall k | k in t.actions
      ensures k in s.actions
    {
      LogDecidesRow(t, s, log, k);
    }
  }

  /** Interrupting recovery makes no difference to the action rows either. */
  lemma InterruptionsSameRows(outerKey: Key, feeKey: Key, initial: Ledger.Accounts,
                              crashed: seq<Step>, y: System, a: Book, smooth: seq<Step>, z: System, b: Book)
    requires Arrives(Finalized, outerKey, feeKey, initial, crashed, y, a) && y.phase.Reconciling?
    requires Arrives(Finalized, outerKey, feeKey, initial, smooth, z, b) && z.phase.Reconciling?
    requires SameFinal(y.db, z.db)
    ensures y.db.actions == z.db.actions
  {
    var start := Initial(Finalized, outerKey, feeKey, initial);
    InitialBook(Finalized, outerKey, feeKey, initial);
    InterruptionsDoNotMatter(Finalized, outerKey, feeKey, initial, crashed, y, a, smooth, z, b);
    ArrivesKept(Finalized, outerKey, feeKey, initial, crashed, y, a);
    ArrivesKept(Finalized, outerKey, feeKey, initial, smooth, z, b);
    FinalizedActions(start, initial, BLANK, crashed);
    FinalizedActions(start, initial, BLANK, smooth);
    LogDecidesRows(y.db, z.db, a.log);
  }
}
