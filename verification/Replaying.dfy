/**
  Crash-tolerant, exactly-once replay, in either finality mode.  Wherever the
  indexer is stopped and restarted, and however often the chain reorganizes,
  the virtual accounts are those of applying accepted events once each, in
  chain order, to the initial accounts.
 */
module Replaying {
  import opened Common
  import opened Chain
  import opened ActionLog
  import opened Gateway
  import opened Runs
  import opened Quiet
  import opened Safety
  import opened Ownership
  import opened Core
  import Ledger

  // ---------- the reference: events folded over the initial accounts ----------

  function Nonce(accounts: Ledger.Accounts, feeKey: Key): nat {
    if feeKey in accounts then accounts[feeKey].nonce.GetOr(0) else 0
  }

  function EventEffect(outerKey: Key, feeKey: Key, accounts: Ledger.Accounts, e: Event): Ledger.Effect {
    match e.receipt
    case SettlementReceipt(fields, before, after, _) =>
      Ledger.SettlementEffect(outerKey, feeKey, Nonce(accounts, feeKey), fields, before, after)
    case BridgeReceipt(before, states, _) => Ledger.BridgeEffect(outerKey, before, states)
  }

  function ReplayEvents(outerKey: Key, feeKey: Key, initial: Ledger.Accounts, events: seq<Event>)
    : Result<Ledger.Accounts>
  {
    if events == [] then Success(initial)
    else
      var accounts :- ReplayEvents(outerKey, feeKey, initial, events[..|events| - 1]);
      Ledger.EffectOn(accounts, EventEffect(outerKey, feeKey, accounts, events[|events| - 1]))
  }

  function SettlementCount(events: seq<Event>): nat {
    if events == [] then 0
    else SettlementCount(events[..|events| - 1]) + if events[|events| - 1].receipt.SettlementReceipt? then 1 else 0
  }

  lemma {:induction false} ReplayNonce(outerKey: Key, feeKey: Key, initial: Ledger.Accounts, events: seq<Event>)
    requires ReplayEvents(outerKey, feeKey, initial, events).Success?
    ensures var accounts := ReplayEvents(outerKey, feeKey, initial, events).value;
      accounts.Keys == initial.Keys && Nonce(accounts, feeKey) == Nonce(initial, feeKey) + SettlementCount(events)
  {
    if events != [] {
      ReplayNonce(outerKey, feeKey, initial, events[..|events| - 1]);
    }
  }

  // ---------- ascending lists of events ----------

  predicate Ascending(log: seq<Event>) {
    forall i, j :: 0 <= i < j < |log| ==> Earlier(log[i], log[j])
  }

  lemma LastIsLatest(log: seq<Event>, e: Event)
    requires Ascending(log) && e in log
    ensures e == log[|log| - 1] || Earlier(e, log[|log| - 1])
    ensures e in log[..|log| - 1] <==> e != log[|log| - 1]
  {
    var i :| 0 <= i < |log| && log[i] == e;
    assert i < |log| - 1 ==> e == log[..|log| - 1][i];
  }

  lemma SomeMember(log: seq<Event>)
    requires log != []
    ensures exists e :: e in log
  {
    assert log[0] in log;
  }

  /** Two ascending lists of the same events are the same list. */
  lemma {:induction false} AscendingUnique(a: seq<Event>, b: seq<Event>)
    requires Ascending(a) && Ascending(b)
    requires forall e :: e in a <==> e in b
    ensures a == b
    decreases |a|
  {
    if a == [] {
      if b != [] {
        SomeMember(b);
        assert false;
      }
    } else {
      var m, n := |a| - 1, |b| - 1;
      assert a[m] in b;
      LastIsLatest(a, b[n]);
      LastIsLatest(b, a[m]);
      forall e ensures e in a[..m] <==> e in b[..n] {
        if e in a {
          LastIsLatest(a, e);
          LastIsLatest(b, e);
        }
      }
      AscendingUnique(a[..m], b[..n]);
      assert a == a[..m] + [a[m]] && b == b[..n] + [b[n]];
    }
  }

  /** The events at or below `ancestor`, in their order. */
  function EventsUpTo(log: seq<Event>, ancestor: int): seq<Event> {
    if log == [] then []
    else
      var rest, last := EventsUpTo(log[..|log| - 1], ancestor), log[|log| - 1];
      if last.block <= ancestor then rest + [last] else rest
  }

  // ---------- the book of a run: what is applied and in force ----------

  /** Events in force, and beside each the application it led to. */
  datatype Book = Book(log: seq<Event>, apps: seq<Ledger.Application>)

  /** An application is written down with its event; a rollback crosses out what it undoes. */
  ghost function Entered(y: System, step: Step, book: Book): Book {
    if step.StepApply? && Next(y, step).db.ledger != y.db.ledger && y.phase.Recovering? && y.phase.todo != []
      && step.id in y.db.jobs
    then
      var e := y.phase.todo[0];
      Book(book.log + [e], book.apps + [ApplicationFor(y.db, step.id, e.block, e.hash, e.receipt)])
    else if step.StepRollback? && Next(y, step) != y then
      Book(EventsUpTo(book.log, step.ancestor), Ledger.UpTo(book.apps, step.ancestor))
    else book
  }

  ghost function BookOf(y: System, book: Book, steps: seq<Step>): Book
    decreases |steps|
  {
    if steps == [] then book
    else
      var earlier := steps[..|steps| - 1];
      Entered(Run(y, earlier), steps[|steps| - 1], BookOf(y, book, earlier))
  }

  /** Each application does what its event prescribes to the accounts before it. */
  predicate Mirrors(outerKey: Key, feeKey: Key, initial: Ledger.Accounts, book: Book)
    requires Ledger.Replayable(initial, book.apps)
    decreases |book.apps|
  {
    |book.log| == |book.apps| &&
    (book.apps == [] ||
     var n := |book.apps| - 1;
     var last, e := book.apps[n], book.log[n];
     && Mirrors(outerKey, feeKey, initial, Book(book.log[..n], book.apps[..n]))
     && last.block == e.block && last.hash == e.hash
     && last.effect == EventEffect(outerKey, feeKey, Ledger.Replay(initial, book.apps[..n]), e))
  }

  lemma {:induction false} MirrorsReplay(outerKey: Key, feeKey: Key, initial: Ledger.Accounts, book: Book)
    requires Ledger.Replayable(initial, book.apps) && Mirrors(outerKey, feeKey, initial, book)
    ensures ReplayEvents(outerKey, feeKey, initial, book.log) == Success(Ledger.Replay(initial, book.apps))
    decreases |book.apps|
  {
    if book.apps != [] {
      var n := |book.apps| - 1;
      MirrorsReplay(outerKey, feeKey, initial, Book(book.log[..n], book.apps[..n]));
    }
  }

  lemma {:induction false} MirrorsBlocks(outerKey: Key, feeKey: Key, initial: Ledger.Accounts, book: Book)
    requires Ledger.Replayable(initial, book.apps) && Mirrors(outerKey, feeKey, initial, book)
    ensures |book.log| == |book.apps|
    ensures forall i :: 0 <= i < |book.log| ==> book.apps[i].block == book.log[i].block
    decreases |book.apps|
  {
    if book.apps != [] {
      var n := |book.apps| - 1;
      MirrorsBlocks(outerKey, feeKey, initial, Book(book.log[..n], book.apps[..n]));
      forall i | 0 <= i < |book.log|
        ensures book.apps[i].block == book.log[i].block
      {
        assert i < n ==> book.apps[..n][i] == book.apps[i] && book.log[..n][i] == book.log[i];
      }
    }
  }

  // ---------- what the book tells about the tables ----------

  /** Logged events are firm, and indexed. */
  predicate LogFirm(s: Store, log: seq<Event>) {
    forall i :: 0 <= i < |log| ==>
      Firm(s, log[i].tx) && CanonicalEvent(s, log[i].tx) && s.events[log[i].tx] == log[i] && log[i].block <= s.cursor
  }

  /** Nothing on the chain was skipped. */
  predicate LogClosed(s: Store, log: seq<Event>) {
    forall tx, i :: tx in s.events && 0 <= i < |log| && CanonicalEvent(s, tx) && Earlier(s.events[tx], log[i]) ==>
      s.events[tx] in log
  }

  /** Each application belongs to the job that carries its transaction. */
  predicate AppsOwned(s: Store, book: Book) {
    |book.log| == |book.apps| &&
    forall i :: 0 <= i < |book.log| ==>
      book.apps[i].job in s.jobs && CarriesHash(s.jobs[book.apps[i].job], book.log[i].tx)
  }

  predicate LedgerKept(s: Store, initial: Ledger.Accounts, book: Book) {
    Ledger.Represents(s.ledger, initial, book.apps) && Mirrors(s.outerKey, s.feeKey, initial, book)
  }

  ghost predicate BookSound(s: Store, initial: Ledger.Accounts, book: Book) {
    && LedgerKept(s, initial, book) && Ascending(book.log)
    && LogFirm(s, book.log) && LogClosed(s, book.log) && AppsOwned(s, book)
  }

  ghost predicate Kept(y: System, initial: Ledger.Accounts, book: Book) {
    CoreHolds(y) && BookSound(y.db, initial, book)
  }

  /** A job has history exactly when it owns an application in force. */
  lemma RecordedInBook(s: Store, initial: Ledger.Accounts, book: Book, id: JobId)
    requires LedgerKept(s, initial, book) && AppsOwned(s, book)
    ensures Ledger.Recorded(s.ledger.history, id) <==> exists i :: 0 <= i < |book.log| && book.apps[i].job == id
  {
    Ledger.RecordedMeansApplied(initial, book.apps, id);
  }

  // ---------- steps that write nothing ----------

  ghost predicate KeepsHashes(s: Store, t: Store) {
    forall id, tx {:trigger CarriesHash(s.jobs[id], tx)} ::
      id in s.jobs && CarriesHash(s.jobs[id], tx) ==> id in t.jobs && CarriesHash(t.jobs[id], tx)
  }

  /** What a step must keep for the log to stay sound. */
  predicate CarriesLog(s: Store, t: Store, log: seq<Event>) {
    && (forall i :: 0 <= i < |log| ==>
          Firm(t, log[i].tx) && CanonicalEvent(t, log[i].tx) && t.events[log[i].tx] == log[i]
            && log[i].block <= t.cursor)
    && (forall tx, i :: tx in t.events && 0 <= i < |log| && CanonicalEvent(t, tx) && Earlier(t.events[tx], log[i]) ==>
          CanonicalEvent(s, tx) && t.events[tx] == s.events[tx])
  }

  lemma CarriedBook(s: Store, t: Store, initial: Ledger.Accounts, book: Book)
    requires BookSound(s, initial, book) && CarriesLog(s, t, book.log) && KeepsHashes(s, t)
    requires t.ledger == s.ledger && t.outerKey == s.outerKey && t.feeKey == s.feeKey
    ensures BookSound(t, initial, book)
  {
    CarriedOwners(s, t, book);
    CarriedClosed(s, t, book.log);
  }

  lemma CarriedOwners(s: Store, t: Store, book: Book)
    requires AppsOwned(s, book) && KeepsHashes(s, t)
    ensures AppsOwned(t, book)
  {
    forall i | 0 <= i < |book.log|
      ensures book.apps[i].job in t.jobs && CarriesHash(t.jobs[book.apps[i].job], book.log[i].tx)
    {
      assert CarriesHash(s.jobs[book.apps[i].job], book.log[i].tx);
    }
  }

  lemma CarriedClosed(s: Store, t: Store, log: seq<Event>)
    requires LogClosed(s, log) && CarriesLog(s, t, log)
    ensures LogClosed(t, log)
  {
  }

  lemma SameChainCarries(s: Store, t: Store, log: seq<Event>)
    requires LogFirm(s, log) && t.mode == s.mode && t.rows == s.rows && t.events == s.events && t.cursor >= s.cursor
    ensures CarriesLog(s, t, log)
  {
    forall i | 0 <= i < |log|
      ensures Firm(t, log[i].tx) && CanonicalEvent(t, log[i].tx)
    {
      assert Firm(s, log[i].tx) && CanonicalEvent(s, log[i].tx);
    }
  }

  // ---------- HTTP and worker steps ----------

  lemma EvolvedHash(j: Job, k: Job, tx: Hash)
    requires Evolves(j, k) && HashStored(j) && CarriesHash(j, tx) && j.prepared.Some?
    ensures CarriesHash(k, tx)
  {
  }

  lemma WorkKeepsHashes(y: System, step: Step)
    requires CoreHolds(y) && !ByIndexer(step) && Possible(y, step)
    ensures KeepsHashes(y.db, Transact(y.db, step))
  {
    var s, t := y.db, Transact(y.db, step);
    TransactIsQuiet(y, step);
    SaneStored(s.jobs);
    forall id, tx | id in s.jobs && CarriesHash(s.jobs[id], tx)
      ensures id in t.jobs && CarriesHash(t.jobs[id], tx)
    {
      if s.jobs[id].input.recovered {
        RecoveredUntouched(y, step, id);
      } else {
        assert HashStored(s.jobs[id]);
        EvolvedHash(s.jobs[id], t.jobs[id], tx);
      }
    }
  }

  lemma WorkKeepsBook(y: System, step: Step, initial: Ledger.Accounts, book: Book)
    requires Kept(y, initial, book) && !ByIndexer(step) && Possible(y, step)
    ensures BookSound(Next(y, step).db, initial, book)
  {
    var s, t := y.db, Transact(y.db, step);
    TransactIsQuiet(y, step);
    WorkKeepsHashes(y, step);
    SameChainCarries(s, t, book.log);
    CarriedBook(s, t, initial, book);
  }

  // ---------- the indexer's passes over blocks and events ----------

  lemma IndexRowCarries(s: Store, b: Block, log: seq<Event>)
    requires ChainSound(s) && LogFirm(s, log) && Below(s.rows, b.number - 1)
    ensures CarriesLog(s, s.(rows := InsertBlock(s.rows, b)), log)
  {
    var t := s.(rows := InsertBlock(s.rows, b));
    assert forall n: nat :: Canonical(s.rows, n) ==> n < b.number;
    forall i | 0 <= i < |log|
      ensures Firm(t, log[i].tx) && CanonicalEvent(t, log[i].tx) && log[i].block < b.number
    {
      assert Firm(s, log[i].tx) && CanonicalEvent(s, log[i].tx);
      assert Canonical(s.rows, log[i].block);
    }
  }

  lemma FinalizeCarries(s: Store, through: Option<nat>, log: seq<Event>)
    requires ChainSound(s) && LogFirm(s, log) && MayFinalize(s, through)
    ensures CarriesLog(s, s.(rows := Finalize(s.rows, through)), log)
  {
    var t := s.(rows := Finalize(s.rows, through));
    assert forall tx :: CanonicalEvent(t, tx) <==> CanonicalEvent(s, tx);
    FinalizeChain(s, through);
  }

  lemma IndexEventCarries(s: Store, e: Event, log: seq<Event>)
    requires ChainSound(s) && LogFirm(s, log) && e.block > s.cursor && MinedOnce(s, e)
    ensures CarriesLog(s, s.(events := s.events[e.tx := e]), log)
  {
    var t := s.(events := s.events[e.tx := e]);
    forall i | 0 <= i < |log|
      ensures t.events[log[i].tx] == log[i] && Firm(t, log[i].tx) && CanonicalEvent(t, log[i].tx)
    {
      assert Firm(s, log[i].tx) && CanonicalEvent(s, log[i].tx);
    }
  }

  lemma SameJobsHashes(s: Store, t: Store)
    requires t.jobs == s.jobs
    ensures KeepsHashes(s, t)
  {
  }

  lemma IndexRowBook(y: System, step: Step, initial: Ledger.Accounts, book: Book)
    requires Kept(y, initial, book) && step.StepIndexRow?
    ensures BookSound(Next(y, step).db, initial, book)
  {
    if Next(y, step) != y {
      IndexRowNext(y, step);
      var t := y.db.(rows := InsertBlock(y.db.rows, step.block));
      IndexRowCarries(y.db, step.block, book.log);
      SameJobsHashes(y.db, t);
      CarriedBook(y.db, t, initial, book);
    }
  }

  lemma FinalizeBook(y: System, step: Step, initial: Ledger.Accounts, book: Book)
    requires Kept(y, initial, book) && step.StepFinalize?
    ensures BookSound(Next(y, step).db, initial, book)
  {
    if Next(y, step) != y {
      FinalizeNext(y, step);
      var t := y.db.(rows := Finalize(y.db.rows, step.through));
      FinalizeCarries(y.db, step.through, book.log);
      SameJobsHashes(y.db, t);
      CarriedBook(y.db, t, initial, book);
    }
  }

  lemma IndexEventBook(y: System, step: Step, initial: Ledger.Accounts, book: Book)
    requires Kept(y, initial, book) && step.StepIndexEvent?
    ensures BookSound(Next(y, step).db, initial, book)
  {
    if Next(y, step) != y {
      IndexEventNext(y, step);
      var t := y.db.(events := y.db.events[step.event.tx := step.event]);
      IndexEventCarries(y.db, step.event, book.log);
      SameJobsHashes(y.db, t);
      CarriedBook(y.db, t, initial, book);
    }
  }

  lemma EndEventsBook(y: System, step: Step, initial: Ledger.Accounts, book: Book)
    requires Kept(y, initial, book) && step.StepEndEvents?
    ensures BookSound(Next(y, step).db, initial, book)
  {
    if Next(y, step) != y {
      EndEventsNext(y, step);
      var t := y.db.(cursor := Advanced(y.db.cursor, step.head));
      SameChainCarries(y.db, t, book.log);
      SameJobsHashes(y.db, t);
      CarriedBook(y.db, t, initial, book);
    }
  }

  // ---------- recovery steps that apply nothing ----------

  lemma InsertBook(y: System, step: Step, initial: Ledger.Accounts, book: Book)
    requires Kept(y, initial, book) && step.StepInsertRecovered?
    ensures BookSound(Next(y, step).db, initial, book)
  {
    if Next(y, step) != y {
      InsertRecoveredNext(y, step);
      var t := InsertRecovered(y.db, step.id, y.phase.todo[0]);
      assert KeepsHashes(y.db, t);
      SameChainCarries(y.db, t, book.log);
      CarriedBook(y.db, t, initial, book);
    }
  }

  lemma ConfirmHashesKept(s: Store, id: JobId, e: Event)
    requires SaneJobs(s.jobs) && id in s.jobs && CarriesHash(s.jobs[id], e.tx)
    ensures KeepsHashes(s, ConfirmRecovered(s, id, e))
  {
    SaneStored(s.jobs);
    assert HashStored(s.jobs[id]);
  }

  lemma ConfirmBook(y: System, step: Step, initial: Ledger.Accounts, book: Book)
    requires Kept(y, initial, book) && step.StepConfirm?
    ensures BookSound(Next(y, step).db, initial, book)
  {
    if Next(y, step) != y {
      ConfirmNext(y, step);
      var t := ConfirmRecovered(y.db, y.phase.id, y.phase.todo[0]);
      ConfirmHashesKept(y.db, y.phase.id, y.phase.todo[0]);
      SameChainCarries(y.db, t, book.log);
      CarriedBook(y.db, t, initial, book);
    }
  }

  lemma ReconcileHashesKept(s: Store, id: JobId, mined: Mined, final: bool)
    ensures KeepsHashes(s, Reconcile(s, id, mined, final))
  {
  }

  lemma ReconcileBook(y: System, step: Step, initial: Ledger.Accounts, book: Book)
    requires Kept(y, initial, book) && step.StepReconcile?
    ensures BookSound(Next(y, step).db, initial, book)
  {
    if Next(y, step) != y {
      ReconcileNext(y, step);
      var t := Reconcile(y.db, step.id, step.mined, step.final);
      ReconcileHashesKept(y.db, step.id, step.mined, step.final);
      SameChainCarries(y.db, t, book.log);
      CarriedBook(y.db, t, initial, book);
    }
  }

  lemma ReadyBook(y: System, step: Step, initial: Ledger.Accounts, book: Book)
    requires Kept(y, initial, book) && step.StepReady?
    ensures BookSound(Next(y, step).db, initial, book)
  {
    if Next(y, step) != y {
      ReadyNext(y, step);
      var t := y.db.(ready := true);
      SameJobsHashes(y.db, t);
      SameChainCarries(y.db, t, book.log);
      CarriedBook(y.db, t, initial, book);
    }
  }

  // ---------- the application itself ----------

  /** A successful application has the effect its event prescribes, whatever the stored nonce. */
  lemma EffectPrescribed(s: Store, id: JobId, e: Event)
    requires JobsConfigured(s) && id in s.jobs
    requires Ledger.EffectOn(s.ledger.accounts, ApplicationFor(s, id, e.block, e.hash, e.receipt).effect).Success?
    ensures ApplicationFor(s, id, e.block, e.hash, e.receipt).effect
      == EventEffect(s.outerKey, s.feeKey, s.ledger.accounts, e)
  {
    assert Names(s.outerKey, s.feeKey, s.jobs[id].input.submission);
  }

  /** Everything logged comes before an event that is final but not yet logged. */
  lemma NextIsLatest(s: Store, log: seq<Event>, e: Event)
    requires ChainSound(s) && LogFirm(s, log) && LogClosed(s, log)
    requires FinalEvent(s, e.tx) && s.events[e.tx] == e && e !in log
    ensures forall i :: 0 <= i < |log| ==> Earlier(log[i], e)
  {
    FinalIsCanonical(s, e.tx);
    forall i | 0 <= i < |log|
      ensures Earlier(log[i], e)
    {
      assert CanonicalEvent(s, log[i].tx);
      assert log[i].tx != e.tx;
      assert !Earlier(e, log[i]);
      assert e.block == log[i].block ==> e.hash == log[i].hash;
    }
  }

  /** An event whose transaction is applied is in the log. */
  lemma AppliedIsLogged(s: Store, initial: Ledger.Accounts, book: Book, tx: Hash)
    requires SaneJobs(s.jobs) && BookSound(s, initial, book) && FinalEvent(s, tx) && AlreadyApplied(s, tx)
    ensures s.events[tx] in book.log
  {
    var id :| id in s.jobs && s.jobs[id].txHash == Some(tx) && s.jobs[id].status.Confirmed?
      && Ledger.Recorded(s.ledger.history, id);
    RecordedInBook(s, initial, book, id);
    var i :| 0 <= i < |book.log| && book.apps[i].job == id;
    SaneStored(s.jobs);
    assert HashStored(s.jobs[id]) && CarriesHash(s.jobs[id], book.log[i].tx);
    assert book.log[i].tx == tx && book.log[i] in book.log;
  }

  /** The owner of a logged event has history. */
  lemma LoggedIsRecorded(s: Store, initial: Ledger.Accounts, book: Book, id: JobId, e: Event)
    requires HashUnique(s.jobs) && LedgerKept(s, initial, book) && AppsOwned(s, book) && e in book.log
    requires id in s.jobs && CarriesHash(s.jobs[id], e.tx)
    ensures Ledger.Recorded(s.ledger.history, id)
  {
    var i :| 0 <= i < |book.log| && book.log[i] == e;
    var o := book.apps[i].job;
    assert CarriesHash(s.jobs[o], e.tx);
    assert o == id;
    RecordedInBook(s, initial, book, id);
  }

  lemma HeadOfTodo(todo: seq<Event>, e: Event)
    requires TodoOrdered(todo) && e in todo
    ensures !Earlier(e, todo[0])
  {
    var k :| 0 <= k < |todo| && todo[k] == e;
    assert k > 0 ==> Before(todo[0], todo[k]);
  }

  /** Below a final block everything on the chain is final. */
  lemma BelowFinal(s: Store, e: Event, tx: Hash)
    requires ChainSound(s) && FinalEvent(s, e.tx) && s.events[e.tx] == e
    requires CanonicalEvent(s, tx) && Earlier(s.events[tx], e)
    ensures FinalEvent(s, tx)
  {
  }

  /** The first pending event is the earliest that is not yet logged. */
  lemma HeadIsEarliest(s: Store, initial: Ledger.Accounts, book: Book, todo: seq<Event>)
    requires ChainSound(s) && SaneJobs(s.jobs) && BookSound(s, initial, book)
    requires todo != [] && TodoPending(s, todo) && TodoOrdered(todo)
    ensures LogClosed(s, book.log + [todo[0]])
  {
    var grown := book.log + [todo[0]];
    forall tx, i | tx in s.events && 0 <= i < |grown| && CanonicalEvent(s, tx) && Earlier(s.events[tx], grown[i])
      ensures s.events[tx] in grown
    {
      if i < |book.log| {
        assert s.events[tx] in book.log;
      } else {
        BelowFinal(s, todo[0], tx);
        if AlreadyApplied(s, tx) {
          AppliedIsLogged(s, initial, book, tx);
        } else {
          HeadOfTodo(todo, s.events[tx]);
        }
      }
    }
  }

  lemma GrownFirm(s: Store, log: seq<Event>, e: Event)
    requires LogFirm(s, log) && FinalEvent(s, e.tx) && s.events[e.tx] == e && Below(s.rows, s.cursor)
    ensures LogFirm(s, log + [e])
  {
    FinalIsCanonical(s, e.tx);
    assert Canonical(s.rows, e.block);
  }

  /** Applying an event's receipt for the first time adds one mirrored application. */
  lemma GrownLedger(s: Store, t: Store, initial: Ledger.Accounts, book: Book, id: JobId, e: Event)
    requires JobsConfigured(s) && LedgerKept(s, initial, book) && id in s.jobs
    requires !Ledger.Recorded(s.ledger.history, id) && AppliedTo(s, id, e) == Success(t)
    ensures var app := ApplicationFor(s, id, e.block, e.hash, e.receipt);
      LedgerKept(t, initial, Book(book.log + [e], book.apps + [app]))
    ensures t.ledger != s.ledger
  {
    var app := ApplicationFor(s, id, e.block, e.hash, e.receipt);
    EffectPrescribed(s, id, e);
    Ledger.ApplyExtendsReplay(s.ledger, initial, book.apps, app);
    var grown := Book(book.log + [e], book.apps + [app]);
    var n := |book.apps|;
    assert |book.log| == |book.apps|;
    assert grown.log[..n] == book.log && grown.apps[..n] == book.apps;
    assert |t.ledger.history| > |s.ledger.history|;
  }

  lemma GrownOwners(s: Store, t: Store, book: Book, id: JobId, e: Event, app: Ledger.Application)
    requires AppsOwned(s, book) && t.jobs == s.jobs && id in s.jobs && CarriesHash(s.jobs[id], e.tx) && app.job == id
    ensures AppsOwned(t, Book(book.log + [e], book.apps + [app]))
  {
  }

  /** The first application of a job's receipt extends the book by its event. */
  lemma NewlyApplied(s: Store, t: Store, initial: Ledger.Accounts, book: Book, id: JobId, todo: seq<Event>)
    requires ChainSound(s) && SaneJobs(s.jobs) && RowsSound(s) && BookSound(s, initial, book)
    requires todo != [] && TodoPending(s, todo) && TodoOrdered(todo) && Below(s.rows, s.cursor)
    requires id in s.jobs && CarriesHash(s.jobs[id], todo[0].tx) && !Ledger.Recorded(s.ledger.history, id)
    requires AppliedTo(s, id, todo[0]) == Success(t)
    ensures var e := todo[0];
      var app := ApplicationFor(s, id, e.block, e.hash, e.receipt);
      BookSound(t, initial, Book(book.log + [e], book.apps + [app]))
  {
    var e := todo[0];
    var app := ApplicationFor(s, id, e.block, e.hash, e.receipt);
    if e in book.log {
      LoggedIsRecorded(s, initial, book, id, e);
    }
    NextIsLatest(s, book.log, e);
    HeadIsEarliest(s, initial, book, todo);
    GrownFirm(s, book.log, e);
    GrownLedger(s, t, initial, book, id, e);
    GrownOwners(s, t, book, id, e, app);
    ReceiptKeepsRows(s, t, id, e);
    SameChainLog(s, t, book.log + [e]);
  }

  lemma SameChainLog(s: Store, t: Store, log: seq<Event>)
    requires LogFirm(s, log) && LogClosed(s, log)
    requires t.mode == s.mode && t.rows == s.rows && t.events == s.events && t.cursor == s.cursor
    ensures LogFirm(t, log) && LogClosed(t, log)
  {
    SameChainCarries(s, t, log);
  }

  lemma ApplyBook(y: System, step: Step, initial: Ledger.Accounts, book: Book)
    requires Kept(y, initial, book) && step.StepApply?
    ensures BookSound(Next(y, step).db, initial, Entered(y, step, book))
  {
    if Next(y, step).db != y.db {
      ApplyNext(y, step);
      if !Ledger.Recorded(y.db.ledger.history, step.id) {
        NewlyApplied(y.db, Next(y, step).db, initial, book, step.id, y.phase.todo);
        GrownLedger(y.db, Next(y, step).db, initial, book, step.id, y.phase.todo[0]);
      }
    }
  }

  // ---------- rollback ----------

  predicate Splits(log: seq<Event>, ancestor: int, k: nat) {
    k <= |log| && forall i :: 0 <= i < |log| ==> (i < k <==> log[i].block <= ancestor)
  }

  /** An ascending log splits at any height. */
  lemma {:induction false} SplitAt(log: seq<Event>, ancestor: int) returns (k: nat)
    requires Ascending(log)
    ensures Splits(log, ancestor, k)
    decreases |log|
  {
    var n := |log|;
    if n == 0 {
      k := 0;
    } else if log[n - 1].block <= ancestor {
      k := n;
      assert forall i :: 0 <= i < n ==> i == n - 1 || Earlier(log[i], log[n - 1]);
    } else {
      k := SplitAt(log[..n - 1], ancestor);
      assert forall i :: 0 <= i < n - 1 ==> log[..n - 1][i] == log[i];
    }
  }

  lemma {:induction false} EventsSplit(log: seq<Event>, ancestor: int, k: nat)
    requires Splits(log, ancestor, k)
    ensures EventsUpTo(log, ancestor) == log[..k]
    decreases |log|
  {
    var n := |log|;
    if k == n {
      AllUpTo(log, ancestor);
      assert log[..k] == log;
    } else {
      assert forall i :: 0 <= i < n - 1 ==> log[..n - 1][i] == log[i];
      EventsSplit(log[..n - 1], ancestor, k);
      assert log[..n - 1][..k] == log[..k];
    }
  }

  lemma {:induction false} AppsSplit(apps: seq<Ledger.Application>, ancestor: int, k: nat)
    requires k <= |apps| && forall i :: 0 <= i < |apps| ==> (i < k <==> apps[i].block <= ancestor)
    ensures Ledger.UpTo(apps, ancestor) == apps[..k]
    decreases |apps|
  {
    var n := |apps|;
    if k == n {
      Ledger.UpToAll(apps, ancestor);
      assert apps[..k] == apps;
    } else {
      assert forall i :: 0 <= i < n - 1 ==> apps[..n - 1][i] == apps[i];
      AppsSplit(apps[..n - 1], ancestor, k);
      assert apps[..n - 1][..k] == apps[..k];
    }
  }

  /** In an ascending book a rollback leaves a prefix of both columns. */
  lemma UpToPrefix(book: Book, ancestor: int) returns (k: nat)
    requires |book.log| == |book.apps| && Ascending(book.log)
    requires forall i :: 0 <= i < |book.log| ==> book.apps[i].block == book.log[i].block
    ensures k <= |book.log| && EventsUpTo(book.log, ancestor) == book.log[..k]
    ensures Ledger.UpTo(book.apps, ancestor) == book.apps[..k] && Splits(book.log, ancestor, k)
  {
    k := SplitAt(book.log, ancestor);
    EventsSplit(book.log, ancestor, k);
    AppsSplit(book.apps, ancestor, k);
  }

  lemma {:induction false} AllUpTo(log: seq<Event>, ancestor: int)
    requires forall i :: 0 <= i < |log| ==> log[i].block <= ancestor
    ensures EventsUpTo(log, ancestor) == log
  {
    if log != [] {
      AllUpTo(log[..|log| - 1], ancestor);
      assert log == log[..|log| - 1] + [log[|log| - 1]];
    }
  }

  lemma {:induction false} PrefixMirrors(outerKey: Key, feeKey: Key, initial: Ledger.Accounts, book: Book, k: nat)
    requires Ledger.Replayable(initial, book.apps) && Mirrors(outerKey, feeKey, initial, book) && k <= |book.log|
    ensures |book.log| == |book.apps| && Ledger.Replayable(initial, book.apps[..k])
    ensures Mirrors(outerKey, feeKey, initial, Book(book.log[..k], book.apps[..k]))
    decreases |book.apps|
  {
    var n := |book.apps|;
    if k < n {
      PrefixMirrors(outerKey, feeKey, initial, Book(book.log[..n - 1], book.apps[..n - 1]), k);
      assert book.log[..n - 1][..k] == book.log[..k] && book.apps[..n - 1][..k] == book.apps[..k];
    } else {
      assert book.log[..k] == book.log && book.apps[..k] == book.apps;
    }
  }

  lemma BookOrdered(s: Store, initial: Ledger.Accounts, book: Book)
    requires LedgerKept(s, initial, book) && Ascending(book.log)
    ensures |book.log| == |book.apps| && Ledger.Ordered(book.apps)
    ensures forall i :: 0 <= i < |book.log| ==> book.apps[i].block == book.log[i].block
  {
    MirrorsBlocks(s.outerKey, s.feeKey, initial, book);
    forall i, j | 0 <= i < j < |book.apps|
      ensures book.apps[i].block <= book.apps[j].block
    {
      assert Earlier(book.log[i], book.log[j]);
    }
  }

  lemma RollbackLedger(s: Store, t: Store, initial: Ledger.Accounts, book: Book, ancestor: int, k: nat)
    requires LedgerKept(s, initial, book) && Ascending(book.log) && k <= |book.log| == |book.apps|
    requires t.ledger == Ledger.Rollback(s.ledger, ancestor) && t.outerKey == s.outerKey && t.feeKey == s.feeKey
    requires Ledger.UpTo(book.apps, ancestor) == book.apps[..k]
    ensures LedgerKept(t, initial, Book(book.log[..k], book.apps[..k]))
  {
    BookOrdered(s, initial, book);
    Ledger.RollbackIsReplay(s.ledger, initial, book.apps, ancestor);
    PrefixMirrors(s.outerKey, s.feeKey, initial, book, k);
  }

  lemma RollbackLog(s: Store, ancestor: nat, retry: Option<JobId>, log: seq<Event>, k: nat)
    requires LogFirm(s, log) && LogClosed(s, log) && Splits(log, ancestor, k)
    ensures LogFirm(RollbackAfter(s, ancestor, retry), log[..k])
    ensures LogClosed(RollbackAfter(s, ancestor, retry), log[..k])
  {
    var t := RollbackAfter(s, ancestor, retry);
    forall i | 0 <= i < k
      ensures Firm(t, log[i].tx) && CanonicalEvent(t, log[i].tx) && t.events[log[i].tx] == log[i]
        && log[i].block <= t.cursor
    {
      assert Firm(s, log[i].tx) && CanonicalEvent(s, log[i].tx);
      RollbackFirm(s, ancestor, retry, log[i].tx);
    }
    forall tx, i | tx in t.events && 0 <= i < k && CanonicalEvent(t, tx) && Earlier(t.events[tx], log[..k][i])
      ensures t.events[tx] in log[..k]
    {
      assert CanonicalEvent(s, tx) && t.events[tx] == s.events[tx];
      var j :| 0 <= j < |log| && log[j] == s.events[tx];
      assert log[i].block <= ancestor && j < k && log[..k][j] == log[j];
    }
  }

  /** The owner of an application that stays is not deleted with its block. */
  lemma RollbackOwners(s: Store, ancestor: nat, retry: Option<JobId>, book: Book, k: nat)
    requires AppsOwned(s, book) && LogFirm(s, book.log) && SaneJobs(s.jobs) && RecoveredPlaced(s) && References(s)
    requires Splits(book.log, ancestor, k)
    ensures AppsOwned(RollbackAfter(s, ancestor, retry), Book(book.log[..k], book.apps[..k]))
  {
    var t := RollbackAfter(s, ancestor, retry);
    forall i | 0 <= i < k
      ensures book.apps[i].job in t.jobs && CarriesHash(t.jobs[book.apps[i].job], book.log[i].tx)
    {
      var id := book.apps[i].job;
      assert CarriesHash(s.jobs[id], book.log[i].tx);
      if s.jobs[id].input.recovered {
        assert Placed(s, s.jobs[id]);
        RecoveredGoes(s, ancestor, id);
      }
      RollbackRow(s, ancestor, retry, id);
    }
  }

  lemma RolledBackBook(s: Store, ancestor: nat, retry: Option<JobId>, initial: Ledger.Accounts, book: Book)
    requires SaneJobs(s.jobs) && RecoveredPlaced(s) && References(s) && BookSound(s, initial, book)
    ensures BookSound(RollbackAfter(s, ancestor, retry), initial,
                      Book(EventsUpTo(book.log, ancestor), Ledger.UpTo(book.apps, ancestor)))
  {
    BookOrdered(s, initial, book);
    var k := UpToPrefix(book, ancestor);
    RollbackLedger(s, RollbackAfter(s, ancestor, retry), initial, book, ancestor, k);
    RollbackLog(s, ancestor, retry, book.log, k);
    RollbackOwners(s, ancestor, retry, book, k);
  }

  lemma RollbackBook(y: System, step: Step, initial: Ledger.Accounts, book: Book)
    requires Kept(y, initial, book) && step.StepRollback?
    ensures BookSound(Next(y, step).db, initial, Entered(y, step, book))
  {
    if Next(y, step) != y {
      RollbackNext(y, step);
      RolledBackBook(y.db, step.ancestor, step.retry, initial, book);
    }
  }

  // ---------- every step, and every run ----------

  predicate Moving(step: Step) {
    step.StepBeginTick? || step.StepAbortTick? || step.StepEndRecovery? || step.StepSkip? || step.StepReconcileApply?
  }

  lemma MovingSame(y: System, step: Step)
    requires CoreHolds(y) && Moving(step)
    ensures Next(y, step).db == y.db
  {
    if step.StepReconcileApply? {
      ReconcileApplyNext(y, step);
    } else if Next(y, step) != y {
      if step.StepSkip? {
        SkipNext(y, step);
      } else {
        MovingNext(y, step);
      }
    }
  }

  lemma MovingBook(y: System, step: Step, initial: Ledger.Accounts, book: Book)
    requires Kept(y, initial, book) && Moving(step)
    ensures BookSound(Next(y, step).db, initial, book)
  {
    MovingSame(y, step);
  }

  predicate Enters(step: Step) {
    step.StepApply? || step.StepRollback?
  }

  lemma BlockStepBook(y: System, step: Step, initial: Ledger.Accounts, book: Book)
    requires Kept(y, initial, book) && (step.StepIndexRow? || step.StepFinalize?)
    ensures BookSound(Next(y, step).db, initial, book)
  {
    if step.StepIndexRow? {
      IndexRowBook(y, step, initial, book);
    } else {
      FinalizeBook(y, step, initial, book);
    }
  }

  lemma EventStepBook(y: System, step: Step, initial: Ledger.Accounts, book: Book)
    requires Kept(y, initial, book) && (step.StepIndexEvent? || step.StepEndEvents?)
    ensures BookSound(Next(y, step).db, initial, book)
  {
    if step.StepIndexEvent? {
      IndexEventBook(y, step, initial, book);
    } else {
      EndEventsBook(y, step, initial, book);
    }
  }

  lemma JobStepBook(y: System, step: Step, initial: Ledger.Accounts, book: Book)
    requires Kept(y, initial, book)
    requires step.StepInsertRecovered? || step.StepConfirm? || step.StepReconcile? || step.StepReady?
    ensures BookSound(Next(y, step).db, initial, book)
  {
    match step
    case StepInsertRecovered(_) => InsertBook(y, step, initial, book);
    case StepConfirm => ConfirmBook(y, step, initial, book);
    case StepReconcile(_, _, _) => ReconcileBook(y, step, initial, book);
    case StepReady => ReadyBook(y, step, initial, book);
  }

  lemma IndexerKeepsBook(y: System, step: Step, initial: Ledger.Accounts, book: Book)
    requires Kept(y, initial, book) && ByIndexer(step) && !Enters(step)
    ensures BookSound(Next(y, step).db, initial, book)
  {
    if step.StepIndexRow? || step.StepFinalize? {
      BlockStepBook(y, step, initial, book);
    } else if step.StepIndexEvent? || step.StepEndEvents? {
      EventStepBook(y, step, initial, book);
    } else {
      LateStepBook(y, step, initial, book);
    }
  }

  lemma LateStepBook(y: System, step: Step, initial: Ledger.Accounts, book: Book)
    requires Kept(y, initial, book) && ByIndexer(step) && !Enters(step)
    requires !(step.StepIndexRow? || step.StepFinalize? || step.StepIndexEvent? || step.StepEndEvents?)
    ensures BookSound(Next(y, step).db, initial, book)
  {
    if Moving(step) {
      MovingBook(y, step, initial, book);
    } else {
      JobStepBook(y, step, initial, book);
    }
  }

  lemma EntersBook(y: System, step: Step, initial: Ledger.Accounts, book: Book)
    requires Kept(y, initial, book) && Enters(step)
    ensures BookSound(Next(y, step).db, initial, Entered(y, step, book))
  {
    if step.StepApply? {
      ApplyBook(y, step, initial, book);
    } else {
      RollbackBook(y, step, initial, book);
    }
  }

  lemma OthersKeepBook(y: System, step: Step, initial: Ledger.Accounts, book: Book)
    requires Kept(y, initial, book) && !Enters(step)
    ensures BookSound(Next(y, step).db, initial, book)
  {
    if ByIndexer(step) {
      IndexerKeepsBook(y, step, initial, book);
    } else if Possible(y, step) {
      WorkKeepsBook(y, step, initial, book);
    }
  }

  lemma StepKeepsBook(y: System, step: Step, initial: Ledger.Accounts, book: Book)
    requires Kept(y, initial, book)
    ensures Kept(Next(y, step), initial, Entered(y, step, book))
  {
    StepKeepsCore(y, step);
    if Enters(step) {
      EntersBook(y, step, initial, book);
    } else {
      OthersKeepBook(y, step, initial, book);
    }
  }

  lemma {:induction false} RunKeepsBook(y: System, initial: Ledger.Accounts, book: Book, steps: seq<Step>)
    requires Kept(y, initial, book)
    ensures Kept(Run(y, steps), initial, BookOf(y, book, steps))
    decreases |steps|
  {
    if steps != [] {
      var earlier := steps[..|steps| - 1];
      RunKeepsBook(y, initial, book, earlier);
      StepKeepsBook(Run(y, earlier), steps[|steps| - 1], initial, BookOf(y, book, earlier));
    }
  }
}
