/**
  In Finalized mode the outer state has one writer: in every reachable state
  that is open for work, at most one job is live, and it holds the writer row.
 */
module Safety {
  import opened Common
  import opened Chain
  import opened ActionLog
  import opened Gateway
  import opened Runs
  import opened Quiet
  import Ledger

  // ---------- invariants of the tables ----------

  ghost predicate HashUnique(jobs: Jobs) {
    forall id, o, tx {:trigger CarriesHash(jobs[id], tx), CarriesHash(jobs[o], tx)} ::
      id in jobs && o in jobs && CarriesHash(jobs[id], tx) && CarriesHash(jobs[o], tx) ==> id == o
  }

  /** A non-null transaction hash is always the hash of the stored signed bytes. */
  predicate HashStored(j: Job) {
    j.prepared.Some? && j.txHash.Some? ==> j.txHash.value == j.prepared.value.hash
  }

  predicate HashesStored(jobs: Jobs) {
    forall id :: id in jobs ==> HashStored(jobs[id])
  }

  predicate EventsKeyed(s: Store) {
    forall tx :: tx in s.events ==> s.events[tx].tx == tx
  }

  predicate FlagsSane(rows: Rows) {
    forall n :: n in rows && rows[n].finalized ==> rows[n].canonical
  }

  ghost predicate Settled(s: Store, id: JobId) {
    id in s.jobs && exists tx :: FinalEvent(s, tx) && CarriesHash(s.jobs[id], tx)
  }

  predicate IncludedBy(s: Store, j: Job) {
    j.txHash.Some? && FinalEvent(s, j.txHash.value) &&
    var e := s.events[j.txHash.value];
    j.block == Some(Inclusion(e.block, e.hash))
  }

  /** A confirmed job was accepted in a final block. */
  predicate ConfirmedFinal(s: Store) {
    forall id :: id in s.jobs && s.jobs[id].status.Confirmed? ==> IncludedBy(s, s.jobs[id])
  }

  /** Rows rebuilt from Ethereum stay tied to their final event. */
  predicate RecoveredFinal(s: Store) {
    forall id :: id in s.jobs && s.jobs[id].input.recovered ==>
      (s.jobs[id].status.Confirmed? || s.jobs[id].status.Reorged?) && s.jobs[id].prepared.None?
        && IncludedBy(s, s.jobs[id])
  }

  /** Only finished or orphaned work has a hash without signed bytes. */
  predicate SignedWork(jobs: Jobs) {
    forall id :: id in jobs && jobs[id].txHash.Some? && jobs[id].prepared.None? ==>
      jobs[id].status.Confirmed? || jobs[id].status.Reorged? || jobs[id].status.EthereumReverted?
  }

  /** A live job owns the writer, or is orphaned although its outcome is on the final chain. */
  ghost predicate LiveOwned(s: Store) {
    forall id :: id in s.jobs && !Released(s.jobs[id]) ==>
      s.writer.job == Some(id) || (s.jobs[id].status.Reorged? && Settled(s, id))
  }

  predicate AllLiveAttached(s: Store) {
    forall id :: id in s.jobs && !Released(s.jobs[id]) ==> s.writer.job == Some(id)
  }

  ghost predicate TodoPending(s: Store, todo: seq<Event>) {
    && (forall i :: 0 <= i < |todo| ==> FinalEvent(s, todo[i].tx) && s.events[todo[i].tx] == todo[i])
    && (forall tx :: FinalEvent(s, tx) ==> s.events[tx] in todo || AlreadyApplied(s, tx))
  }

  ghost predicate AllApplied(s: Store) {
    forall tx :: FinalEvent(s, tx) ==> AlreadyApplied(s, tx)
  }

  /** What the indexer's position in its pass tells about the tables. */
  ghost predicate PhaseHolds(s: Store, phase: Phase) {
    match phase
    case Recovering(todo) => TodoPending(s, todo)
    case Applied(todo, id) =>
      todo != [] && TodoPending(s, todo) && id in s.jobs && CarriesHash(s.jobs[id], todo[0].tx)
      && Ledger.Recorded(s.ledger.history, id)
    case Reconciling => AllApplied(s) && AllLiveAttached(s)
    case _ => true
  }

  ghost predicate TablesSound(s: Store) {
    && s.mode.Finalized?
    && WriterChecked(s.writer) && NoProofFailures(s.jobs)
    && HashUnique(s.jobs) && HashesStored(s.jobs) && SignedWork(s.jobs)
    && EventsKeyed(s) && FlagsSane(s.rows)
    && ConfirmedFinal(s) && RecoveredFinal(s) && LiveOwned(s)
    && (s.ready ==> AllLiveAttached(s))
  }

  ghost predicate Inv(y: System) {
    TablesSound(y.db) && PhaseHolds(y.db, y.phase)
  }

  // ---------- HTTP and worker steps ----------

  lemma QuietFinalEvents(s: Store, t: Store)
    requires IsQuiet(s, t)
    ensures forall tx :: FinalEvent(s, tx) <==> FinalEvent(t, tx)
  {
  }

  lemma QuietHashes(s: Store, t: Store)
    requires IsQuiet(s, t) && TablesSound(s)
    ensures HashUnique(t.jobs) && HashesStored(t.jobs) && SignedWork(t.jobs) && NoProofFailures(t.jobs)
  {
    forall id | id in t.jobs
      ensures HashStored(t.jobs[id]) && !t.jobs[id].status.ProofFailed?
    {
      if id in s.jobs {
        assert Evolves(s.jobs[id], t.jobs[id]);
        assert HashStored(s.jobs[id]);
      }
    }
    forall id | id in t.jobs && t.jobs[id].txHash.Some? && t.jobs[id].prepared.None?
      ensures t.jobs[id].status.Confirmed? || t.jobs[id].status.Reorged? || t.jobs[id].status.EthereumReverted?
    {
      assert id in s.jobs && Evolves(s.jobs[id], t.jobs[id]);
    }
  }

  /** Orphaned and finished jobs keep their hash; so does any job whose hash is stored. */
  lemma CarriesKept(s: Store, t: Store, id: JobId, tx: Hash)
    requires IsQuiet(s, t) && TablesSound(s) && id in s.jobs && CarriesHash(s.jobs[id], tx)
    ensures id in t.jobs && CarriesHash(t.jobs[id], tx)
  {
    assert Evolves(s.jobs[id], t.jobs[id]) && HashStored(s.jobs[id]);
  }

  lemma QuietLive(s: Store, t: Store)
    requires IsQuiet(s, t) && TablesSound(s)
    ensures LiveOwned(t) && (AllLiveAttached(s) ==> AllLiveAttached(t))
    ensures t.ready ==> AllLiveAttached(t)
  {
    forall id | id in t.jobs && !Released(t.jobs[id]) && t.writer.job != Some(id)
      ensures t.jobs[id].status.Reorged? && Settled(t, id)
      ensures !AllLiveAttached(s)
    {
      assert id in s.jobs && Evolves(s.jobs[id], t.jobs[id]);
      assert !Released(s.jobs[id]);
      assert s.writer.job != Some(id);
      assert Settled(s, id);
      var tx :| FinalEvent(s, tx) && CarriesHash(s.jobs[id], tx);
      assert FinalEvent(t, tx) && CarriesHash(t.jobs[id], tx);
    }
  }

  lemma QuietConfirmed(s: Store, t: Store)
    requires IsQuiet(s, t) && TablesSound(s)
    ensures ConfirmedFinal(t) && RecoveredFinal(t)
  {
    QuietFinalEvents(s, t);
    forall id | id in t.jobs && (t.jobs[id].status.Confirmed? || t.jobs[id].input.recovered)
      ensures id in s.jobs && t.jobs[id] == s.jobs[id]
    {
      assert id in s.jobs && Evolves(s.jobs[id], t.jobs[id]);
    }
  }

  lemma QuietApplied(s: Store, t: Store, tx: Hash)
    requires IsQuiet(s, t) && AlreadyApplied(s, tx)
    ensures AlreadyApplied(t, tx)
  {
    var id :| id in s.jobs && s.jobs[id].txHash == Some(tx) && s.jobs[id].status.Confirmed?
      && Ledger.Recorded(s.ledger.history, id);
    assert Evolves(s.jobs[id], t.jobs[id]);
  }

  lemma QuietPhase(s: Store, t: Store, phase: Phase)
    requires IsQuiet(s, t) && TablesSound(s) && PhaseHolds(s, phase)
    ensures PhaseHolds(t, phase)
  {
    QuietFinalEvents(s, t);
    forall tx | AlreadyApplied(s, tx)
      ensures AlreadyApplied(t, tx)
    {
      QuietApplied(s, t, tx);
    }
    QuietLive(s, t);
    if phase.Applied? {
      CarriesKept(s, t, phase.id, phase.todo[0].tx);
    }
  }

  lemma QuietKeepsInv(y: System, t: Store)
    requires Inv(y) && IsQuiet(y.db, t)
    ensures TablesSound(t) && PhaseHolds(t, y.phase)
  {
    QuietHashes(y.db, t);
    QuietLive(y.db, t);
    QuietConfirmed(y.db, t);
    QuietPhase(y.db, t, y.phase);
  }

  // ---------- indexer steps ----------

  /** Final events persist, with their contents. */
  predicate FinalPersists(s: Store, t: Store) {
    forall tx :: tx in s.events && FinalEvent(s, tx) ==> FinalEvent(t, tx) && t.events[tx] == s.events[tx]
  }

  /** Only block and event rows moved, and no final event was lost. */
  lemma ChainOnlyKeepsTables(s: Store, t: Store)
    requires TablesSound(s) && FinalPersists(s, t) && EventsKeyed(t) && FlagsSane(t.rows)
    requires t.mode == s.mode && t.jobs == s.jobs && t.writer == s.writer && (t.ready ==> s.ready)
    ensures TablesSound(t)
  {
    forall id | id in t.jobs && !Released(t.jobs[id]) && t.writer.job != Some(id)
      ensures Settled(t, id)
    {
      var tx :| FinalEvent(s, tx) && CarriesHash(s.jobs[id], tx);
      assert FinalEvent(t, tx) && CarriesHash(t.jobs[id], tx);
    }
  }

  lemma IndexRowSafe(s: Store, b: Block)
    requires TablesSound(s) && Below(s.rows, b.number - 1)
    ensures TablesSound(s.(rows := InsertBlock(s.rows, b)))
  {
    var t := s.(rows := InsertBlock(s.rows, b));
    forall tx | FinalEvent(s, tx)
      ensures FinalEvent(t, tx)
    {
      assert Canonical(s.rows, s.events[tx].block);
    }
    ChainOnlyKeepsTables(s, t);
  }

  lemma FinalizeSafe(s: Store, through: Option<nat>)
    requires TablesSound(s) && MayFinalize(s, through)
    ensures TablesSound(s.(rows := Finalize(s.rows, through)))
  {
    ChainOnlyKeepsTables(s, s.(rows := Finalize(s.rows, through)));
  }

  lemma IndexEventSafe(s: Store, e: Event)
    requires TablesSound(s) && MinedOnce(s, e)
    ensures TablesSound(s.(events := s.events[e.tx := e]))
  {
    ChainOnlyKeepsTables(s, s.(events := s.events[e.tx := e]));
  }

  lemma EndEventsSafe(s: Store, cursor: int, todo: seq<Event>)
    requires TablesSound(s) && EventList(s, todo)
    ensures TablesSound(s.(cursor := cursor)) && TodoPending(s.(cursor := cursor), todo)
  {
    var t := s.(cursor := cursor);
    assert forall tx :: FinalEvent(s, tx) <==> FinalEvent(t, tx);
    ChainOnlyKeepsTables(s, t);
  }

  /** Nothing final is touched by a rollback that the finality guard lets through. */
  lemma RollbackPersists(s: Store, ancestor: nat, retry: Option<JobId>)
    requires TablesSound(s) && MayRollBack(s, ancestor)
    ensures FinalPersists(s, RollbackAfter(s, ancestor, retry))
    ensures forall id :: id in s.jobs && s.jobs[id].status.Confirmed? ==> !Above(s.jobs[id], ancestor)
    ensures forall id :: id in s.jobs ==> !Orphaned(s.jobs[id], ancestor)
    ensures RollbackAfter(s, ancestor, retry).jobs.Keys == s.jobs.Keys
  {
    var t := RollbackAfter(s, ancestor, retry);
    forall tx | tx in s.events && FinalEvent(s, tx)
      ensures FinalEvent(t, tx) && t.events[tx] == s.events[tx] && s.events[tx].block <= ancestor
    {
    }
    forall id | id in s.jobs && IncludedBy(s, s.jobs[id])
      ensures !Above(s.jobs[id], ancestor)
    {
    }
  }

  /** How a rollback changes a job when no final block is undone. */
  lemma RolledBackJob(s: Store, ancestor: nat, retry: Option<JobId>, id: JobId)
    requires TablesSound(s) && MayRollBack(s, ancestor) && id in s.jobs
    ensures var j, k := s.jobs[id], RolledBack(s, ancestor, retry, id);
      && k.prepared == j.prepared && k.kind == j.kind && k.input == j.input
      && (k.txHash == j.txHash || k.txHash.None?)
      && (k.status.Confirmed? ==> k == j)
      && (j.input.recovered ==> k == j.(status := Reorged) || k == j)
      && (k == j
          || (k == j.(status := Reorged) && Dependent(j.status))
          || ((k.status.Queued? || k.status.Approved?) && k.txHash.None? && j.status.Submitted?))
  {
    RollbackPersists(s, ancestor, retry);
  }

  lemma RollbackHashes(s: Store, ancestor: nat, retry: Option<JobId>)
    requires TablesSound(s) && MayRollBack(s, ancestor)
    ensures var jobs := RollbackAfter(s, ancestor, retry).jobs;
      HashUnique(jobs) && HashesStored(jobs) && SignedWork(jobs) && NoProofFailures(jobs)
  {
    var jobs := RollbackAfter(s, ancestor, retry).jobs;
    forall id | id in jobs
      ensures HashStored(jobs[id]) && !jobs[id].status.ProofFailed?
      ensures forall tx :: CarriesHash(jobs[id], tx) ==> CarriesHash(s.jobs[id], tx)
      ensures jobs[id].txHash.Some? && jobs[id].prepared.None? ==>
        jobs[id].status.Confirmed? || jobs[id].status.Reorged? || jobs[id].status.EthereumReverted?
    {
      RolledBackJob(s, ancestor, retry, id);
      assert HashStored(s.jobs[id]);
    }
  }

  lemma RollbackLive(s: Store, ancestor: nat, retry: Option<JobId>)
    requires TablesSound(s) && MayRollBack(s, ancestor)
    ensures LiveOwned(RollbackAfter(s, ancestor, retry))
  {
    var t := RollbackAfter(s, ancestor, retry);
    RollbackPersists(s, ancestor, retry);
    forall id | id in t.jobs && !Released(t.jobs[id]) && t.writer.job != Some(id)
      ensures t.jobs[id].status.Reorged? && Settled(t, id)
    {
      RolledBackJob(s, ancestor, retry, id);
      assert s.writer.job != Some(id);
      assert !Released(s.jobs[id]) || s.jobs[id].status.Confirmed?;
      if s.jobs[id].status.Confirmed? {
        assert IncludedBy(s, s.jobs[id]);
        assert FinalEvent(t, s.jobs[id].txHash.value) && CarriesHash(t.jobs[id], s.jobs[id].txHash.value);
      } else {
        var tx :| FinalEvent(s, tx) && CarriesHash(s.jobs[id], tx);
        assert FinalEvent(t, tx) && CarriesHash(t.jobs[id], tx);
      }
    }
  }

  lemma RollbackIncluded(s: Store, ancestor: nat, retry: Option<JobId>)
    requires TablesSound(s) && MayRollBack(s, ancestor)
    ensures ConfirmedFinal(RollbackAfter(s, ancestor, retry)) && RecoveredFinal(RollbackAfter(s, ancestor, retry))
  {
    var t := RollbackAfter(s, ancestor, retry);
    RollbackPersists(s, ancestor, retry);
    forall id | id in t.jobs && (t.jobs[id].status.Confirmed? || t.jobs[id].input.recovered)
      ensures IncludedBy(t, t.jobs[id])
      ensures t.jobs[id].input.recovered ==> t.jobs[id].prepared.None?
      ensures t.jobs[id].input.recovered ==> t.jobs[id].status.Confirmed? || t.jobs[id].status.Reorged?
    {
      RolledBackJob(s, ancestor, retry, id);
      assert IncludedBy(s, s.jobs[id]);
      assert FinalEvent(t, s.jobs[id].txHash.value);
    }
  }

  lemma RollbackFlags(s: Store, ancestor: nat, retry: Option<JobId>)
    requires EventsKeyed(s) && FlagsSane(s.rows)
    ensures EventsKeyed(RollbackAfter(s, ancestor, retry)) && FlagsSane(RollbackAfter(s, ancestor, retry).rows)
  {
  }

  lemma RollbackSafe(s: Store, ancestor: nat, retry: Option<JobId>)
    requires TablesSound(s) && MayRollBack(s, ancestor)
    ensures TablesSound(RollbackAfter(s, ancestor, retry))
  {
    RollbackHashes(s, ancestor, retry);
    RollbackLive(s, ancestor, retry);
    RollbackIncluded(s, ancestor, retry);
    RollbackFlags(s, ancestor, retry);
  }

  lemma SkipSafe(s: Store, todo: seq<Event>)
    requires EventsKeyed(s) && TodoPending(s, todo) && todo != [] && AlreadyApplied(s, todo[0].tx)
    ensures TodoPending(s, todo[1..])
  {
    forall tx | FinalEvent(s, tx)
      ensures s.events[tx] in todo[1..] || AlreadyApplied(s, tx)
    {
      if s.events[tx] in todo && s.events[tx] !in todo[1..] {
        assert s.events[tx] == todo[0];
      }
    }
  }

  /** Indexer changes to one job that keep events, blocks and the writer. */
  predicate SameChain(s: Store, t: Store) {
    t.mode == s.mode && t.writer == s.writer && t.rows == s.rows && t.events == s.events && t.ready == s.ready
  }

  lemma InsertedOwned(s: Store, id: JobId, e: Event)
    requires LiveOwned(s) && id !in s.jobs
    ensures LiveOwned(InsertRecovered(s, id, e))
  {
    var t := InsertRecovered(s, id, e);
    forall o | o in t.jobs && !Released(t.jobs[o]) && t.writer.job != Some(o)
      ensures t.jobs[o].status.Reorged? && Settled(t, o)
    {
      assert o in s.jobs;
      var tx :| FinalEvent(s, tx) && CarriesHash(s.jobs[o], tx);
      assert FinalEvent(t, tx) && CarriesHash(t.jobs[o], tx);
    }
  }

  lemma InsertKeepsApplied(s: Store, id: JobId, e: Event, tx: Hash)
    requires id !in s.jobs && AlreadyApplied(s, tx)
    ensures AlreadyApplied(InsertRecovered(s, id, e), tx)
  {
    var t := InsertRecovered(s, id, e);
    var o :| o in s.jobs && s.jobs[o].txHash == Some(tx) && s.jobs[o].status.Confirmed?
      && Ledger.Recorded(s.ledger.history, o);
    assert o in t.jobs && t.jobs[o] == s.jobs[o];
  }

  lemma InsertedIncluded(s: Store, id: JobId, e: Event)
    requires ConfirmedFinal(s) && RecoveredFinal(s) && FinalEvent(s, e.tx) && s.events[e.tx] == e && id !in s.jobs
    ensures ConfirmedFinal(InsertRecovered(s, id, e)) && RecoveredFinal(InsertRecovered(s, id, e))
  {
  }

  lemma InsertRecoveredSafe(s: Store, id: JobId, e: Event)
    requires TablesSound(s) && FinalEvent(s, e.tx) && s.events[e.tx] == e
    requires OwnerChoice(s.jobs, e.tx, None) && id !in s.jobs
    ensures TablesSound(InsertRecovered(s, id, e))
    ensures forall tx :: AlreadyApplied(s, tx) ==> AlreadyApplied(InsertRecovered(s, id, e), tx)
  {
    InsertedOwned(s, id, e);
    InsertedIncluded(s, id, e);
    forall tx | AlreadyApplied(s, tx)
      ensures AlreadyApplied(InsertRecovered(s, id, e), tx)
    {
      InsertKeepsApplied(s, id, e, tx);
    }
  }

  lemma LedgerOnlyKeepsTables(s: Store, t: Store)
    requires TablesSound(s) && t == s.(ledger := t.ledger, actions := t.actions, pending := t.pending)
    requires forall id :: Ledger.Recorded(s.ledger.history, id) ==> Ledger.Recorded(t.ledger.history, id)
    ensures TablesSound(t)
    ensures forall tx :: AlreadyApplied(s, tx) ==> AlreadyApplied(t, tx)
    ensures forall tx :: FinalEvent(t, tx) <==> FinalEvent(s, tx)
  {
    ChainOnlyKeepsTables(s, t);
    forall tx | AlreadyApplied(s, tx)
      ensures AlreadyApplied(t, tx)
    {
      var o :| o in s.jobs && s.jobs[o].txHash == Some(tx) && s.jobs[o].status.Confirmed?
        && Ledger.Recorded(s.ledger.history, o);
      assert t.jobs[o] == s.jobs[o];
    }
  }

  lemma ApplyRecords(l: Ledger.State, app: Ledger.Application)
    requires Ledger.Apply(l, app).Success?
    ensures Ledger.Recorded(Ledger.Apply(l, app).value.history, app.job)
    ensures forall id :: Ledger.Recorded(l.history, id) ==> Ledger.Recorded(Ledger.Apply(l, app).value.history, id)
  {
    if !Ledger.Recorded(l.history, app.job) {
      var rows := Ledger.RowsOf(l.accounts, app);
      assert rows[0].job == app.job;
      assert Ledger.Recorded(rows, app.job);
      Ledger.RecordedConcat(l.history, rows, app.job);
      forall id | Ledger.Recorded(l.history, id)
        ensures Ledger.Recorded(l.history + rows, id)
      {
        Ledger.RecordedConcat(l.history, rows, id);
      }
    }
  }

  lemma ReceiptSafe(s: Store, id: JobId, tx: Hash, block: nat, hash: Hash, receipt: Receipt)
    requires TablesSound(s) && ApplyReceipt(s, id, tx, block, hash, receipt).Success?
    ensures var t := ApplyReceipt(s, id, tx, block, hash, receipt).value;
      && TablesSound(t) && t.jobs == s.jobs && SameChain(s, t)
      && Ledger.Recorded(t.ledger.history, id)
      && (forall tx :: AlreadyApplied(s, tx) ==> AlreadyApplied(t, tx))
      && (forall tx :: FinalEvent(t, tx) <==> FinalEvent(s, tx))
  {
    ApplyRecords(s.ledger, ApplicationFor(s, id, block, hash, receipt));
    LedgerOnlyKeepsTables(s, ApplyReceipt(s, id, tx, block, hash, receipt).value);
  }

  lemma ConfirmHashes(s: Store, id: JobId, e: Event)
    requires TablesSound(s) && id in s.jobs && CarriesHash(s.jobs[id], e.tx)
    ensures var jobs := ConfirmRecovered(s, id, e).jobs;
      HashUnique(jobs) && HashesStored(jobs) && SignedWork(jobs) && NoProofFailures(jobs)
    ensures s.jobs[id].txHash.Some? ==> s.jobs[id].txHash == Some(e.tx)
  {
    var t := ConfirmRecovered(s, id, e);
    assert HashStored(s.jobs[id]);
    assert forall o, tx :: o in t.jobs && CarriesHash(t.jobs[o], tx) ==> CarriesHash(s.jobs[o], tx);
  }

  lemma ConfirmSafe(s: Store, id: JobId, e: Event)
    requires TablesSound(s) && id in s.jobs && CarriesHash(s.jobs[id], e.tx)
    requires FinalEvent(s, e.tx) && s.events[e.tx] == e
    ensures TablesSound(ConfirmRecovered(s, id, e))
  {
    var t := ConfirmRecovered(s, id, e);
    ConfirmHashes(s, id, e);
    assert forall tx :: FinalEvent(t, tx) <==> FinalEvent(s, tx);
    forall o | o in t.jobs && !Released(t.jobs[o]) && t.writer.job != Some(o)
      ensures t.jobs[o].status.Reorged? && Settled(t, o)
    {
      assert o != id && t.jobs[o] == s.jobs[o];
      var tx :| FinalEvent(s, tx) && CarriesHash(s.jobs[o], tx);
      assert FinalEvent(t, tx) && CarriesHash(t.jobs[o], tx);
    }
  }

  lemma ConfirmApplies(s: Store, id: JobId, e: Event)
    requires HashesStored(s.jobs) && id in s.jobs && CarriesHash(s.jobs[id], e.tx)
    requires Ledger.Recorded(s.ledger.history, id)
    ensures AlreadyApplied(ConfirmRecovered(s, id, e), e.tx)
    ensures forall tx :: AlreadyApplied(s, tx) ==> AlreadyApplied(ConfirmRecovered(s, id, e), tx)
  {
    var t := ConfirmRecovered(s, id, e);
    assert HashStored(s.jobs[id]);
    assert t.jobs[id].txHash == Some(e.tx) && t.jobs[id].status.Confirmed?;
    forall tx | AlreadyApplied(s, tx)
      ensures AlreadyApplied(t, tx)
    {
      var o :| o in s.jobs && s.jobs[o].txHash == Some(tx) && s.jobs[o].status.Confirmed?
        && Ledger.Recorded(s.ledger.history, o);
      assert t.jobs[o].txHash == Some(tx) && t.jobs[o].status.Confirmed?;
    }
  }

  lemma ConfirmPhase(s: Store, id: JobId, todo: seq<Event>)
    requires HashesStored(s.jobs) && EventsKeyed(s) && todo != [] && TodoPending(s, todo)
    requires id in s.jobs && CarriesHash(s.jobs[id], todo[0].tx) && Ledger.Recorded(s.ledger.history, id)
    ensures TodoPending(ConfirmRecovered(s, id, todo[0]), todo[1..])
  {
    var t := ConfirmRecovered(s, id, todo[0]);
    ConfirmApplies(s, id, todo[0]);
    forall tx | FinalEvent(t, tx)
      ensures t.events[tx] in todo[1..] || AlreadyApplied(t, tx)
    {
      assert FinalEvent(s, tx);
      if s.events[tx] in todo && s.events[tx] !in todo[1..] {
        assert s.events[tx] == todo[0];
      }
    }
  }

  /** Once every final event is applied, no orphan is left with a known outcome. */
  lemma RecoveryAttaches(s: Store)
    requires TablesSound(s) && TodoPending(s, [])
    ensures AllApplied(s) && AllLiveAttached(s)
  {
    forall id | id in s.jobs && !Released(s.jobs[id])
      ensures s.writer.job == Some(id)
    {
      if s.writer.job != Some(id) {
        var tx :| FinalEvent(s, tx) && CarriesHash(s.jobs[id], tx);
        assert AlreadyApplied(s, tx);
        var o :| o in s.jobs && s.jobs[o].txHash == Some(tx) && s.jobs[o].status.Confirmed?
          && Ledger.Recorded(s.ledger.history, o);
        assert CarriesHash(s.jobs[o], tx);
        assert false;
      }
    }
  }

  /** The one row a reconciliation changes, given a truthful node. */
  lemma ReconciledJob(s: Store, id: JobId, mined: Mined, final: bool)
    requires TablesSound(s) && ReceiptTruthful(s, id, mined, final) && Reconcilable(s, id, mined)
    ensures var j, k := s.jobs[id], Reconcile(s, id, mined, final).jobs[id];
      && k == j.(status := k.status, block := k.block)
      && (k.status.Confirmed? ==> IncludedBy(s, k))
      && (j.status.Confirmed? ==> k == j)
      && (FinalEvent(s, j.txHash.value) ==> k.status.Confirmed? || k == j)
      && (k.status.Reorged? ==> k == j)
      && (!Released(k) ==> !Released(j))
      && !k.status.ProofFailed?
  {
    assert s.jobs[id].status.Confirmed? ==> IncludedBy(s, s.jobs[id]);
  }

  lemma ReconcileHashes(s: Store, id: JobId, mined: Mined, final: bool)
    requires TablesSound(s) && ReceiptTruthful(s, id, mined, final)
    ensures var jobs := Reconcile(s, id, mined, final).jobs;
      HashUnique(jobs) && HashesStored(jobs) && SignedWork(jobs) && NoProofFailures(jobs)
  {
    if Reconcilable(s, id, mined) {
      var jobs := Reconcile(s, id, mined, final).jobs;
      ReconciledJob(s, id, mined, final);
      forall o | o in jobs
        ensures HashStored(jobs[o]) && !jobs[o].status.ProofFailed?
        ensures forall tx :: CarriesHash(jobs[o], tx) <==> CarriesHash(s.jobs[o], tx)
        ensures jobs[o].txHash.Some? && jobs[o].prepared.None? ==>
          jobs[o].status.Confirmed? || jobs[o].status.Reorged? || jobs[o].status.EthereumReverted?
      {
        assert HashStored(s.jobs[o]);
        if o == id && s.jobs[id].prepared.None? {
          assert s.jobs[id].status.Confirmed? || s.jobs[id].status.Reorged?;
        }
      }
    }
  }

  lemma ReconcileOwned(s: Store, id: JobId, mined: Mined, final: bool)
    requires TablesSound(s) && ReceiptTruthful(s, id, mined, final)
    ensures LiveOwned(Reconcile(s, id, mined, final))
    ensures AllLiveAttached(s) ==> AllLiveAttached(Reconcile(s, id, mined, final))
  {
    if Reconcilable(s, id, mined) {
      var t := Reconcile(s, id, mined, final);
      ReconciledJob(s, id, mined, final);
      forall o | o in t.jobs && !Released(t.jobs[o]) && t.writer.job != Some(o)
        ensures t.jobs[o].status.Reorged? && Settled(t, o) && !AllLiveAttached(s)
      {
        assert !Released(s.jobs[o]);
        var tx :| FinalEvent(s, tx) && CarriesHash(s.jobs[o], tx);
        assert FinalEvent(t, tx) && CarriesHash(t.jobs[o], tx);
      }
    }
  }

  lemma ReconcileIncluded(s: Store, id: JobId, mined: Mined, final: bool)
    requires TablesSound(s) && ReceiptTruthful(s, id, mined, final)
    ensures ConfirmedFinal(Reconcile(s, id, mined, final)) && RecoveredFinal(Reconcile(s, id, mined, final))
  {
    if Reconcilable(s, id, mined) {
      var t := Reconcile(s, id, mined, final);
      ReconciledJob(s, id, mined, final);
      forall o | o in t.jobs
        ensures t.jobs[o].status.Confirmed? ==> IncludedBy(s, t.jobs[o])
        ensures t.jobs[o].input.recovered ==> t.jobs[o] == s.jobs[o]
      {
        ReconciledIncluded(s, id, mined, final, o);
      }
      IncludedElsewhere(s, t);
    }
  }

  lemma ReconciledIncluded(s: Store, id: JobId, mined: Mined, final: bool, o: JobId)
    requires TablesSound(s) && ReceiptTruthful(s, id, mined, final) && Reconcilable(s, id, mined) && o in s.jobs
    ensures var k := Reconcile(s, id, mined, final).jobs[o];
      (k.status.Confirmed? ==> IncludedBy(s, k)) && (k.input.recovered ==> k == s.jobs[o])
  {
    ReconciledJob(s, id, mined, final);
    assert s.jobs[o].input.recovered ==> IncludedBy(s, s.jobs[o]);
  }

  lemma IncludedElsewhere(s: Store, t: Store)
    requires SameChain(s, t) && t.jobs.Keys == s.jobs.Keys && RecoveredFinal(s)
    requires forall o :: o in t.jobs ==>
      (t.jobs[o].status.Confirmed? ==> IncludedBy(s, t.jobs[o]))
        && (t.jobs[o].input.recovered ==> t.jobs[o] == s.jobs[o])
    ensures ConfirmedFinal(t) && RecoveredFinal(t)
  {
    assert forall j :: IncludedBy(s, j) ==> IncludedBy(t, j);
  }

  lemma ReconcileTables(s: Store, id: JobId, mined: Mined, final: bool)
    requires TablesSound(s) && ReceiptTruthful(s, id, mined, final)
    ensures TablesSound(Reconcile(s, id, mined, final))
  {
    ReconcileHashes(s, id, mined, final);
    ReconcileOwned(s, id, mined, final);
    ReconcileIncluded(s, id, mined, final);
  }

  lemma ReconcileApplied(s: Store, id: JobId, mined: Mined, final: bool, tx: Hash)
    requires TablesSound(s) && ReceiptTruthful(s, id, mined, final) && AlreadyApplied(s, tx)
    ensures AlreadyApplied(Reconcile(s, id, mined, final), tx)
  {
    var t := Reconcile(s, id, mined, final);
    var o :| o in s.jobs && s.jobs[o].txHash == Some(tx) && s.jobs[o].status.Confirmed?
      && Ledger.Recorded(s.ledger.history, o);
    if Reconcilable(s, id, mined) {
      ReconciledJob(s, id, mined, final);
    }
    assert t.jobs[o] == s.jobs[o];
  }

  lemma ReconcileSafe(s: Store, id: JobId, mined: Mined, final: bool)
    requires TablesSound(s) && ReceiptTruthful(s, id, mined, final) && PhaseHolds(s, Reconciling)
    ensures TablesSound(Reconcile(s, id, mined, final)) && PhaseHolds(Reconcile(s, id, mined, final), Reconciling)
  {
    ReconcileTables(s, id, mined, final);
    ReconcileOwned(s, id, mined, final);
    forall tx | FinalEvent(Reconcile(s, id, mined, final), tx)
      ensures AlreadyApplied(Reconcile(s, id, mined, final), tx)
    {
      assert FinalEvent(s, tx);
      ReconcileApplied(s, id, mined, final, tx);
    }
  }

  lemma SkipStepSafe(y: System, step: Step)
    requires Inv(y) && step.StepSkip?
    ensures Inv(IndexerNext(y, step))
  {
    if y.phase.Recovering? && y.phase.todo != [] && AlreadyApplied(y.db, y.phase.todo[0].tx) {
      SkipSafe(y.db, y.phase.todo);
    }
  }

  lemma InsertStepSafe(y: System, step: Step)
    requires Inv(y) && step.StepInsertRecovered?
    ensures Inv(IndexerNext(y, step))
  {
    var s := y.db;
    if y.phase.Recovering? && y.phase.todo != [] && OwnerChoice(s.jobs, y.phase.todo[0].tx, None)
      && step.id !in s.jobs
    {
      InsertRecoveredSafe(s, step.id, y.phase.todo[0]);
      assert forall tx :: FinalEvent(InsertRecovered(s, step.id, y.phase.todo[0]), tx) <==> FinalEvent(s, tx);
    }
  }

  lemma ApplyStepSafe(y: System, step: Step)
    requires Inv(y) && step.StepApply?
    ensures Inv(IndexerNext(y, step))
  {
    var s := y.db;
    if y.phase.Recovering? && y.phase.todo != [] {
      var e := y.phase.todo[0];
      if ApplyReceipt(s, step.id, e.tx, e.block, e.hash, e.receipt).Success? {
        ReceiptSafe(s, step.id, e.tx, e.block, e.hash, e.receipt);
      }
    }
  }

  lemma ConfirmStepSafe(y: System, step: Step)
    requires Inv(y) && step.StepConfirm?
    ensures Inv(IndexerNext(y, step))
  {
    if y.phase.Applied? && y.phase.todo != [] {
      ConfirmSafe(y.db, y.phase.id, y.phase.todo[0]);
      ConfirmPhase(y.db, y.phase.id, y.phase.todo);
    }
  }

  lemma EndRecoverySafe(y: System, step: Step)
    requires Inv(y) && step.StepEndRecovery?
    ensures Inv(IndexerNext(y, step))
  {
    if y.phase == Recovering([]) {
      RecoveryAttaches(y.db);
    }
  }

  lemma RecoveryStepSafe(y: System, step: Step)
    requires Inv(y)
    requires step.StepSkip? || step.StepInsertRecovered? || step.StepApply? || step.StepConfirm?
      || step.StepEndRecovery?
    ensures Inv(IndexerNext(y, step))
  {
    match step
    case StepSkip => SkipStepSafe(y, step);
    case StepInsertRecovered(_) => InsertStepSafe(y, step);
    case StepApply(_) => ApplyStepSafe(y, step);
    case StepConfirm => ConfirmStepSafe(y, step);
    case StepEndRecovery => EndRecoverySafe(y, step);
  }

  lemma IndexingStepSafe(y: System, step: Step)
    requires Inv(y)
    requires step.StepBeginTick? || step.StepAbortTick? || step.StepRollback? || step.StepIndexRow?
      || step.StepFinalize? || step.StepIndexEvent? || step.StepEndEvents?
    ensures Inv(IndexerNext(y, step))
  {
    var s := y.db;
    match step
    case StepBeginTick =>
    case StepAbortTick =>
    case StepRollback(ancestor, retry) => if MayRollBack(s, ancestor) { RollbackSafe(s, ancestor, retry); }
    case StepIndexRow(block) => if Below(s.rows, block.number - 1) { IndexRowSafe(s, block); }
    case StepFinalize(through) => if MayFinalize(s, through) { FinalizeSafe(s, through); }
    case StepIndexEvent(e) => if MinedOnce(s, e) { IndexEventSafe(s, e); }
    case StepEndEvents(head, todo) =>
      if EventList(s, todo) { EndEventsSafe(s, if s.cursor < head then head else s.cursor, todo); }
  }

  lemma ReconcilingStepSafe(y: System, step: Step)
    requires Inv(y) && (step.StepReconcileApply? || step.StepReconcile? || step.StepReady?)
    ensures Inv(IndexerNext(y, step))
  {
    var s := y.db;
    match step
    case StepReconcileApply(id, mined, receipt) =>
      if id in s.jobs && s.jobs[id].txHash.Some? {
        var tx := s.jobs[id].txHash.value;
        if ApplyReceipt(s, id, tx, mined.number, mined.hash, receipt).Success? {
          ReceiptSafe(s, id, tx, mined.number, mined.hash, receipt);
        }
      }
    case StepReconcile(id, mined, final) =>
      if y.phase.Reconciling? && ReceiptTruthful(s, id, mined, final) { ReconcileSafe(s, id, mined, final); }
    case StepReady =>
      if y.phase.Reconciling? {
        var t := s.(ready := true);
        assert forall tx :: FinalEvent(t, tx) <==> FinalEvent(s, tx);
        assert forall id :: Settled(s, id) ==> Settled(t, id);
      }
  }

  // ---------- whole runs ----------

  lemma ActorStepSafe(y: System, step: Step)
    requires Inv(y) && !ByIndexer(step)
    ensures Inv(Next(y, step))
  {
    if Possible(y, step) {
      TransactIsQuiet(y, step);
      QuietKeepsInv(y, Transact(y.db, step));
    }
  }

  lemma IndexerStepSafe(y: System, step: Step)
    requires Inv(y) && ByIndexer(step)
    ensures Inv(IndexerNext(y, step))
  {
    if step.StepSkip? || step.StepInsertRecovered? || step.StepApply? || step.StepConfirm? || step.StepEndRecovery? {
      RecoveryStepSafe(y, step);
    } else if step.StepReconcileApply? || step.StepReconcile? || step.StepReady? {
      ReconcilingStepSafe(y, step);
    } else {
      IndexingStepSafe(y, step);
    }
  }

  lemma StepKeepsInv(y: System, step: Step)
    requires Inv(y)
    ensures Inv(Next(y, step))
  {
    if ByIndexer(step) {
      IndexerStepSafe(y, step);
    } else {
      ActorStepSafe(y, step);
    }
  }

  lemma {:induction false} RunKeepsInv(y: System, steps: seq<Step>)
    requires Inv(y)
    ensures Inv(Run(y, steps))
    decreases |steps|
  {
    if steps != [] {
      RunKeepsInv(y, steps[..|steps| - 1]);
      StepKeepsInv(Run(y, steps[..|steps| - 1]), steps[|steps| - 1]);
    }
  }

  /**
    In Finalized mode, through any interleaving of admission, the worker,
    crashes, reorganizations and recovery: whenever the gateway is open for
    work, any two live jobs are the same job, and it is the writer's.
   */
  lemma AtMostOneLiveJob(outerKey: Key, feeKey: Key, accounts: Ledger.Accounts, steps: seq<Step>, y: System, id: JobId,
      other: JobId)
    requires y == Run(Initial(Finalized, outerKey, feeKey, accounts), steps) && y.db.ready
    requires id in y.db.jobs && other in y.db.jobs && !Released(y.db.jobs[id]) && !Released(y.db.jobs[other])
    ensures id == other && y.db.writer.job == Some(id)
  {
    RunKeepsInv(Initial(Finalized, outerKey, feeKey, accounts), steps);
  }
}
