/**
  The checkpoint that a client reads off the chain is the one the gateway
  admits: what applying a receipt, or replaying a whole log, leaves in the
  outer account.
 */
module Checkpoints {
  import opened Common
  import opened Chain
  import opened ActionLog
  import opened Gateway
  import opened Runs
  import opened Core
  import opened Replaying
  import Recovery
  import Ledger

  // ---------- one receipt ----------

  /** A first settlement receipt makes its state and action the current checkpoint, and retires its command. */
  lemma SettlementIsCheckpoint(s: Store, id: JobId, tx: Hash, block: nat, hash: Hash, receipt: Receipt, t: Store)
    requires JobsConfigured(s) && receipt.SettlementReceipt? && !Ledger.Recorded(s.ledger.history, id)
    requires ApplyReceipt(s, id, tx, block, hash, receipt) == Success(t)
    ensures OuterAccount(t).Some?
    ensures AccountMatches(OuterAccount(t).value, Checkpoint(receipt.fields, receipt.after))
    ensures t.pending == s.pending - {id}
  {
    var app := ApplicationFor(s, id, block, hash, receipt);
    assert Names(s.outerKey, s.feeKey, s.jobs[id].input.submission);
    Ledger.SettlementChanges(s.ledger, app);
  }

  /** A first bridge receipt makes its last action the newest one and keeps the proved state and the pool. */
  lemma BridgeIsHead(s: Store, id: JobId, tx: Hash, block: nat, hash: Hash, receipt: Receipt, t: Store)
    requires receipt.BridgeReceipt? && !Ledger.Recorded(s.ledger.history, id)
    requires ApplyReceipt(s, id, tx, block, hash, receipt) == Success(t)
    ensures receipt.states != [] && OuterAccount(s).Some? && OuterAccount(t).Some?
    ensures HeadAction(OuterAccount(t).value, receipt.states[|receipt.states| - 1])
    ensures OuterAccount(t).value.zkappState == OuterAccount(s).value.zkappState && t.pending == s.pending
  {
    var app := ApplicationFor(s, id, block, hash, receipt);
    Ledger.BridgeAcceptedIff(s.ledger, app);
    Ledger.BridgeChanges(s.ledger, app);
  }

  // ---------- whole runs ----------

  /** The state proved by the last settlement of a log, if there is one. */
  function LastProved(log: seq<Event>): Option<seq<Field>> {
    if log == [] then None
    else
      match log[|log| - 1].receipt
      case SettlementReceipt(fields, _, _, _) => Some(fields)
      case BridgeReceipt(_, _, _) => LastProved(log[..|log| - 1])
  }

  /** The action state that an event leaves newest. */
  function NewestAction(receipt: Receipt): Field
    requires receipt.BridgeReceipt? ==> receipt.states != []
  {
    match receipt
    case SettlementReceipt(_, _, after, _) => after
    case BridgeReceipt(_, states, _) => states[|states| - 1]
  }

  lemma LastEffect(outerKey: Key, feeKey: Key, before: Ledger.Accounts, e: Event, after: Ledger.Accounts)
    requires Ledger.EffectOn(before, EventEffect(outerKey, feeKey, before, e)) == Success(after)
    ensures outerKey in before && outerKey in after
    ensures e.receipt.BridgeReceipt? ==> e.receipt.states != []
    ensures HeadAction(after[outerKey], NewestAction(e.receipt))
    ensures after[outerKey].zkappState ==
      if e.receipt.SettlementReceipt? then e.receipt.fields else before[outerKey].zkappState
  {
    var app := Ledger.Application(0, 0, 0, EventEffect(outerKey, feeKey, before, e));
    var state := Ledger.State(before, []);
    if e.receipt.SettlementReceipt? {
      Ledger.SettlementChanges(state, app);
    } else {
      Ledger.BridgeAcceptedIff(state, app);
      Ledger.BridgeChanges(state, app);
    }
  }

  lemma {:induction false} ReplayProves(outerKey: Key, feeKey: Key, initial: Ledger.Accounts, log: seq<Event>,
                                        accounts: Ledger.Accounts)
    requires ReplayEvents(outerKey, feeKey, initial, log) == Success(accounts) && outerKey in initial
    ensures outerKey in accounts
    ensures accounts[outerKey].zkappState == LastProved(log).GetOr(initial[outerKey].zkappState)
    decreases |log|
  {
    if log != [] {
      var n := |log| - 1;
      var before := ReplayEvents(outerKey, feeKey, initial, log[..n]).value;
      ReplayProves(outerKey, feeKey, initial, log[..n], before);
      LastEffect(outerKey, feeKey, before, log[n], accounts);
    }
  }

  /**
    In every run of either mode the outer account shows the state that the last
    replayed settlement proved, and the action that the last event left newest:
    the checkpoint of the chain at that event.
   */
  lemma AccountIsLastCheckpoint(mode: Mode, outerKey: Key, feeKey: Key, initial: Ledger.Accounts, steps: seq<Step>,
                                y: System, book: Book)
    requires Recovery.Arrives(mode, outerKey, feeKey, initial, steps, y, book) && outerKey in initial
    ensures outerKey in y.db.ledger.accounts
    ensures y.db.ledger.accounts[outerKey].zkappState == LastProved(book.log).GetOr(initial[outerKey].zkappState)
    ensures book.log != [] ==>
      var last := book.log[|book.log| - 1];
      && (last.receipt.BridgeReceipt? ==> last.receipt.states != [])
      && HeadAction(y.db.ledger.accounts[outerKey], NewestAction(last.receipt))
  {
    Recovery.ExactlyOnceReplay(mode, outerKey, feeKey, initial, steps, y, book);
    ReplayProves(outerKey, feeKey, initial, book.log, y.db.ledger.accounts);
    if book.log != [] {
      var n := |book.log| - 1;
      var before := ReplayEvents(outerKey, feeKey, initial, book.log[..n]).value;
      LastEffect(outerKey, feeKey, before, book.log[n], y.db.ledger.accounts);
    }
  }
}
