/**
  From indexed deposits to a bridge proof and back: the batch a proof is asked
  for, and the outer-action sequence numbers its confirmed receipt assigns.
 */
module DepositBatch {
  import opened Common
  import opened Deposits
  import Chain

  const U32_MAX: nat := 0xFFFF_FFFF
  const GWEI: nat := 1_000_000_000

  /** The bridge contract's view of its own deposits at one block. */
  datatype BridgeState = BridgeState(
    paused: bool, depositNonce: nat, bridgedNonce: nat, currentState: Hash, checkpoint: Hash)

  datatype Item = Item(
    token: Key, asset: Hash, encoding: nat, index: nat, commitment: Hash,
    amount: nat, zekoAmount: nat, recipient: Hash, timeout: nat)

  datatype Batch = Batch(depositNonce: nat, depositState: Hash, items: seq<Item>)

  /** The nonce is the table's key. */
  predicate Keyed(table: Table) {
    forall n :: n in table ==> table[n].deposit.nonce == n
  }

  // ---------- the batch ----------

  /** The row of a nonce is live and its block is final. */
  predicate Eligible(table: Table, blocks: Chain.Rows, n: nat) {
    n in table && !table[n].removed && Chain.Final(blocks, table[n].block, table[n].hash)
  }

  /** The deposit can be proved: its timeout, amounts and token identity are as the prover expects. */
  predicate Provable(d: Deposit) {
    && d.timeout == U32_MAX && d.zekoAmount < U64_LIMIT
    && if d.token == 0 then d.amount == d.zekoAmount * GWEI && d.identity.None?
       else d.amount == d.zekoAmount && d.identity.Some? && d.identity.value.RegistryV2?
            && d.identity.value.asset != 0 && d.identity.value.commitment != 0
  }

  function ItemOf(d: Deposit): Item {
    match d.identity
    case Some(RegistryV2(asset, index, commitment)) =>
      Item(d.token, asset, 2, index, commitment, d.amount, d.zekoAmount, d.recipient, d.timeout)
    case _ => Item(d.token, 0, 0, 0, 0, d.amount, d.zekoAmount, d.recipient, d.timeout)
  }

  /**
    What the prover is told of a deposit: its own token, amounts, recipient and
    open timeout; no identity for ether, whose amount is its Zeko amount in wei;
    and for a token exactly its registry identity, one to one.
   */
  predicate Describes(item: Item, d: Deposit) {
    && item.token == d.token && item.recipient == d.recipient && item.timeout == d.timeout == 0xFFFF_FFFF
    && item.amount == d.amount && item.zekoAmount == d.zekoAmount < 0x1_0000_0000_0000_0000
    && if d.token == 0 then
         && d.identity.None? && item.amount == item.zekoAmount * 1_000_000_000
         && item.encoding == 0 && item.asset == 0 && item.index == 0 && item.commitment == 0
       else
         && d.identity == Some(RegistryV2(item.asset, item.index, item.commitment)) && item.encoding == 2
         && item.asset != 0 && item.commitment != 0 && item.amount == item.zekoAmount
  }

  /** A deposit can be proved exactly when some item describes it, and then by that item only. */
  lemma ProvableIff(d: Deposit, item: Item)
    ensures Describes(item, d) <==> Provable(d) && item == ItemOf(d)
  {
  }

  /** The accumulator before a nonce: the checkpoint, or what the previous deposit left. */
  predicate LinksAt(table: Table, bridge: BridgeState, n: nat)
    requires n in table
  {
    if n == bridge.bridgedNonce + 1 then table[n].deposit.oldState == bridge.checkpoint
    else n > 0 && n - 1 in table && table[n].deposit.oldState == table[n - 1].deposit.newState
  }

  /** When the unbridged deposits form one provable, unbroken batch. */
  predicate Batchable(table: Table, blocks: Chain.Rows, bridge: BridgeState) {
    && !bridge.paused && bridge.bridgedNonce < bridge.depositNonce
    && (forall n :: bridge.bridgedNonce < n <= bridge.depositNonce ==>
          Eligible(table, blocks, n) && LinksAt(table, bridge, n) && Provable(table[n].deposit))
    && bridge.depositNonce in table && table[bridge.depositNonce].deposit.newState == bridge.currentState
  }

  /** `WHERE nonce > low AND nonce <= high ... ORDER BY nonce`. */
  function Selected(table: Table, blocks: Chain.Rows, low: nat, high: nat): seq<DepositRow>
    requires low <= high
    decreases high - low
  {
    if low == high then []
    else Selected(table, blocks, low, high - 1) + if Eligible(table, blocks, high) then [table[high]] else []
  }

  /** Counting the rows decides that none is missing; then they are the rows in order. */
  lemma {:induction false} SelectedComplete(table: Table, blocks: Chain.Rows, low: nat, high: nat)
    requires low <= high
    ensures |Selected(table, blocks, low, high)| <= high - low
    ensures |Selected(table, blocks, low, high)| == high - low <==>
      (forall n :: low < n <= high ==> Eligible(table, blocks, n))
    ensures |Selected(table, blocks, low, high)| == high - low ==>
      forall n :: low < n <= high ==> n in table && Selected(table, blocks, low, high)[n - low - 1] == table[n]
    decreases high - low
  {
    if low < high {
      SelectedComplete(table, blocks, low, high - 1);
    }
  }

  method CheckDeposit(d: Deposit) returns (r: Result<Item>)
    ensures r.Success? <==> Provable(d)
    ensures r.Success? ==> r.value == ItemOf(d)
  {
    if d.timeout != U32_MAX {
      return Failure(Invalid);
    }
    if d.token == 0 {
      if d.amount != d.zekoAmount * GWEI || d.identity.Some? {
        return Failure(Mismatch);
      }
    } else {
      if d.amount != d.zekoAmount {
        return Failure(Mismatch);
      }
      if d.identity.None? || !d.identity.value.RegistryV2?
        || d.identity.value.asset == 0 || d.identity.value.commitment == 0
      {
        return Failure(Invalid);
      }
    }
    return if d.zekoAmount >= U64_LIMIT then Failure(Invalid) else Success(ItemOf(d));
  }

  /** The same conditions on the rows as the query gives them. */
  predicate RowGood(rows: seq<DepositRow>, bridge: BridgeState, i: nat)
    requires i < |rows|
  {
    && rows[i].deposit.nonce == bridge.bridgedNonce + 1 + i
    && rows[i].deposit.oldState == (if i == 0 then bridge.checkpoint else rows[i - 1].deposit.newState)
    && Provable(rows[i].deposit)
  }

  /** The loop over the rows, and the check of where it ends. */
  method ListItems(rows: seq<DepositRow>, bridge: BridgeState) returns (r: Result<seq<Item>>)
    requires rows != []
    ensures r.Success? <==>
      ((forall i :: 0 <= i < |rows| ==> RowGood(rows, bridge, i))
        && rows[|rows| - 1].deposit.newState == bridge.currentState)
    ensures r.Success? ==> |r.value| == |rows| && forall i :: 0 <= i < |rows| ==> r.value[i] == ItemOf(rows[i].deposit)
  {
    var expectedNonce := bridge.bridgedNonce + 1;
    var expectedState := bridge.checkpoint;
    var items: seq<Item> := [];
    for i := 0 to |rows|
      invariant expectedNonce == bridge.bridgedNonce + 1 + i && |items| == i
      invariant expectedState == if i == 0 then bridge.checkpoint else rows[i - 1].deposit.newState
      invariant forall k :: 0 <= k < i ==> RowGood(rows, bridge, k) && items[k] == ItemOf(rows[k].deposit)
    {
      var d := rows[i].deposit;
      if d.nonce != expectedNonce || d.oldState != expectedState {
        assert !RowGood(rows, bridge, i);
        return Failure(Mismatch);
      }
      var item := CheckDeposit(d);
      if item.Failure? {
        assert !RowGood(rows, bridge, i);
        return Failure(item.fault);
      }
      items := items + [item.value];
      expectedNonce := expectedNonce + 1;
      expectedState := d.newState;
    }
    return if expectedState == bridge.currentState then Success(items) else Failure(Mismatch);
  }

  lemma RowsDecide(table: Table, blocks: Chain.Rows, bridge: BridgeState, rows: seq<DepositRow>)
    requires Keyed(table) && bridge.bridgedNonce < bridge.depositNonce && !bridge.paused
    requires rows == Selected(table, blocks, bridge.bridgedNonce, bridge.depositNonce)
    requires |rows| == bridge.depositNonce - bridge.bridgedNonce
    ensures Batchable(table, blocks, bridge) <==>
      ((forall i :: 0 <= i < |rows| ==> RowGood(rows, bridge, i))
        && rows[|rows| - 1].deposit.newState == bridge.currentState)
  {
    var low := bridge.bridgedNonce;
    SelectedComplete(table, blocks, low, bridge.depositNonce);
    forall i | 0 <= i < |rows|
      ensures RowGood(rows, bridge, i) <==> LinksAt(table, bridge, low + 1 + i) && Provable(table[low + 1 + i].deposit)
    {
      assert rows[i] == table[low + 1 + i];
      assert i > 0 ==> rows[i - 1] == table[low + i];
    }
    assert rows[|rows| - 1] == table[bridge.depositNonce];
    if forall i :: 0 <= i < |rows| ==> RowGood(rows, bridge, i) {
      forall n | low < n <= bridge.depositNonce
        ensures LinksAt(table, bridge, n) && Provable(table[n].deposit)
      {
        assert RowGood(rows, bridge, n - low - 1);
      }
    }
  }

  /**
    `canonical_deposit_batch`.  It succeeds exactly when the unbridged deposits
    are complete, final, provable and chained from the checkpoint to the
    contract's current state, and then lists precisely those, in nonce order.
   */
  method CanonicalDepositBatch(table: Table, blocks: Chain.Rows, bridge: BridgeState) returns (r: Result<Batch>)
    requires Keyed(table)
    ensures r.Success? <==> Batchable(table, blocks, bridge)
    ensures r.Success? ==>
      r.value.depositNonce == bridge.bridgedNonce && r.value.depositState == bridge.checkpoint
      && |r.value.items| == bridge.depositNonce - bridge.bridgedNonce
    ensures r.Success? ==> forall n :: bridge.bridgedNonce < n <= bridge.depositNonce ==>
      n in table && Describes(r.value.items[n - bridge.bridgedNonce - 1], table[n].deposit)
    ensures r.Success? ==> !bridge.paused && Unbroken(table, bridge)
  {
    if bridge.paused {
      return Failure(Invalid);
    }
    if bridge.depositNonce <= bridge.bridgedNonce {
      return Failure(Missing);
    }
    var rows := Selected(table, blocks, bridge.bridgedNonce, bridge.depositNonce);
    SelectedComplete(table, blocks, bridge.bridgedNonce, bridge.depositNonce);
    if |rows| != bridge.depositNonce - bridge.bridgedNonce {
      return Failure(Missing);
    }
    RowsDecide(table, blocks, bridge, rows);
    r := BatchOf(table, bridge, rows);
  }

  /** The loop over the complete rows. */
  method BatchOf(ghost table: Table, bridge: BridgeState, rows: seq<DepositRow>) returns (r: Result<Batch>)
    requires RowsAre(table, bridge, rows)
    ensures r.Success? <==>
      ((forall i :: 0 <= i < |rows| ==> RowGood(rows, bridge, i))
        && rows[|rows| - 1].deposit.newState == bridge.currentState)
    ensures r.Success? ==>
      r.value.depositNonce == bridge.bridgedNonce && r.value.depositState == bridge.checkpoint
      && |r.value.items| == bridge.depositNonce - bridge.bridgedNonce && Unbroken(table, bridge)
    ensures r.Success? ==> forall n :: bridge.bridgedNonce < n <= bridge.depositNonce ==>
      n in table && Describes(r.value.items[n - bridge.bridgedNonce - 1], table[n].deposit)
  {
    var items :- ListItems(rows, bridge);
    RowsUnbroken(table, bridge, rows);
    forall n | bridge.bridgedNonce < n <= bridge.depositNonce
      ensures Describes(items[n - bridge.bridgedNonce - 1], table[n].deposit)
    {
      RowsDescribed(table, bridge, rows, items, n);
    }
    return Success(Batch(bridge.bridgedNonce, bridge.checkpoint, items));
  }

  /** The deposits' states lead from the checkpoint to the contract's current state without a gap. */
  predicate Unbroken(table: Table, bridge: BridgeState) {
    && bridge.bridgedNonce < bridge.depositNonce
    && (forall n :: bridge.bridgedNonce < n <= bridge.depositNonce ==> n in table)
    && table[bridge.bridgedNonce + 1].deposit.oldState == bridge.checkpoint
    && (forall n :: bridge.bridgedNonce < n < bridge.depositNonce ==>
          table[n + 1].deposit.oldState == table[n].deposit.newState)
    && table[bridge.depositNonce].deposit.newState == bridge.currentState
  }

  /** The rows of the range, in order and without a gap. */
  predicate RowsAre(table: Table, bridge: BridgeState, rows: seq<DepositRow>) {
    && rows != [] && |rows| == bridge.depositNonce - bridge.bridgedNonce
    && forall n :: bridge.bridgedNonce < n <= bridge.depositNonce ==>
         n in table && rows[n - bridge.bridgedNonce - 1] == table[n]
  }

  lemma RowsUnbroken(table: Table, bridge: BridgeState, rows: seq<DepositRow>)
    requires RowsAre(table, bridge, rows) && (forall i :: 0 <= i < |rows| ==> RowGood(rows, bridge, i))
    requires rows[|rows| - 1].deposit.newState == bridge.currentState
    ensures Unbroken(table, bridge)
  {
    assert RowGood(rows, bridge, 0);
    forall n | bridge.bridgedNonce < n < bridge.depositNonce
      ensures table[n + 1].deposit.oldState == table[n].deposit.newState
    {
      assert RowGood(rows, bridge, n - bridge.bridgedNonce);
    }
  }

  lemma RowsDescribed(table: Table, bridge: BridgeState, rows: seq<DepositRow>, items: seq<Item>, n: nat)
    requires RowsAre(table, bridge, rows) && (forall i :: 0 <= i < |rows| ==> RowGood(rows, bridge, i))
    requires |items| == |rows| && forall i :: 0 <= i < |rows| ==> items[i] == ItemOf(rows[i].deposit)
    requires bridge.bridgedNonce < n <= bridge.depositNonce
    ensures Describes(items[n - bridge.bridgedNonce - 1], table[n].deposit)
  {
    var i := n - bridge.bridgedNonce - 1;
    assert RowGood(rows, bridge, i);
    ProvableIff(rows[i].deposit, items[i]);
  }

  /** With an index that agrees with the chain, every batched deposit was emitted by a final block. */
  lemma BatchWasEmitted(w: Chain.World, table: Table, blocks: Chain.Rows, bridge: BridgeState, n: nat)
    requires Chain.Agrees(w, blocks, table) && Batchable(table, blocks, bridge)
    requires bridge.bridgedNonce < n <= bridge.depositNonce
    ensures n in table && table[n].deposit.nonce == n && table[n].deposit in w.deposits(table[n].hash)
    ensures Chain.Final(blocks, table[n].block, table[n].hash)
    ensures forall b: nat, d :: Chain.Canonical(blocks, b) && d in w.deposits(blocks[b].hash) && d.nonce == n ==>
      d == table[n].deposit && b == table[n].block
  {
    assert Eligible(table, blocks, n);
  }

  // ---------- queueing ----------

  predicate Lists(batch: Batch, n: nat) {
    batch.depositNonce < n <= batch.depositNonce + |batch.items|
  }

  /** The batch's rows now belong to the job that will prove them. */
  function Assign(table: Table, batch: Batch, job: nat): Table {
    map n | n in table ::
      if Lists(batch, n) && !table[n].removed
      then table[n].(binding := table[n].binding.(job := Some(job))) else table[n]
  }

  /** Queueing gives the job every live deposit of the batch, and touches nothing else. */
  lemma QueuedRows(table: Table, batch: Batch, job: nat, n: nat)
    requires n in table
    ensures Assign(table, batch, job).Keys == table.Keys
    ensures var row := Assign(table, batch, job)[n];
      if batch.depositNonce < n <= batch.depositNonce + |batch.items| && !table[n].removed
      then row == table[n].(binding := table[n].binding.(job := Some(job))) else row == table[n]
  {
  }

  // ---------- the confirmed receipt ----------

  /** The values a bridge proof publishes; one action per deposit, with the state it leaves. */
  datatype Receipt = Receipt(nonceBefore: nat, lengthBefore: nat, lengthAfter: nat, stateAfter: Field,
      actions: seq<Field>)

  predicate WellFormed(receipt: Receipt) {
    && receipt.actions != []
    && receipt.lengthAfter == receipt.lengthBefore + |receipt.actions| <= U32_MAX
    && receipt.actions[|receipt.actions| - 1] == receipt.stateAfter
    && receipt.nonceBefore + |receipt.actions| < U64_LIMIT
  }

  predicate Covers(receipt: Receipt, n: nat) {
    receipt.nonceBefore < n <= receipt.nonceBefore + |receipt.actions|
  }

  /** The row may take this job's numbers: it is live, and no other job has it. */
  predicate Bindable(table: Table, n: nat, job: nat) {
    n in table && !table[n].removed && (table[n].binding.job.None? || table[n].binding.job == Some(job))
  }

  function BoundRow(table: Table, job: nat, receipt: Receipt, n: nat): DepositRow
    requires n in table && Covers(receipt, n)
  {
    var k := n - receipt.nonceBefore - 1;
    table[n].(binding := Binding(Some(job), Some(receipt.lengthBefore + k + 1), Some(receipt.actions[k])))
  }

  ghost predicate Binds(table: Table, job: nat, receipt: Receipt) {
    WellFormed(receipt) && forall n :: Covers(receipt, n) ==> Bindable(table, n, job)
  }

  function Bound(table: Table, job: nat, receipt: Receipt): Table {
    map n | n in table :: if Covers(receipt, n) then BoundRow(table, job, receipt, n) else table[n]
  }

  /** The deposit part of `apply_confirmed_bridge`; a receipt that does not map commits nothing. */
  method BindReceipt(table: Table, job: nat, receipt: Receipt) returns (r: Result<Table>)
    ensures r.Success? <==> Binds(table, job, receipt)
    ensures r.Success? ==> r.value == Bound(table, job, receipt)
  {
    if receipt.actions == [] {
      return Failure(Invalid);
    }
    if receipt.lengthBefore + |receipt.actions| > U32_MAX
      || receipt.lengthAfter != receipt.lengthBefore + |receipt.actions|
    {
      return Failure(Invalid);
    }
    if receipt.actions[|receipt.actions| - 1] != receipt.stateAfter {
      return Failure(Mismatch);
    }
    var current := table;
    for k := 0 to |receipt.actions|
      invariant receipt.nonceBefore + k < U64_LIMIT || k == 0
      invariant current.Keys == table.Keys
      invariant forall n :: receipt.nonceBefore < n <= receipt.nonceBefore + k ==>
        Bindable(table, n, job) && Covers(receipt, n) && current[n] == BoundRow(table, job, receipt, n)
      invariant forall n :: n in table && !(receipt.nonceBefore < n <= receipt.nonceBefore + k) ==>
        current[n] == table[n]
    {
      var nonce := receipt.nonceBefore + k + 1;
      if nonce >= U64_LIMIT {
        return Failure(Invalid);
      }
      if nonce !in current || current[nonce].removed
        || (current[nonce].binding.job.Some? && current[nonce].binding.job.value != job)
      {
        assert Covers(receipt, nonce) && !Bindable(table, nonce, job);
        return Failure(Missing);
      }
      var sequence := receipt.lengthBefore + k + 1;
      current := current[nonce :=
        current[nonce].(binding := Binding(Some(job), Some(sequence), Some(receipt.actions[k])))];
    }
    assert current == Bound(table, job, receipt);
    return Success(current);
  }

  /** Each deposit of the receipt gets the job, the next sequence number and its action's state; no other changes. */
  lemma BoundRows(table: Table, job: nat, receipt: Receipt, n: nat)
    requires Binds(table, job, receipt) && n in table
    ensures Bound(table, job, receipt).Keys == table.Keys
    ensures var row, k := Bound(table, job, receipt)[n], n - receipt.nonceBefore;
      if 1 <= k <= |receipt.actions|
      then row == table[n].(binding :=
             Binding(Some(job), Some(receipt.lengthBefore + k), Some(receipt.actions[k - 1])))
      else row == table[n]
  {
  }

  /** Applying the same receipt again, after a crash, changes nothing. */
  lemma RebindingIsIdempotent(table: Table, job: nat, receipt: Receipt)
    requires Binds(table, job, receipt)
    ensures Binds(Bound(table, job, receipt), job, receipt)
    ensures Bound(Bound(table, job, receipt), job, receipt) == Bound(table, job, receipt)
  {
    var bound := Bound(table, job, receipt);
    forall n | Covers(receipt, n)
      ensures Bindable(bound, n, job)
    {
      assert Bindable(table, n, job);
    }
  }

  /** The sequence number a nonce has after the receipt. */
  function SequenceOf(table: Table, n: nat): Option<nat> {
    if n in table then table[n].binding.sequence else None
  }

  /**
    A receipt numbers its deposits by an order-preserving bijection from its
    nonces onto the outer sequences (lengthBefore, lengthAfter].
   */
  lemma SequencesAreBijective(table: Table, job: nat, receipt: Receipt)
    requires Binds(table, job, receipt)
    ensures var bound := Bound(table, job, receipt);
      && (forall n :: Covers(receipt, n) ==>
            SequenceOf(bound, n).Some? && receipt.lengthBefore < SequenceOf(bound, n).value <= receipt.lengthAfter)
      && (forall m, n :: Covers(receipt, m) && Covers(receipt, n) && m < n ==>
            SequenceOf(bound, m).GetOr(0) < SequenceOf(bound, n).GetOr(0))
      && (forall s: nat :: receipt.lengthBefore < s <= receipt.lengthAfter ==>
            Covers(receipt, s - receipt.lengthBefore + receipt.nonceBefore)
            && SequenceOf(bound, s - receipt.lengthBefore + receipt.nonceBefore) == Some(s))
  {
    forall n | Covers(receipt, n)
      ensures SequenceOf(Bound(table, job, receipt), n) == Some(receipt.lengthBefore + n - receipt.nonceBefore)
    {
      assert Bindable(table, n, job);
    }
  }

  // ---------- between queueing and the receipt ----------

  /**
    What may happen to the table meanwhile: blocks are indexed or rolled back,
    bindings are freed, a batch is queued for a job, or a job's receipt arrives.
   */
  datatype Change =
    | Indexed(deposits: seq<Deposit>, block: nat, hash: Hash)
    | Removed(ancestor: int)
    | Cleared(jobs: set<nat>)
    | Queued(batch: Batch, job: nat)
    | Confirmed(job: nat, receipt: Receipt)

  ghost function Changed(table: Table, change: Change): Table {
    match change
    case Indexed(deposits, block, hash) => Chain.UpsertAll(table, deposits, block, hash)
    case Removed(ancestor) => MarkRemoved(table, ancestor)
    case Cleared(jobs) => ClearBindings(table, jobs)
    case Queued(batch, job) => Assign(table, batch, job)
    case Confirmed(job, receipt) => if Binds(table, job, receipt) then Bound(table, job, receipt) else table
  }

  ghost function ChangedAll(table: Table, changes: seq<Change>): Table {
    if changes == [] then table
    else Changed(ChangedAll(table, changes[..|changes| - 1]), changes[|changes| - 1])
  }

  /** No other job has the row. */
  predicate Free(table: Table, n: nat, job: nat) {
    n in table && (table[n].binding.job.None? || table[n].binding.job == Some(job))
  }

  /** The row goes to another job: a batch with it is queued, or a receipt that maps onto it arrives. */
  ghost predicate Takes(table: Table, change: Change, n: nat, job: nat) {
    match change
    case Queued(batch, other) => other != job && Lists(batch, n) && n in table && !table[n].removed
    case Confirmed(other, receipt) => other != job && Binds(table, other, receipt) && Covers(receipt, n)
    case _ => false
  }

  /** Another job's row is given up: a rollback frees it, or it is queued for this job again. */
  predicate Frees(table: Table, change: Change, n: nat, job: nat) {
    match change
    case Cleared(jobs) => n in table && table[n].binding.job.Some? && table[n].binding.job.value in jobs
    case Queued(batch, other) => other == job && Lists(batch, n) && n in table && !table[n].removed
    case _ => false
  }

  lemma {:induction false} IndexingSameOwner(table: Table, ds: seq<Deposit>, block: nat, hash: Hash, n: nat)
    requires n in table
    ensures n in Chain.UpsertAll(table, ds, block, hash)
    ensures Chain.UpsertAll(table, ds, block, hash)[n].binding == table[n].binding
  {
    if ds != [] {
      IndexingSameOwner(table, ds[..|ds| - 1], block, hash, n);
    }
  }

  lemma ReceiptFreeIff(table: Table, other: nat, receipt: Receipt, n: nat, job: nat)
    requires n in table
    ensures Free(Changed(table, Confirmed(other, receipt)), n, job) <==>
      Free(table, n, job) && !Takes(table, Confirmed(other, receipt), n, job)
  {
    if Binds(table, other, receipt) && Covers(receipt, n) {
      assert Bindable(table, n, other);
    }
  }

  /** A change leaves a row free exactly when it was and stays so, or is made so. */
  lemma ChangeFreeIff(table: Table, change: Change, n: nat, job: nat)
    requires n in table
    ensures n in Changed(table, change)
    ensures Free(Changed(table, change), n, job) <==>
      !Takes(table, change, n, job) && (Free(table, n, job) || Frees(table, change, n, job))
  {
    match change
    case Indexed(ds, block, hash) => IndexingSameOwner(table, ds, block, hash, n);
    case Confirmed(other, receipt) => ReceiptFreeIff(table, other, receipt, n, job);
    case _ =>
  }

  /** Some change gave the row to another job, and none since has given it up. */
  ghost predicate TakenOver(table: Table, changes: seq<Change>, n: nat, job: nat) {
    exists k :: 0 <= k < |changes| && TakenSince(table, changes, k, n, job)
  }

  ghost predicate TakenSince(table: Table, changes: seq<Change>, k: nat, n: nat, job: nat)
    requires k < |changes|
  {
    Takes(ChangedAll(table, changes[..k]), changes[k], n, job)
    && forall m :: k < m < |changes| ==> !FreesAt(table, changes, m, n, job)
  }

  ghost predicate FreesAt(table: Table, changes: seq<Change>, m: nat, n: nat, job: nat)
    requires m < |changes|
  {
    Frees(ChangedAll(table, changes[..m]), changes[m], n, job)
  }

  lemma TakenSinceFurther(table: Table, changes: seq<Change>, last: Change, k: nat, n: nat, job: nat)
    requires k < |changes|
    ensures TakenSince(table, changes + [last], k, n, job) <==>
      TakenSince(table, changes, k, n, job) && !Frees(ChangedAll(table, changes), last, n, job)
  {
    var all := changes + [last];
    assert all[..|changes|] == changes && all[..k] == changes[..k];
    forall m | 0 <= m < |changes|
      ensures FreesAt(table, all, m, n, job) <==> FreesAt(table, changes, m, n, job)
    {
      assert all[..m] == changes[..m];
    }
    assert FreesAt(table, all, |changes|, n, job) <==> Frees(ChangedAll(table, changes), last, n, job);
  }

  lemma TakenOverFurther(table: Table, changes: seq<Change>, last: Change, n: nat, job: nat)
    ensures TakenOver(table, changes + [last], n, job) <==>
      Takes(ChangedAll(table, changes), last, n, job)
      || (TakenOver(table, changes, n, job) && !Frees(ChangedAll(table, changes), last, n, job))
  {
    assert (changes + [last])[..|changes|] == changes;
    assert TakenSince(table, changes + [last], |changes|, n, job) <==> Takes(ChangedAll(table, changes), last, n, job);
    forall k: nat | k < |changes|
      ensures TakenSince(table, changes + [last], k, n, job) <==>
        TakenSince(table, changes, k, n, job) && !Frees(ChangedAll(table, changes), last, n, job)
    {
      TakenSinceFurther(table, changes, last, k, n, job);
    }
  }

  /** A row that was free stays so, except while it is taken over. */
  lemma {:induction false} FreeUnlessTaken(table: Table, changes: seq<Change>, n: nat, job: nat)
    requires Free(table, n, job)
    ensures n in ChangedAll(table, changes)
    ensures Free(ChangedAll(table, changes), n, job) <==> !TakenOver(table, changes, n, job)
  {
    if changes != [] {
      var earlier, last := changes[..|changes| - 1], changes[|changes| - 1];
      assert changes == earlier + [last];
      FreeUnlessTaken(table, earlier, n, job);
      TakenOverFurther(table, earlier, last, n, job);
      ChangeFreeIff(ChangedAll(table, earlier), last, n, job);
    }
  }

  lemma QueuedIsFree(table: Table, blocks: Chain.Rows, bridge: BridgeState, batch: Batch, job: nat, n: nat)
    requires Batchable(table, blocks, bridge) && batch.depositNonce == bridge.bridgedNonce
    requires |batch.items| == bridge.depositNonce - bridge.bridgedNonce
    requires bridge.bridgedNonce < n <= bridge.depositNonce
    ensures Free(Assign(table, batch, job), n, job)
  {
    assert Eligible(table, blocks, n);
  }

  /** A deposit of the batch is on the chain, and no other job has taken it over since. */
  ghost predicate StillOurs(queued: Table, changes: seq<Change>, n: nat, job: nat) {
    n in ChangedAll(queued, changes) && !ChangedAll(queued, changes)[n].removed && !TakenOver(queued, changes, n, job)
  }

  /**
    Whatever happens between queueing a batch and confirming it, the receipt
    maps onto the batch's deposits exactly when all of them are on the chain and
    no other job has taken one over; and it never maps onto any others.
   */
  lemma QueuedBatchBindsIff(table: Table, blocks: Chain.Rows, bridge: BridgeState, batch: Batch, job: nat,
                            changes: seq<Change>, receipt: Receipt)
    requires Batchable(table, blocks, bridge) && WellFormed(receipt)
    requires batch.depositNonce == bridge.bridgedNonce && |batch.items| == bridge.depositNonce - bridge.bridgedNonce
    requires receipt.nonceBefore == batch.depositNonce && |receipt.actions| == |batch.items|
    ensures var queued := Assign(table, batch, job);
      Binds(ChangedAll(queued, changes), job, receipt) <==>
        forall n :: bridge.bridgedNonce < n <= bridge.depositNonce ==> StillOurs(queued, changes, n, job)
    ensures forall n: nat :: Covers(receipt, n) <==> bridge.bridgedNonce < n <= bridge.depositNonce
  {
    var queued := Assign(table, batch, job);
    var later := ChangedAll(queued, changes);
    forall n | Covers(receipt, n)
      ensures Bindable(later, n, job) <==> StillOurs(queued, changes, n, job)
    {
      QueuedIsFree(table, blocks, bridge, batch, job, n);
      FreeUnlessTaken(queued, changes, n, job);
    }
    if Binds(later, job, receipt) {
      forall n | bridge.bridgedNonce < n <= bridge.depositNonce
        ensures StillOurs(queued, changes, n, job)
      {
        assert Covers(receipt, n) && Bindable(later, n, job);
      }
    }
  }
}
