/**
  The table of outer actions that the gateway serves as Mina actions, and the
  two different ways in which confirmed receipts write to it.
 */
module ActionLog {
  import opened Common

  /** What an accepted transaction publishes; a bridge publishes one state for each deposit. */
  datatype Receipt =
    | SettlementReceipt(fields: seq<Field>, before: Field, after: Field, sequence: nat)
    | BridgeReceipt(before: Field, states: seq<Field>, length: nat)

  /** The unique columns: transaction hash, log index and sequence. */
  datatype ActionKey = ActionKey(tx: Hash, log: nat, sequence: nat)

  datatype ActionRow = ActionRow(address: Key, before: Field, after: Field, block: nat, hash: Hash, removed: bool)

  type ActionTable = map<ActionKey, ActionRow>

  /** A receipt with its place on the chain and the account it acts on. */
  datatype Posting = Posting(address: Key, tx: Hash, block: nat, hash: Hash, receipt: Receipt)

  // ---------- what a posting should leave in the table ----------

  function Count(p: Posting): nat {
    if p.receipt.SettlementReceipt? then 1 else |p.receipt.states|
  }

  function KeyAt(p: Posting, i: nat): ActionKey {
    match p.receipt
    case SettlementReceipt(_, _, _, sequence) => ActionKey(p.tx, 0, sequence)
    case BridgeReceipt(_, _, length) => ActionKey(p.tx, i, length + i + 1)
  }

  function RowAt(p: Posting, i: nat): ActionRow
    requires i < Count(p)
  {
    match p.receipt
    case SettlementReceipt(_, before, after, _) => ActionRow(p.address, before, after, p.block, p.hash, false)
    case BridgeReceipt(before, states, _) =>
      ActionRow(p.address, if i == 0 then before else states[i - 1], states[i], p.block, p.hash, false)
  }

  predicate HasKey(p: Posting, k: ActionKey) {
    exists i :: 0 <= i < Count(p) && KeyAt(p, i) == k
  }

  /** The live rows of some postings, each with its own contents and inclusion. */
  ghost predicate Shows(table: ActionTable, postings: seq<Posting>) {
    && (forall k :: k in table && !table[k].removed ==>
          exists n :: 0 <= n < |postings| && HasKey(postings[n], k))
    && (forall n :: 0 <= n < |postings| ==> Posted(table, postings[n]))
  }

  predicate Posted(table: ActionTable, p: Posting) {
    forall i :: 0 <= i < Count(p) ==> KeyAt(p, i) in table && table[KeyAt(p, i)] == RowAt(p, i)
  }

  // ---------- what the program does ----------

  /**
    The settlement insert only clears the removed flag of a row it finds; the
    bridge insert also renews the states and the inclusion block.
   */
  function Upsert(table: ActionTable, p: Posting, i: nat): ActionTable
    requires i < Count(p)
  {
    var k, row := KeyAt(p, i), RowAt(p, i);
    if k !in table then table[k := row]
    else if p.receipt.SettlementReceipt? then table[k := table[k].(removed := false)]
    else table[k := row.(address := table[k].address)]
  }

  function WriteFirst(table: ActionTable, p: Posting, n: nat): ActionTable
    requires n <= Count(p)
  {
    if n == 0 then table else Upsert(WriteFirst(table, p, n - 1), p, n - 1)
  }

  function Write(table: ActionTable, p: Posting): ActionTable {
    WriteFirst(table, p, Count(p))
  }

  /** `removed = TRUE WHERE NOT removed AND ethereum_block_number > ancestor`. */
  function MarkRemoved(table: ActionTable, ancestor: int): ActionTable {
    map k | k in table :: if table[k].block > ancestor then table[k].(removed := true) else table[k]
  }

  /** The row an upsert leaves behind. */
  function Upserted(table: ActionTable, p: Posting, i: nat): ActionRow
    requires i < Count(p)
  {
    var k := KeyAt(p, i);
    if k !in table then RowAt(p, i)
    else if p.receipt.SettlementReceipt? then table[k].(removed := false)
    else RowAt(p, i).(address := table[k].address)
  }

  lemma {:induction false} WriteFirstElsewhere(table: ActionTable, p: Posting, n: nat)
    requires n <= Count(p)
    ensures var after := WriteFirst(table, p, n);
      forall k :: (forall i :: 0 <= i < n ==> KeyAt(p, i) != k) ==>
        (k in after <==> k in table) && (k in table ==> after[k] == table[k])
  {
    if n > 0 {
      WriteFirstElsewhere(table, p, n - 1);
    }
  }

  lemma {:induction false} WriteFirstOwn(table: ActionTable, p: Posting, n: nat, i: nat)
    requires i < n <= Count(p)
    ensures KeyAt(p, i) in WriteFirst(table, p, n) && WriteFirst(table, p, n)[KeyAt(p, i)] == Upserted(table, p, i)
  {
    KeysApart(p, n - 1);
    WriteFirstElsewhere(table, p, n - 1);
    UpsertIs(table, WriteFirst(table, p, n - 1), p, n - 1);
    if i < n - 1 {
      WriteFirstOwn(table, p, n - 1, i);
    }
  }

  /** Writing touches the posting's own keys, each once. */
  lemma WriteFirstContents(table: ActionTable, p: Posting, n: nat)
    requires n <= Count(p)
    ensures var after := WriteFirst(table, p, n);
      && (forall i :: 0 <= i < n ==> KeyAt(p, i) in after && after[KeyAt(p, i)] == Upserted(table, p, i))
      && (forall k :: (forall i :: 0 <= i < n ==> KeyAt(p, i) != k) ==>
            (k in after <==> k in table) && (k in table ==> after[k] == table[k]))
  {
    forall i | 0 <= i < n
      ensures KeyAt(p, i) in WriteFirst(table, p, n) && WriteFirst(table, p, n)[KeyAt(p, i)] == Upserted(table, p, i)
    {
      WriteFirstOwn(table, p, n, i);
    }
    WriteFirstElsewhere(table, p, n);
  }

  lemma UpsertIs(table: ActionTable, before: ActionTable, p: Posting, i: nat)
    requires i < Count(p) && (KeyAt(p, i) in before <==> KeyAt(p, i) in table)
    requires KeyAt(p, i) in table ==> before[KeyAt(p, i)] == table[KeyAt(p, i)]
    ensures Upsert(before, p, i) == before[KeyAt(p, i) := Upserted(table, p, i)]
  {
  }

  lemma KeysApart(p: Posting, n: nat)
    requires n < Count(p)
    ensures forall i :: 0 <= i < n ==> KeyAt(p, i) != KeyAt(p, n)
  {
  }

  // ---------- when the table is right ----------

  /** The stored row, if there is one, already says what the posting says. */
  predicate Unmoved(table: ActionTable, p: Posting) {
    p.receipt.SettlementReceipt? && KeyAt(p, 0) in table ==> table[KeyAt(p, 0)].(removed := false) == RowAt(p, 0)
  }

  predicate Addressed(table: ActionTable, address: Key) {
    forall k :: k in table ==> table[k].address == address
  }

  /** Transactions of different postings are different. */
  predicate TxsDistinct(postings: seq<Posting>) {
    forall m, n :: 0 <= m < n < |postings| ==> postings[m].tx != postings[n].tx
  }

  /** A posting is written as it should be exactly when no older inclusion of it is in the way. */
  lemma PostedIff(table: ActionTable, p: Posting)
    requires Addressed(table, p.address)
    ensures Posted(Write(table, p), p) <==> Unmoved(table, p)
    ensures Addressed(Write(table, p), p.address)
  {
    WriteFirstContents(table, p, Count(p));
    var after := Write(table, p);
    if p.receipt.SettlementReceipt? {
      assert KeyAt(p, 0) in after && after[KeyAt(p, 0)] == Upserted(table, p, 0);
    }
    forall k | k in after
      ensures after[k].address == p.address
    {
      if i :| 0 <= i < Count(p) && KeyAt(p, i) == k {
        assert after[KeyAt(p, i)] == Upserted(table, p, i);
      }
    }
  }

  /** The row of a published action: under its sequence number, between its two states, at its inclusion. */
  predicate Stored(table: ActionTable, p: Posting, log: nat, sequence: nat, before: Field, after: Field) {
    var k := ActionKey(p.tx, log, sequence);
    k in table && table[k] == ActionRow(p.address, before, after, p.block, p.hash, false)
  }

  /**
    What is written of a bridge, whatever the table held: one row for each
    action, numbered on from the length before, chained from the state before.
   */
  lemma BridgeRows(table: ActionTable, p: Posting, i: nat)
    requires p.receipt.BridgeReceipt? && i < |p.receipt.states| && Addressed(table, p.address)
    ensures Stored(Write(table, p), p, i, p.receipt.length + i + 1,
                   if i == 0 then p.receipt.before else p.receipt.states[i - 1], p.receipt.states[i])
  {
    PostedIff(table, p);
    assert KeyAt(p, i) in Write(table, p) && Write(table, p)[KeyAt(p, i)] == RowAt(p, i);
  }

  /** And of a settlement that the table does not know yet: one row, at log index zero. */
  lemma SettlementRow(table: ActionTable, p: Posting)
    requires p.receipt.SettlementReceipt? && Addressed(table, p.address)
    requires ActionKey(p.tx, 0, p.receipt.sequence) !in table
    ensures Stored(Write(table, p), p, 0, p.receipt.sequence, p.receipt.before, p.receipt.after)
  {
    PostedIff(table, p);
    assert KeyAt(p, 0) in Write(table, p) && Write(table, p)[KeyAt(p, 0)] == RowAt(p, 0);
  }

  lemma OtherPostingsStay(table: ActionTable, p: Posting, q: Posting)
    requires p.tx != q.tx && Posted(table, q)
    ensures Posted(Write(table, p), q)
  {
    WriteFirstContents(table, p, Count(p));
    forall i | 0 <= i < Count(q)
      ensures KeyAt(q, i) in Write(table, p) && Write(table, p)[KeyAt(q, i)] == RowAt(q, i)
    {
      assert forall j :: 0 <= j < Count(p) ==> KeyAt(p, j) != KeyAt(q, i);
    }
  }

  lemma LiveBefore(table: ActionTable, p: Posting, k: ActionKey)
    requires k in Write(table, p) && !HasKey(p, k)
    ensures k in table && table[k] == Write(table, p)[k]
  {
    WriteFirstContents(table, p, Count(p));
    assert forall i :: 0 <= i < Count(p) ==> KeyAt(p, i) != k;
  }

  /**
    A table that shows some postings shows one more after it is written,
    exactly when no older inclusion of the new one is in the way.
   */
  lemma ShowsOneMore(table: ActionTable, postings: seq<Posting>, p: Posting)
    requires Shows(table, postings) && TxsDistinct(postings + [p]) && Addressed(table, p.address)
    ensures Shows(Write(table, p), postings + [p]) <==> Unmoved(table, p)
  {
    var after, all := Write(table, p), postings + [p];
    PostedIff(table, p);
    assert all[|postings|] == p;
    if Unmoved(table, p) {
      forall n | 0 <= n < |all|
        ensures Posted(after, all[n])
      {
        if n < |postings| {
          assert all[n].tx != all[|postings|].tx;
          OtherPostingsStay(table, p, postings[n]);
        }
      }
      forall k | k in after && !after[k].removed
        ensures exists n :: 0 <= n < |all| && HasKey(all[n], k)
      {
        if !HasKey(p, k) {
          LiveBefore(table, p, k);
          var n :| 0 <= n < |postings| && HasKey(postings[n], k);
          assert all[n] == postings[n];
        }
      }
    }
  }

  // ---------- rollback ----------

  function PostingsUpTo(postings: seq<Posting>, ancestor: int): seq<Posting> {
    if postings == [] then []
    else
      var rest, last := PostingsUpTo(postings[..|postings| - 1], ancestor), postings[|postings| - 1];
      if last.block <= ancestor then rest + [last] else rest
  }

  lemma {:induction false} UpToMembers(postings: seq<Posting>, ancestor: int, p: Posting)
    ensures p in PostingsUpTo(postings, ancestor) <==> p in postings && p.block <= ancestor
  {
    if postings != [] {
      UpToMembers(postings[..|postings| - 1], ancestor, p);
      assert postings == postings[..|postings| - 1] + [postings[|postings| - 1]];
    }
  }

  /** A right table stays right through a rollback, whatever the ancestor. */
  lemma RollbackShows(table: ActionTable, postings: seq<Posting>, ancestor: int)
    requires Shows(table, postings)
    ensures Shows(MarkRemoved(table, ancestor), PostingsUpTo(postings, ancestor))
  {
    var after, kept := MarkRemoved(table, ancestor), PostingsUpTo(postings, ancestor);
    forall n | 0 <= n < |kept|
      ensures Posted(after, kept[n])
    {
      UpToMembers(postings, ancestor, kept[n]);
      assert kept[n] in kept;
      var m :| 0 <= m < |postings| && postings[m] == kept[n];
      assert Posted(table, postings[m]);
    }
    forall k | k in after && !after[k].removed
      ensures exists n :: 0 <= n < |kept| && HasKey(kept[n], k)
    {
      assert k in table && !table[k].removed && table[k].block <= ancestor;
      var n :| 0 <= n < |postings| && HasKey(postings[n], k);
      var i :| 0 <= i < Count(postings[n]) && KeyAt(postings[n], i) == k;
      assert Posted(table, postings[n]);
      UpToMembers(postings, ancestor, postings[n]);
      assert postings[n] in kept;
      var m :| 0 <= m < |kept| && kept[m] == postings[n];
      assert HasKey(kept[m], k);
    }
  }
}
