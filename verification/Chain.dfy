/**
  The local table of Ethereum blocks and of the deposits they carry, kept in
  step with a remote hash-linked chain that may reorganize between any two
  calls.
 */
module Chain {
  import opened Common
  import opened Deposits

  // ---------- the remote chain ----------

  datatype Block = Block(number: nat, hash: Hash, parent: Hash)

  /** Everything a block hash commits to.  Reading it off the hash is collision freedom. */
  datatype World = World(parent: Hash -> Hash, height: Hash -> nat, deposits: Hash -> seq<Deposit>)

  ghost predicate HashLinked(w: World) {
    forall h :: w.height(h) > 0 ==> w.height(w.parent(h)) == w.height(h) - 1
  }

  predicate Genuine(w: World, b: Block) {
    b.number == w.height(b.hash) && b.parent == w.parent(b.hash)
  }

  /** The ancestor `k` generations above a block. */
  function Up(w: World, h: Hash, k: nat): Hash
    decreases k
  {
    if k == 0 then h else Up(w, w.parent(h), k - 1)
  }

  /** The contract never reuses a deposit nonce along one chain. */
  ghost predicate NoncesUnique(w: World) {
    && (forall h, i, j :: 0 <= i < j < |w.deposits(h)| ==> w.deposits(h)[i].nonce != w.deposits(h)[j].nonce)
    && (forall h, k: nat, d, e {:trigger Up(w, h, k), d in w.deposits(h), e in w.deposits(Up(w, h, k))} ::
          0 < k <= w.height(h) && d in w.deposits(h) && e in w.deposits(Up(w, h, k)) ==> d.nonce != e.nonce)
  }

  ghost predicate Sound(w: World) {
    HashLinked(w) && NoncesUnique(w)
  }

  // ---------- the block table ----------

  datatype BlockRow = BlockRow(hash: Hash, parent: Hash, canonical: bool, finalized: bool)

  type Rows = map<nat, BlockRow>

  datatype Mode = Finalized | Confirmations

  predicate Canonical(rows: Rows, n: nat) {
    n in rows && rows[n].canonical
  }

  /** The join the gateway uses to decide that a recorded (number, hash) is final. */
  predicate Final(rows: Rows, n: nat, hash: Hash) {
    Canonical(rows, n) && rows[n].finalized && rows[n].hash == hash
  }

  ghost predicate RowsGenuine(w: World, rows: Rows) {
    forall n: nat :: Canonical(rows, n) ==> Genuine(w, Block(n, rows[n].hash, rows[n].parent))
  }

  ghost predicate Contiguous(rows: Rows) {
    forall m: nat, n: nat, k: nat :: m in rows && n in rows && Canonical(rows, m) && Canonical(rows, n) && m < k < n
      ==> Canonical(rows, k)
  }

  ghost predicate ParentLinked(rows: Rows) {
    forall n: nat :: n in rows && n > 0 && Canonical(rows, n) && Canonical(rows, n - 1) ==>
      rows[n].parent == rows[n - 1].hash
  }

  ghost predicate FinalityClosed(rows: Rows) {
    && (forall n :: n in rows && rows[n].finalized ==> rows[n].canonical)
    && (forall m, n :: m in rows && n in rows && rows[m].canonical && m < n && rows[n].finalized ==> rows[m].finalized)
  }

  /** Canonical rows are genuine, contiguous and parent-linked; finality is closed downwards. */
  ghost predicate WellFormed(w: World, rows: Rows) {
    RowsGenuine(w, rows) && Contiguous(rows) && ParentLinked(rows) && FinalityClosed(rows)
  }

  /** Nothing canonical lies above `n`. */
  ghost predicate Below(rows: Rows, n: int) {
    forall m: nat :: Canonical(rows, m) ==> m <= n
  }

  function InsertBlock(rows: Rows, b: Block): Rows {
    rows[b.number := BlockRow(b.hash, b.parent, true, false)]
  }

  function RollbackBlocks(rows: Rows, ancestor: int): Rows {
    map n | n in rows ::
      if rows[n].canonical && n > ancestor then rows[n].(canonical := false, finalized := false) else rows[n]
  }

  /** `finalized = canonical AND COALESCE(block_number <= through, FALSE)` over every row. */
  function Finalize(rows: Rows, through: Option<nat>): Rows {
    map n | n in rows :: rows[n].(finalized := rows[n].canonical && through.Some? && n <= through.value)
  }

  /** Finality only grows: no finalized (number, hash) pair is lost or replaced. */
  predicate FinalityGrows(before: Rows, after: Rows) {
    forall n :: n in before && Final(before, n, before[n].hash) ==> Final(after, n, before[n].hash)
  }

  // ---------- agreement of the deposit table with its source ----------

  /**
    The rows not marked removed are exactly the deposits of the canonical
    blocks, each with its own contents and inclusion block.
   */
  ghost predicate Agrees(w: World, rows: Rows, table: Table) {
    && (forall n :: n in table && !table[n].removed ==>
          && Canonical(rows, table[n].block)
          && rows[table[n].block].hash == table[n].hash
          && table[n].deposit.nonce == n
          && table[n].deposit in w.deposits(table[n].hash))
    && (forall b: nat, d {:trigger Canonical(rows, b), d in w.deposits(rows[b].hash)} ::
          Canonical(rows, b) && d in w.deposits(rows[b].hash) ==>
          && d.nonce in table && !table[d.nonce].removed && table[d.nonce].deposit == d
          && table[d.nonce].block == b && table[d.nonce].hash == rows[b].hash)
  }

  /** Canonical rows are the ancestors of any canonical row above them. */
  lemma {:induction false} RowsAreAncestors(w: World, rows: Rows, m: nat, n: nat)
    requires WellFormed(w, rows) && Canonical(rows, m) && Canonical(rows, n) && m <= n
    ensures rows[m].hash == Up(w, rows[n].hash, n - m)
    decreases n - m
  {
    if m < n {
      assert Canonical(rows, n - 1) by {
        if m < n - 1 { }
      }
      assert Canonical(rows, n - 1 + 1);
      RowsAreAncestors(w, rows, m, n - 1);
      assert Genuine(w, Block(n, rows[n].hash, rows[n].parent));
    }
  }

  lemma RollbackKeepsForm(w: World, rows: Rows, ancestor: int)
    requires WellFormed(w, rows)
    ensures WellFormed(w, RollbackBlocks(rows, ancestor))
    ensures Below(RollbackBlocks(rows, ancestor), ancestor)
    ensures forall n: nat :: Canonical(RollbackBlocks(rows, ancestor), n) <==> Canonical(rows, n) && n <= ancestor
  {
    var after := RollbackBlocks(rows, ancestor);
    assert forall n: nat :: Canonical(after, n) <==> Canonical(rows, n) && n <= ancestor;
    assert forall n: nat :: Canonical(after, n) ==> after[n] == rows[n];
  }

  lemma RollbackKeepsDeposits(w: World, rows: Rows, table: Table, ancestor: int)
    requires Agrees(w, rows, table)
    ensures Agrees(w, RollbackBlocks(rows, ancestor), MarkRemoved(table, ancestor))
  {
    var after := RollbackBlocks(rows, ancestor);
    var marked := MarkRemoved(table, ancestor);
    assert forall n: nat :: Canonical(after, n) <==> Canonical(rows, n) && n <= ancestor;
    forall b: nat, d | Canonical(after, b) && d in w.deposits(after[b].hash)
      ensures d.nonce in marked && !marked[d.nonce].removed && marked[d.nonce].deposit == d
        && marked[d.nonce].block == b && marked[d.nonce].hash == after[b].hash
    {
      assert Canonical(rows, b) && after[b].hash == rows[b].hash;
    }
  }

  /** When the rollback guard lets an ancestor through, the finalized rows all survive. */
  lemma RollbackKeepsFinality(rows: Rows, ancestor: int)
    requires forall n :: n in rows && rows[n].canonical && rows[n].finalized ==> n <= ancestor
    ensures FinalityGrows(rows, RollbackBlocks(rows, ancestor))
  {
  }

  lemma InsertKeepsForm(w: World, rows: Rows, b: Block)
    requires WellFormed(w, rows) && Genuine(w, b)
    requires Below(rows, b.number - 1)
    requires (forall n: nat :: !Canonical(rows, n)) ||
             (b.number > 0 && Canonical(rows, b.number - 1) && rows[b.number - 1].hash == b.parent)
    ensures WellFormed(w, InsertBlock(rows, b)) && Below(InsertBlock(rows, b), b.number)
    ensures FinalityGrows(rows, InsertBlock(rows, b))
  {
    var after := InsertBlock(rows, b);
    assert forall n: nat :: Canonical(after, n) <==> Canonical(rows, n) || n == b.number;
    assert forall n: nat :: Canonical(rows, n) ==> n < b.number && after[n] == rows[n];
    assert RowsGenuine(w, after);
    assert Contiguous(after) by {
      forall m: nat, n: nat, k: nat | Canonical(after, m) && Canonical(after, n) && m < k < n
        ensures Canonical(after, k)
      {
        assert Canonical(rows, m);
        if n == b.number && k < b.number - 1 {
          assert Canonical(rows, b.number - 1);
        }
      }
    }
    assert ParentLinked(after);
    InsertKeepsFinality(rows, b);
  }

  lemma InsertKeepsFinality(rows: Rows, b: Block)
    requires FinalityClosed(rows) && Below(rows, b.number - 1)
    ensures FinalityClosed(InsertBlock(rows, b)) && FinalityGrows(rows, InsertBlock(rows, b))
  {
    assert forall n: nat :: n in rows && rows[n].canonical ==> Canonical(rows, n);
  }

  lemma FinalizeKeepsForm(w: World, rows: Rows, through: Option<nat>)
    requires WellFormed(w, rows)
    ensures WellFormed(w, Finalize(rows, through))
    ensures forall n: nat :: Canonical(Finalize(rows, through), n) <==> Canonical(rows, n)
  {
    var after := Finalize(rows, through);
    assert forall n: nat :: Canonical(after, n) <==> Canonical(rows, n);
    assert forall n :: n in rows ==> after[n].hash == rows[n].hash && after[n].parent == rows[n].parent;
  }

  // ---------- one block and its deposits, committed together ----------

  function UpsertAll(table: Table, ds: seq<Deposit>, block: nat, hash: Hash): Table {
    if ds == [] then table
    else Upsert(UpsertAll(table, ds[..|ds| - 1], block, hash), ds[|ds| - 1], block, hash)
  }

  predicate HasNonce(ds: seq<Deposit>, n: nat) {
    exists i :: 0 <= i < |ds| && ds[i].nonce == n
  }

  predicate Holds(table: Table, d: Deposit, block: nat, hash: Hash) {
    d.nonce in table &&
    var row := table[d.nonce];
    row.deposit == d && row.block == block && row.hash == hash && !row.removed
  }

  lemma {:induction false} UpsertAllContents(table: Table, ds: seq<Deposit>, block: nat, hash: Hash)
    requires forall i, j :: 0 <= i < j < |ds| ==> ds[i].nonce != ds[j].nonce
    ensures forall i :: 0 <= i < |ds| ==> Holds(UpsertAll(table, ds, block, hash), ds[i], block, hash)
    ensures UpsertAll(table, ds, block, hash).Keys >= table.Keys
    ensures forall n :: n in UpsertAll(table, ds, block, hash) ==>
      HasNonce(ds, n) || (n in table && UpsertAll(table, ds, block, hash)[n] == table[n])
  {
    if ds != [] {
      var earlier := ds[..|ds| - 1];
      var last := ds[|ds| - 1];
      UpsertAllContents(table, earlier, block, hash);
      var middle := UpsertAll(table, earlier, block, hash);
      var after := Upsert(middle, last, block, hash);
      forall i | 0 <= i < |ds|
        ensures Holds(after, ds[i], block, hash)
      {
        if i < |earlier| {
          assert Holds(middle, earlier[i], block, hash);
          assert ds[i].nonce != last.nonce;
        }
      }
      forall n | n in after && !HasNonce(ds, n)
        ensures n in table && after[n] == table[n]
      {
        assert ds[|ds| - 1].nonce != n;
        assert !HasNonce(earlier, n) by {
          assert forall i :: 0 <= i < |earlier| ==> ds[i].nonce != n;
        }
      }
    }
  }

  /** Indexing a block on top of its parent brings in its deposits and disturbs no others. */
  lemma IndexedBlockAgrees(w: World, rows: Rows, table: Table, b: Block)
    requires Sound(w) && WellFormed(w, rows) && Genuine(w, b) && Agrees(w, rows, table)
    requires Below(rows, b.number - 1)
    requires (forall n: nat :: !Canonical(rows, n)) ||
             (b.number > 0 && Canonical(rows, b.number - 1) && rows[b.number - 1].hash == b.parent)
    ensures Agrees(w, InsertBlock(rows, b), UpsertAll(table, w.deposits(b.hash), b.number, b.hash))
  {
    var ds := w.deposits(b.hash);
    var rows' := InsertBlock(rows, b);
    var after := UpsertAll(table, ds, b.number, b.hash);
    UpsertAllContents(table, ds, b.number, b.hash);
    InsertKeepsForm(w, rows, b);
    assert forall m: nat :: Canonical(rows', m) <==> m == b.number || Canonical(rows, m);
    assert forall m: nat :: Canonical(rows, m) ==> m != b.number && rows'[m] == rows[m];
    forall m: nat, d | Canonical(rows', m) && d in w.deposits(rows'[m].hash)
      ensures Holds(after, d, m, rows'[m].hash)
    {
      if m != b.number {
        FreshNonces(w, rows', b, m, d);
        assert !HasNonce(ds, d.nonce);
      }
    }
    IndexedRowsGenuine(w, rows, table, b);
  }

  /** After indexing a block, every live row is a deposit of a canonical block. */
  lemma IndexedRowsGenuine(w: World, rows: Rows, table: Table, b: Block)
    requires Sound(w) && Agrees(w, rows, table) && Below(rows, b.number - 1)
    ensures var rows', after := InsertBlock(rows, b), UpsertAll(table, w.deposits(b.hash), b.number, b.hash);
      forall n :: n in after && !after[n].removed ==>
        && Canonical(rows', after[n].block) && rows'[after[n].block].hash == after[n].hash
        && after[n].deposit.nonce == n && after[n].deposit in w.deposits(after[n].hash)
  {
    var ds := w.deposits(b.hash);
    var rows', after := InsertBlock(rows, b), UpsertAll(table, ds, b.number, b.hash);
    UpsertAllContents(table, ds, b.number, b.hash);
    forall n | n in after && !after[n].removed
      ensures Canonical(rows', after[n].block) && rows'[after[n].block].hash == after[n].hash
      ensures after[n].deposit.nonce == n && after[n].deposit in w.deposits(after[n].hash)
    {
      if HasNonce(ds, n) {
        var i :| 0 <= i < |ds| && ds[i].nonce == n;
        assert Holds(after, ds[i], b.number, b.hash);
      } else {
        assert Canonical(rows, table[n].block);
      }
    }
  }

  lemma FreshNonces(w: World, rows: Rows, b: Block, m: nat, d: Deposit)
    requires Sound(w) && WellFormed(w, rows) && Canonical(rows, b.number) && rows[b.number].hash == b.hash
    requires Genuine(w, b) && Canonical(rows, m) && m < b.number && d in w.deposits(rows[m].hash)
    ensures forall e :: e in w.deposits(b.hash) ==> e.nonce != d.nonce
  {
    RowsAreAncestors(w, rows, m, b.number);
    assert d in w.deposits(Up(w, b.hash, b.number - m));
  }

  // ---------- the remote calls ----------

  datatype DepositLog = DepositLog(deposit: Deposit, block: nat, hash: Hash)

  /**
    The node's answers, in the order they will be given.  They are arbitrary,
    so the chain may move between any two calls; only what a hash commits to
    is fixed.
   */
  class Rpc {
    const w: World
    const blocks: seq<Option<Block>>
    const logs: seq<Option<seq<DepositLog>>>
    var nextBlock: nat
    var nextLogs: nat

    constructor (w: World, blocks: seq<Option<Block>>, logs: seq<Option<seq<DepositLog>>>)
      ensures this.w == w && this.blocks == blocks && this.logs == logs
    {
      this.w, this.blocks, this.logs := w, blocks, logs;
      nextBlock, nextLogs := 0, 0;
    }

    /** The next answer to a request for the block at a height. */
    method BlockAt(number: nat) returns (r: Result<Block>)
      modifies this
      ensures r.Success? ==> r.value.number == number && Genuine(w, r.value) && Some(r.value) in blocks
    {
      r := Failure(Unavailable);
      if nextBlock < |blocks| {
        match blocks[nextBlock] {
          case None =>
          case Some(b) =>
            if b.number == number && Genuine(w, b) {
              r := Success(b);
            }
        }
        nextBlock := nextBlock + 1;
      }
    }

    /** The next answer to a hash-pinned log query; logs stamped with that block are that block's. */
    method DepositLogs(b: Block) returns (r: Result<seq<DepositLog>>)
      modifies this
      ensures r.Success? && (forall l :: l in r.value ==> l.block == b.number && l.hash == b.hash) ==>
        |r.value| == |w.deposits(b.hash)| &&
        forall i :: 0 <= i < |r.value| ==> r.value[i].deposit == w.deposits(b.hash)[i]
    {
      r := Failure(Unavailable);
      if nextLogs < |logs| {
        match logs[nextLogs] {
          case None =>
          case Some(ls) =>
            if (exists i :: 0 <= i < |ls| && (ls[i].block != b.number || ls[i].hash != b.hash)) ||
               (|ls| == |w.deposits(b.hash)| && forall i :: 0 <= i < |ls| ==> ls[i].deposit == w.deposits(b.hash)[i]) {
              r := Success(ls);
            }
        }
        nextLogs := nextLogs + 1;
      }
    }
  }

  /** Every answer lies on the chain that ends in `tip`. */
  ghost predicate OnChain(w: World, blocks: seq<Option<Block>>, tip: Hash) {
    forall b :: Some(b) in blocks && Genuine(w, b) ==>
      b.number <= w.height(tip) && b.hash == Up(w, tip, w.height(tip) - b.number)
  }

  /** The local row at a height is the remote chain's block there. */
  ghost predicate AgreeAt(w: World, rows: Rows, tip: Hash, n: nat) {
    n <= w.height(tip) && Canonical(rows, n) && rows[n].hash == Up(w, tip, w.height(tip) - n)
  }

  /** The search is on the remote chain, and has passed no agreement. */
  ghost predicate NoneAbove(w: World, rows: Rows, remote: Block, current: Block) {
    && current.number <= remote.number && current.hash == Up(w, remote.hash, remote.number - current.number)
    && forall n: nat :: AgreeAt(w, rows, remote.hash, n) ==> n <= current.number
  }

  lemma FoundAgrees(w: World, rows: Rows, remote: Block, current: Block)
    requires Genuine(w, remote) && NoneAbove(w, rows, remote, current)
    requires Canonical(rows, current.number) && rows[current.number].hash == current.hash
    ensures AgreeAt(w, rows, remote.hash, current.number)
  {
  }

  lemma OneDown(w: World, rows: Rows, blocks: seq<Option<Block>>, remote: Block, current: Block, below: Block)
    requires OnChain(w, blocks, remote.hash) && Some(below) in blocks
    requires Genuine(w, remote) && NoneAbove(w, rows, remote, current) && current.number > 0
    requires Canonical(rows, current.number) && rows[current.number].hash != current.hash
    requires Genuine(w, below) && below.number == current.number - 1
    ensures NoneAbove(w, rows, remote, below)
  {
    forall n: nat | AgreeAt(w, rows, remote.hash, n)
      ensures n <= below.number
    {
      assert n != current.number;
    }
  }

  lemma UpSplit(w: World, h: Hash, j: nat, k: nat)
    ensures Up(w, h, j + k) == Up(w, Up(w, h, j), k)
    decreases j
  {
    if j > 0 {
      UpSplit(w, w.parent(h), j - 1, k);
    }
  }

  // ---------- the indexed range ----------

  /** The canonical rows are those up to the tip, as they were. */
  ghost predicate Survives(before: Rows, after: Rows, tip: int) {
    && (forall n: nat :: Canonical(after, n) <==> Canonical(before, n) && n <= tip)
    && (forall n: nat :: Canonical(after, n) ==> after[n] == before[n])
  }

  /** The rows from `first` to below `next` are canonical now, and the others are as they were. */
  ghost predicate Adds(before: Rows, after: Rows, first: nat, next: nat) {
    && (forall n: nat :: first <= n < next ==> Canonical(after, n))
    && (forall n: nat :: !(first <= n < next) ==>
          (n in after <==> n in before) && (n in before ==> after[n] == before[n]))
  }

  /** Rows up to some old one stay, and every height from there to the head is indexed. */
  ghost predicate Continued(before: Rows, after: Rows, tip: nat, head: nat) {
    && Canonical(before, tip) && tip <= head
    && (forall n: nat :: Canonical(after, n) <==> (Canonical(before, n) && n <= tip) || tip < n <= head)
    && (forall n: nat :: Canonical(before, n) && n <= tip ==> after[n].hash == before[n].hash)
  }

  /** Exactly the heights from the configured start to the head are indexed. */
  ghost predicate Started(after: Rows, start: Option<nat>, head: nat) {
    forall n: nat :: Canonical(after, n) <==> n <= head && (n == head || (start.Some? && start.value <= n))
  }

  /** What a successful pass indexes: it starts once, and then leaves no gap. */
  ghost predicate Indexed(before: Rows, after: Rows, start: Option<nat>, head: nat) {
    && ((exists tip: nat :: Continued(before, after, tip, head)) || Started(after, start, head))
    && ((forall n: nat :: !Canonical(before, n)) ==> Started(after, start, head))
    && (forall tip: nat :: Canonical(before, tip) && Below(before, tip) && tip < head ==>
          Continued(before, after, tip, head))
  }

  /** While the node answers along one chain, no row that agrees with it is dropped. */
  ghost predicate KeepsAgreed(w: World, blocks: seq<Option<Block>>, head: nat, before: Rows, after: Rows) {
    forall h, n: nat :: w.height(h) == head && OnChain(w, blocks, h) && AgreeAt(w, before, h, n) ==>
      Canonical(after, n) && after[n].hash == before[n].hash
  }

  lemma AncestorKeepsAgreed(w: World, blocks: seq<Option<Block>>, rows: Rows, remote: Block, ancestor: nat)
    requires Genuine(w, remote) && Some(remote) in blocks
    requires OnChain(w, blocks, remote.hash) ==> forall n: nat :: AgreeAt(w, rows, remote.hash, n) ==> n <= ancestor
    ensures KeepsAgreed(w, blocks, remote.number, rows, RollbackBlocks(rows, ancestor))
  {
    forall h, n: nat | w.height(h) == remote.number && OnChain(w, blocks, h) && AgreeAt(w, rows, h, n)
      ensures Canonical(RollbackBlocks(rows, ancestor), n) && RollbackBlocks(rows, ancestor)[n].hash == rows[n].hash
    {
      OnChainAt(w, blocks, h, remote);
      assert h == remote.hash;
    }
  }

  lemma OnChainAt(w: World, blocks: seq<Option<Block>>, tip: Hash, b: Block)
    requires OnChain(w, blocks, tip) && Some(b) in blocks && Genuine(w, b) && b.number == w.height(tip)
    ensures b.hash == Up(w, tip, 0) == tip
  {
  }

  lemma AddsFurther(before: Rows, mid: Rows, after: Rows, first: nat, next: nat)
    requires first <= next && Adds(before, mid, first, next) && Adds(mid, after, next, next + 1)
    ensures Adds(before, after, first, next + 1)
  {
    forall n: nat | first <= n < next + 1
      ensures Canonical(after, n)
    {
      if n < next {
        assert Canonical(mid, n);
        AddedAt(mid, after, next, next + 1, n);
      }
    }
    forall n: nat | !(first <= n < next + 1)
      ensures (n in after <==> n in before) && (n in before ==> after[n] == before[n])
    {
      AddedAt(before, mid, first, next, n);
      AddedAt(mid, after, next, next + 1, n);
    }
  }

  lemma AddedAt(before: Rows, after: Rows, first: nat, next: nat, n: nat)
    requires Adds(before, after, first, next)
    ensures first <= n < next ==> Canonical(after, n)
    ensures !(first <= n < next) ==> (n in after <==> n in before) && (n in before ==> after[n] == before[n])
    ensures !(first <= n < next) ==> (Canonical(after, n) <==> Canonical(before, n))
  {
  }

  lemma WholeRange(before: Rows, aligned: Rows, after: Rows, tip: Option<nat>, start: Option<nat>, head: nat)
    requires tip.Some? ==> Canonical(aligned, tip.value) && tip.value <= head
    requires Survives(before, aligned, if tip.Some? then tip.value else -1)
    requires var next := if tip.Some? then tip.value + 1 else Min(start.GetOr(head), head);
      Adds(aligned, after, next, head + 1)
    requires forall t: nat :: Canonical(before, t) && Below(before, t) && t < head ==> tip == Some(t)
    ensures Indexed(before, after, start, head)
  {
    var next := if tip.Some? then tip.value + 1 else Min(start.GetOr(head), head);
    forall n: nat
      ensures Canonical(after, n) <==> (Canonical(before, n) && tip.Some? && n <= tip.value) || next <= n <= head
      ensures Canonical(before, n) && tip.Some? && n <= tip.value ==> after[n].hash == before[n].hash
    {
      AddedAt(aligned, after, next, head + 1, n);
      assert Canonical(aligned, n) <==> Canonical(before, n) && tip.Some? && n <= tip.value;
    }
    if tip.Some? {
      assert Continued(before, after, tip.value, head);
    }
  }

  lemma KeptThrough(w: World, blocks: seq<Option<Block>>, head: nat, before: Rows, aligned: Rows, after: Rows,
                    next: nat)
    requires KeepsAgreed(w, blocks, head, before, aligned) && Adds(aligned, after, next, head + 1)
    requires forall n: nat :: Canonical(aligned, n) ==> n < next
    ensures KeepsAgreed(w, blocks, head, before, after)
  {
    forall h, n: nat | w.height(h) == head && OnChain(w, blocks, h) && AgreeAt(w, before, h, n)
      ensures Canonical(after, n) && after[n].hash == before[n].hash
    {
      assert Canonical(aligned, n) && aligned[n].hash == before[n].hash;
      AddedAt(aligned, after, next, head + 1, n);
    }
  }

  lemma SameBlocksIndexed(w: World, blocks: seq<Option<Block>>, before: Rows, indexed: Rows, after: Rows,
                          start: Option<nat>, head: nat)
    requires Indexed(before, indexed, start, head) && KeepsAgreed(w, blocks, head, before, indexed)
    requires after.Keys == indexed.Keys
    requires forall n :: n in indexed ==> after[n] == indexed[n].(finalized := after[n].finalized)
    ensures Indexed(before, after, start, head) && KeepsAgreed(w, blocks, head, before, after)
  {
    assert forall n: nat :: Canonical(after, n) <==> Canonical(indexed, n);
    if tip: nat :| Continued(before, indexed, tip, head) {
      assert Continued(before, after, tip, head);
    }
    forall tip: nat | Canonical(before, tip) && Below(before, tip) && tip < head
      ensures Continued(before, after, tip, head)
    {
      assert Continued(before, indexed, tip, head);
    }
  }

  lemma SameBlocksAgree(w: World, rows: Rows, after: Rows, tip: Hash)
    requires after.Keys == rows.Keys && forall n :: n in rows ==> after[n] == rows[n].(finalized := after[n].finalized)
    requires forall n: nat :: Canonical(rows, n) ==> AgreeAt(w, rows, tip, n)
    ensures forall n: nat :: Canonical(after, n) <==> Canonical(rows, n)
    ensures forall n: nat :: Canonical(after, n) ==> AgreeAt(w, after, tip, n)
  {
    forall n: nat | Canonical(after, n)
      ensures AgreeAt(w, after, tip, n)
    {
      assert Canonical(rows, n) && AgreeAt(w, rows, tip, n);
    }
  }

  lemma GrowsOn(a: Rows, b: Rows, c: Rows)
    requires FinalityGrows(a, b) && FinalityGrows(b, c)
    ensures FinalityGrows(a, c)
  {
  }

  /** Agreement is downward closed over the indexed range, because rows are parent-linked. */
  lemma AgreementGoesDown(w: World, rows: Rows, tip: Hash, m: nat, n: nat)
    requires WellFormed(w, rows) && AgreeAt(w, rows, tip, n) && Canonical(rows, m) && m <= n
    ensures AgreeAt(w, rows, tip, m)
  {
    RowsAreAncestors(w, rows, m, n);
    UpSplit(w, tip, w.height(tip) - n, n - m);
  }

  // ---------- what a pass does to the block table ----------

  datatype IndexOp = UndoTo(ancestor: nat) | PutOn(block: Block) | SetBoundary(through: Option<nat>)

  function After(rows: Rows, op: IndexOp): Rows {
    match op
    case UndoTo(ancestor) => RollbackBlocks(rows, ancestor)
    case PutOn(b) => InsertBlock(rows, b)
    case SetBoundary(through) => Finalize(rows, through)
  }

  /** Finality guards the rollbacks and the boundary; blocks are put on top. */
  ghost predicate Legal(mode: Mode, rows: Rows, op: IndexOp) {
    match op
    case UndoTo(ancestor) =>
      mode.Finalized? ==> forall n :: n in rows && rows[n].canonical && rows[n].finalized ==> n <= ancestor
    case PutOn(b) => Below(rows, b.number - 1)
    case SetBoundary(through) =>
      mode.Finalized? ==>
        through.Some? && forall n :: n in rows && rows[n].canonical && rows[n].finalized ==> n <= through.value
  }

  function AfterAll(rows: Rows, ops: seq<IndexOp>): Rows {
    if ops == [] then rows else After(AfterAll(rows, ops[..|ops| - 1]), ops[|ops| - 1])
  }

  ghost predicate LegalAll(mode: Mode, rows: Rows, ops: seq<IndexOp>) {
    ops == [] ||
    (LegalAll(mode, rows, ops[..|ops| - 1]) && Legal(mode, AfterAll(rows, ops[..|ops| - 1]), ops[|ops| - 1]))
  }

  /** Operations led legally from one table to another, without moving the boundary. */
  ghost predicate Leads(mode: Mode, before: Rows, ops: seq<IndexOp>, after: Rows) {
    LegalAll(mode, before, ops) && AfterAll(before, ops) == after && forall op :: op in ops ==> !op.SetBoundary?
  }

  lemma LeadsNowhere(mode: Mode, rows: Rows)
    ensures Leads(mode, rows, [], rows)
  {
  }

  lemma LeadsFurther(mode: Mode, before: Rows, ops: seq<IndexOp>, middle: Rows, op: IndexOp)
    requires Leads(mode, before, ops, middle) && Legal(mode, middle, op) && !op.SetBoundary?
    ensures Leads(mode, before, ops + [op], After(middle, op))
  {
    assert (ops + [op])[..|ops|] == ops;
  }

  lemma {:induction false} LeadsOn(mode: Mode, before: Rows, first: seq<IndexOp>, middle: Rows, second: seq<IndexOp>,
      after: Rows)
    requires Leads(mode, before, first, middle) && Leads(mode, middle, second, after)
    ensures Leads(mode, before, first + second, after)
    decreases |second|
  {
    if second == [] {
      assert first + second == first;
    } else {
      var n := |second| - 1;
      LeadsOn(mode, before, first, middle, second[..n], AfterAll(middle, second[..n]));
      LeadsFurther(mode, before, first + second[..n], AfterAll(middle, second[..n]), second[n]);
      assert first + second[..n] + [second[n]] == first + second;
    }
  }

  // ---------- the indexer ----------

  class BlockIndex {
    const w: World
    const mode: Mode
    const start: Option<nat>
    const confirmations: nat
    var rows: Rows
    var table: Table
    ghost var ops: seq<IndexOp>

    /** Since these operations and this table, later operations led here. */
    ghost predicate Since(was: seq<IndexOp>, before: Rows)
      reads this
    {
      was <= ops && Leads(mode, before, ops[|was|..], rows)
    }

    ghost predicate Valid()
      reads this
    {
      Sound(w) && WellFormed(w, rows) && Agrees(w, rows, table)
    }

    constructor (w: World, mode: Mode, start: Option<nat>, confirmations: nat)
      requires Sound(w)
      ensures Valid() && this.w == w && this.mode == mode && rows == map[] && table == map[] && ops == []
    {
      this.w, this.mode, this.start, this.confirmations := w, mode, start, confirmations;
      rows, table, ops := map[], map[], [];
    }

    /** `SELECT ... WHERE canonical ORDER BY block_number DESC LIMIT 1`. */
    method Tip() returns (tip: Option<nat>)
      ensures tip.None? ==> forall n: nat :: !Canonical(rows, n)
      ensures tip.Some? ==> Canonical(rows, tip.value) && Below(rows, tip.value)
    {
      tip := None;
      var left := rows.Keys;
      while left != {}
        invariant left <= rows.Keys
        invariant tip.None? ==> forall n: nat :: Canonical(rows, n) ==> n in left
        invariant tip.Some? ==> Canonical(rows, tip.value)
        invariant tip.Some? ==> forall n: nat :: Canonical(rows, n) && n !in left ==> n <= tip.value
        decreases left
      {
        var n :| n in left;
        left := left - {n};
        if rows[n].canonical && (tip.None? || tip.value < n) {
          tip := Some(n);
        }
      }
    }

    /**
      The greatest height at which the local table and the remote chain agree,
      or the height just below the indexed range.
     */
    method CommonAncestor(rpc: Rpc, remote: Block) returns (r: Result<nat>)
      requires Valid() && rpc.w == w && Genuine(w, remote)
      modifies rpc
      ensures r.Success? ==> r.value <= remote.number
      ensures r.Success? && Canonical(rows, remote.number) ==>
        (r.value == remote.number <==> rows[remote.number].hash == remote.hash)
      ensures r.Success? && Canonical(rows, r.value) ==>
        (rows[r.value].hash == remote.hash && r.value == remote.number) ||
        exists b :: Some(b) in rpc.blocks && b.number == r.value && b.hash == rows[r.value].hash
      ensures r.Success? && Canonical(rows, remote.number) && !Canonical(rows, r.value) ==>
        forall n: nat :: Canonical(rows, n) ==> n > r.value
      ensures r.Success? && OnChain(w, rpc.blocks, remote.hash) ==>
        (Canonical(rows, r.value) ==> AgreeAt(w, rows, remote.hash, r.value)) &&
        forall n: nat :: AgreeAt(w, rows, remote.hash, n) ==> n <= r.value
    {
      var current := remote;
      while true
        invariant Genuine(w, current) && current.number <= remote.number
        invariant current == remote || Some(current) in rpc.blocks
        invariant current.number == remote.number ==> current == remote
        invariant current.number < remote.number && Canonical(rows, remote.number) ==>
          rows[remote.number].hash != remote.hash
        invariant current.number < remote.number ==> Canonical(rows, current.number + 1)
        invariant OnChain(w, rpc.blocks, remote.hash) ==> NoneAbove(w, rows, remote, current)
        decreases current.number
      {
        if Canonical(rows, current.number) && rows[current.number].hash == current.hash {
          if OnChain(w, rpc.blocks, remote.hash) {
            FoundAgrees(w, rows, remote, current);
          }
          return Success(current.number);
        }
        if !Canonical(rows, current.number) {
          if Canonical(rows, remote.number) {
            NothingBelow(rows, current.number, remote.number);
          }
          return Success(current.number);
        }
        if current.number == 0 {
          return Failure(Reorganized);
        }
        var below :- rpc.BlockAt(current.number - 1);
        if OnChain(w, rpc.blocks, remote.hash) {
          OneDown(w, rows, rpc.blocks, remote, current, below);
        }
        current := below;
      }
    }

    /** The block and deposit part of `rollback_after`. */
    method RollbackAfter(ancestor: nat)
      requires Valid()
      modifies this
      ensures Valid() && Below(rows, ancestor)
      ensures rows == RollbackBlocks(old(rows), ancestor) && table == MarkRemoved(old(table), ancestor)
      ensures ops == old(ops) + [UndoTo(ancestor)]
    {
      RollbackKeepsForm(w, rows, ancestor);
      RollbackKeepsDeposits(w, rows, table, ancestor);
      rows := RollbackBlocks(rows, ancestor);
      table := MarkRemoved(table, ancestor);
      ops := ops + [UndoTo(ancestor)];
    }

    /** In Finalized mode a rollback that would orphan a finalized row is refused. */
    method RollbackCanonicalChain(ancestor: nat) returns (r: Result<()>)
      requires Valid()
      modifies this
      ensures Valid()
      ensures r.Failure? ==> rows == old(rows) && table == old(table)
      ensures r.Success? ==> rows == RollbackBlocks(old(rows), ancestor) && Below(rows, ancestor)
      ensures r.Success? ==> table == MarkRemoved(old(table), ancestor)
      ensures r.Failure? <==> (mode.Finalized? &&
        exists n: nat :: n in old(rows) && n > ancestor && old(rows)[n].canonical && old(rows)[n].finalized)
      ensures mode.Finalized? ==> FinalityGrows(old(rows), rows)
      ensures Since(old(ops), old(rows))
    {
      LeadsNowhere(mode, rows);
      if mode.Finalized? && exists n :: n in rows && n > ancestor && rows[n].canonical && rows[n].finalized {
        return Failure(FinalityConflict);
      }
      if mode.Finalized? {
        RollbackKeepsFinality(rows, ancestor);
      }
      RollbackAfter(ancestor);
      LeadsFurther(mode, old(rows), [], old(rows), UndoTo(ancestor));
      assert ops[|old(ops)|..] == [] + [UndoTo(ancestor)];
      return Success(());
    }

    /**
      Check a child against the local tip.  A mismatch rolls the table back and
      always makes the caller refetch, so success means that the parent matches.
     */
    method EnsureParent(rpc: Rpc, b: Block) returns (r: Result<()>)
      requires Valid() && rpc.w == w && Genuine(w, b)
      modifies this, rpc
      ensures Valid()
      ensures r.Success? ==> rows == old(rows) && table == old(table)
      ensures r.Success? && b.number > 0 && Canonical(rows, b.number - 1) ==> rows[b.number - 1].hash == b.parent
      ensures mode.Finalized? ==> FinalityGrows(old(rows), rows)
      ensures Since(old(ops), old(rows)) && (r.Success? ==> ops == old(ops))
    {
      LeadsNowhere(mode, rows);
      if b.number == 0 {
        return Success(());
      }
      if !Canonical(rows, b.number - 1) {
        return Success(());
      }
      if rows[b.number - 1].hash == b.parent {
        return Success(());
      }
      var parent :- rpc.BlockAt(b.number - 1);
      if parent.hash != b.parent {
        return Failure(Reorganized);
      }
      var ancestor :- CommonAncestor(rpc, parent);
      var _ :- RollbackCanonicalChain(ancestor);
      if ancestor + 1 != b.number {
        return Failure(Reorganized);
      }
      return Success(());
    }

    /** Fetch a block's deposits, then commit them together with the block row. */
    method IndexDeposits(rpc: Rpc, b: Block) returns (r: Result<()>)
      requires Valid() && rpc.w == w && Genuine(w, b)
      requires Below(rows, b.number - 1)
      requires (forall n: nat :: !Canonical(rows, n)) ||
               (b.number > 0 && Canonical(rows, b.number - 1) && rows[b.number - 1].hash == b.parent)
      modifies this, rpc
      ensures Valid()
      ensures r.Failure? ==> rows == old(rows) && table == old(table)
      ensures r.Success? ==> rows == InsertBlock(old(rows), b)
      ensures r.Success? ==> table == UpsertAll(old(table), w.deposits(b.hash), b.number, b.hash)
      ensures UniqueLogs(old(table)) ==> UniqueLogs(table)
      ensures FinalityGrows(old(rows), rows)
      ensures ops == old(ops) + if r.Success? then [PutOn(b)] else []
    {
      var logs :- rpc.DepositLogs(b);
      var pending := table;
      for i := 0 to |logs|
        invariant rows == old(rows) && table == old(table) && ops == old(ops) && Valid()
        invariant forall j :: 0 <= j < i ==> logs[j].block == b.number && logs[j].hash == b.hash
        invariant UniqueLogs(table) ==> UniqueLogs(pending)
        invariant pending == UpsertAll(table, seq(i, j requires 0 <= j < i => logs[j].deposit), b.number, b.hash)
      {
        if logs[i].block != b.number || logs[i].hash != b.hash {
          return Failure(Mismatch);
        }
        if LogTaken(pending, logs[i].deposit) {
          return Failure(Mismatch);
        }
        UpsertUnique(pending, logs[i].deposit, b.number, b.hash);
        pending := Upsert(pending, logs[i].deposit, b.number, b.hash);
        ghost var taken := seq(i + 1, j requires 0 <= j < i + 1 => logs[j].deposit);
        assert taken[..i] == seq(i, j requires 0 <= j < i => logs[j].deposit);
      }
      assert seq(|logs|, j requires 0 <= j < |logs| => logs[j].deposit) == w.deposits(b.hash);
      IndexedBlockAgrees(w, rows, table, b);
      InsertKeepsForm(w, rows, b);
      table := pending;
      rows := InsertBlock(rows, b);
      ops := ops + [PutOn(b)];
      return Success(());
    }

    /** At a stationary or regressed head no child checks the tip, so it is checked directly. */
    method AlignTip(rpc: Rpc, head: nat) returns (r: Result<Option<nat>>)
      requires Valid() && rpc.w == w
      modifies this, rpc
      ensures Valid()
      ensures mode.Finalized? ==> FinalityGrows(old(rows), rows)
      ensures r.Success? && r.value.None? ==> forall n: nat :: !Canonical(rows, n)
      ensures r.Success? && r.value.Some? ==>
        Canonical(rows, r.value.value) && Below(rows, r.value.value) && r.value.value <= head
      ensures r.Success? ==> Survives(old(rows), rows, if r.value.Some? then r.value.value else -1)
      ensures r.Success? ==> KeepsAgreed(w, rpc.blocks, head, old(rows), rows)
      ensures r.Success? ==> forall tip: nat :: Canonical(old(rows), tip) && Below(old(rows), tip) && tip < head ==>
        rows == old(rows) && r.value == Some(tip)
      ensures Since(old(ops), old(rows))
    {
      LeadsNowhere(mode, rows);
      var tip := Tip();
      if tip.Some? && tip.value >= head {
        var remote :- rpc.BlockAt(head);
        if tip.value > head || rows[tip.value].hash != remote.hash {
          var ancestor :- CommonAncestor(rpc, remote);
          var _ :- RollbackCanonicalChain(ancestor);
          AncestorKeepsAgreed(w, rpc.blocks, old(rows), remote, ancestor);
          tip := Tip();
        }
      }
      return Success(tip);
    }

    /** Nothing is canonical yet, or the row just below `next` is the canonical tip. */
    ghost predicate ReadyFor(next: nat)
      reads this
    {
      && Below(rows, next - 1)
      && ((forall n: nat :: !Canonical(rows, n)) || (next > 0 && Canonical(rows, next - 1)))
    }

    method IndexNext(rpc: Rpc, next: nat) returns (r: Result<()>)
      requires Valid() && rpc.w == w && ReadyFor(next)
      modifies this, rpc
      ensures Valid()
      ensures r.Success? ==> ReadyFor(next + 1) && Adds(old(rows), rows, next, next + 1)
      ensures mode.Finalized? ==> FinalityGrows(old(rows), rows)
      ensures Since(old(ops), old(rows))
    {
      LeadsNowhere(mode, rows);
      var b :- rpc.BlockAt(next);
      var checked := EnsureParent(rpc, b);
      if checked.Failure? {
        return checked;
      }
      r := InsertOnParent(rpc, b);
    }

    /** A block whose parent was checked goes on top. */
    method InsertOnParent(rpc: Rpc, b: Block) returns (r: Result<()>)
      requires Valid() && rpc.w == w && Genuine(w, b) && ReadyFor(b.number)
      requires b.number > 0 && Canonical(rows, b.number - 1) ==> rows[b.number - 1].hash == b.parent
      modifies this, rpc
      ensures Valid() && (r.Success? ==> ReadyFor(b.number + 1) && Adds(old(rows), rows, b.number, b.number + 1))
      ensures FinalityGrows(old(rows), rows) && Since(old(ops), old(rows))
    {
      LeadsNowhere(mode, rows);
      ParentAllows(rows, b);
      r := IndexDeposits(rpc, b);
      if r.Success? {
        InsertIsTip(old(rows), b);
        LeadsFurther(mode, old(rows), [], old(rows), PutOn(b));
        assert ops[|old(ops)|..] == [] + [PutOn(b)];
      }
    }

    /** One more block, as part of a stretch that began with these operations and this table. */
    method IndexFurther(rpc: Rpc, next: nat, ghost first: nat, ghost was: seq<IndexOp>, ghost before: Rows)
      returns (r: Result<()>)
      requires Valid() && rpc.w == w && ReadyFor(next) && Since(was, before)
      requires first <= next && Adds(before, rows, first, next)
      requires mode.Finalized? ==> FinalityGrows(before, rows)
      modifies this, rpc
      ensures Valid() && Since(was, before)
      ensures r.Success? ==> ReadyFor(next + 1) && Adds(before, rows, first, next + 1)
      ensures mode.Finalized? ==> FinalityGrows(before, rows)
    {
      ghost var did, middle := ops, rows;
      r := IndexNext(rpc, next);
      if r.Success? {
        AddsFurther(before, middle, rows, first, next);
      }
      Continue(was, before, did, middle);
      if mode.Finalized? {
        GrowsOn(before, middle, rows);
      }
    }

    method IndexThrough(rpc: Rpc, first: nat, head: nat) returns (r: Result<()>)
      requires Valid() && rpc.w == w && ReadyFor(first) && first <= head + 1
      modifies this, rpc
      ensures Valid()
      ensures r.Success? ==> ReadyFor(head + 1) && Adds(old(rows), rows, first, head + 1)
      ensures mode.Finalized? ==> FinalityGrows(old(rows), rows)
      ensures Since(old(ops), old(rows))
    {
      LeadsNowhere(mode, rows);
      var next := first;
      while next <= head
        invariant first <= next <= head + 1 && Valid() && ReadyFor(next) && Adds(old(rows), rows, first, next)
        invariant mode.Finalized? ==> FinalityGrows(old(rows), rows)
        invariant Since(old(ops), old(rows))
      {
        r := IndexFurther(rpc, next, first, old(ops), old(rows));
        if r.Failure? {
          return;
        }
        next := next + 1;
      }
      r := Success(());
    }

    /** Two stretches of operations make one. */
    lemma Continue(was: seq<IndexOp>, before: Rows, mid: seq<IndexOp>, middle: Rows)
      requires was <= mid && Leads(mode, before, mid[|was|..], middle) && Since(mid, middle)
      ensures Since(was, before)
    {
      LeadsOn(mode, before, mid[|was|..], middle, ops[|mid|..], rows);
      assert mid[|was|..] + ops[|mid|..] == ops[|was|..];
    }

    /** The finality checks and the flag update that end a pass. */
    method AdvanceFinality(head: nat, finalized: Option<Block>) returns (r: Result<()>)
      requires Valid() && (finalized.Some? <==> mode.Finalized?)
      modifies this
      ensures Valid()
      ensures r.Failure? ==> rows == old(rows) && ops == old(ops)
      ensures r.Success? ==> |ops| == |old(ops)| + 1 && ops[..|old(ops)|] == old(ops) && ops[|old(ops)|].SetBoundary?
      ensures r.Success? ==> Legal(mode, old(rows), ops[|old(ops)|]) && rows == After(old(rows), ops[|old(ops)|])
      ensures mode.Finalized? ==> FinalityGrows(old(rows), rows)
      ensures r.Success? ==> rows.Keys == old(rows).Keys && forall n :: n in rows ==>
        rows[n] == old(rows)[n].(finalized := old(rows)[n].canonical && n <= FinalizedThrough(head, finalized))
      ensures r.Success? && finalized.Some? ==> finalized.value.number <= head
      ensures r.Success? && finalized.Some? && Canonical(rows, finalized.value.number) ==>
        rows[finalized.value.number].hash == finalized.value.hash
    {
      var through: Option<nat>;
      match finalized {
        case Some(block) =>
          if block.number > head {
            return Failure(Reorganized);
          }
          if Canonical(rows, block.number) && rows[block.number].hash != block.hash {
            return Failure(Reorganized);
          }
          if exists n :: n in rows && rows[n].canonical && rows[n].finalized && n > block.number {
            return Failure(FinalityConflict);
          }
          through := Some(block.number);
        case None =>
          var depth := (if confirmations > 1 then confirmations else 1) - 1;
          through := if depth <= head then Some(head - depth) else None;
      }
      FinalizeKeepsForm(w, rows, through);
      ops := ops + [SetBoundary(through)];
      rows := Finalize(rows, through);
      return Success(());
    }

    /** Align, index to the head, and compare the head's hash. */
    method IndexChain(rpc: Rpc, head: nat) returns (r: Result<Block>)
      requires Valid() && rpc.w == w
      modifies this, rpc
      ensures Valid() && (mode.Finalized? ==> FinalityGrows(old(rows), rows))
      ensures r.Success? ==> Genuine(w, r.value) && r.value.number == head && Canonical(rows, head) && Below(rows, head)
      ensures r.Success? ==> forall n: nat :: Canonical(rows, n) ==> AgreeAt(w, rows, r.value.hash, n)
      ensures r.Success? ==> Indexed(old(rows), rows, start, head)
      ensures r.Success? ==> KeepsAgreed(w, rpc.blocks, head, old(rows), rows)
      ensures Since(old(ops), old(rows))
    {
      var indexed := IndexToHead(rpc, head);
      if indexed.Failure? {
        return Failure(indexed.fault);
      }
      var headBlock :- rpc.BlockAt(head);
      if !Canonical(rows, head) || rows[head].hash != headBlock.hash {
        return Failure(Reorganized);
      }
      HeadDecidesAll(w, rows, headBlock);
      return Success(headBlock);
    }

    method IndexToHead(rpc: Rpc, head: nat) returns (r: Result<()>)
      requires Valid() && rpc.w == w
      modifies this, rpc
      ensures Valid() && (mode.Finalized? ==> FinalityGrows(old(rows), rows))
      ensures r.Success? ==> Below(rows, head) && Indexed(old(rows), rows, start, head)
      ensures r.Success? ==> KeepsAgreed(w, rpc.blocks, head, old(rows), rows)
      ensures Since(old(ops), old(rows))
    {
      var aligned := AlignTip(rpc, head);
      if aligned.Failure? {
        return Failure(aligned.fault);
      }
      var tip := aligned.value;
      var next := if tip.Some? then tip.value + 1 else Min(start.GetOr(head), head);
      ghost var was, before := ops, rows;
      r := IndexThrough(rpc, next, head);
      if r.Success? {
        WholeRange(old(rows), before, rows, tip, start, head);
        KeptThrough(w, rpc.blocks, head, old(rows), before, rows, next);
      }
      Continue(old(ops), old(rows), was, before);
      if mode.Finalized? {
        GrowsOn(old(rows), before, rows);
      }
    }

    /**
      One pass of the indexer.  It succeeds only when the canonical rows are
      exactly the ancestors of the remote head over the indexed range, although
      a single hash is compared at the end.
     */
    method IndexBlocks(rpc: Rpc, head: nat, finalized: Option<Block>) returns (r: Result<Block>)
      requires Valid() && rpc.w == w
      requires finalized.Some? <==> mode.Finalized?
      requires finalized.Some? ==> Genuine(w, finalized.value)
      modifies this, rpc
      ensures Valid()
      ensures mode.Finalized? ==> FinalityGrows(old(rows), rows)
      ensures r.Success? ==> Genuine(w, r.value) && r.value.number == head && Canonical(rows, head) && Below(rows, head)
      ensures r.Success? ==> forall n: nat :: Canonical(rows, n) ==> AgreeAt(w, rows, r.value.hash, n)
      ensures r.Success? ==> Indexed(old(rows), rows, start, head)
      ensures r.Success? ==> KeepsAgreed(w, rpc.blocks, head, old(rows), rows)
      ensures r.Success? && finalized.Some? ==> finalized.value.number <= head
      ensures r.Success? && finalized.Some? && Canonical(rows, finalized.value.number) ==>
        rows[finalized.value.number].hash == finalized.value.hash
      ensures r.Success? ==> forall n: nat :: n in rows ==>
        (rows[n].finalized <==> rows[n].canonical && n <= FinalizedThrough(head, finalized))
      ensures r.Failure? ==> Since(old(ops), old(rows))
      ensures r.Success? ==> Passed(old(ops), old(rows))
    {
      var headBlock := IndexChain(rpc, head);
      if headBlock.Failure? {
        return headBlock;
      }
      ghost var indexed, did := rows, ops;
      var advanced := AdvanceFinality(head, finalized);
      if mode.Finalized? {
        GrowsOn(old(rows), indexed, rows);
      }
      if advanced.Failure? {
        return Failure(advanced.fault);
      }
      EndPass(old(ops), old(rows), did, indexed);
      SameBlocksAgree(w, indexed, rows, headBlock.value.hash);
      SameBlocksIndexed(w, rpc.blocks, old(rows), indexed, rows, start, head);
      return headBlock;
    }

    lemma EndPass(was: seq<IndexOp>, before: Rows, did: seq<IndexOp>, indexed: Rows)
      requires was <= did && Leads(mode, before, did[|was|..], indexed)
      requires |ops| == |did| + 1 && ops[..|did|] == did && ops[|did|].SetBoundary?
      requires Legal(mode, indexed, ops[|did|]) && rows == After(indexed, ops[|did|])
      ensures Passed(was, before)
    {
      assert ops[|was|..|ops| - 1] == did[|was|..];
    }

    /** A whole pass: blocks were rolled back and indexed, and then the boundary was set. */
    ghost predicate Passed(was: seq<IndexOp>, before: Rows)
      reads this
    {
      |was| < |ops| && was <= ops && ops[|ops| - 1].SetBoundary? &&
      var ended := AfterAll(before, ops[|was|..|ops| - 1]);
      && Leads(mode, before, ops[|was|..|ops| - 1], ended)
      && Legal(mode, ended, ops[|ops| - 1]) && rows == After(ended, ops[|ops| - 1])
    }

    /** The height through which a successful pass marks rows final; -1 when there is none. */
    function FinalizedThrough(head: nat, finalized: Option<Block>): int {
      match finalized
      case Some(block) => block.number
      case None =>
        var depth := (if confirmations > 1 then confirmations else 1) - 1;
        if depth <= head then head - depth else -1
    }
  }

  lemma UpsertUnique(table: Table, d: Deposit, block: nat, hash: Hash)
    requires !LogTaken(table, d)
    ensures UniqueLogs(table) ==> UniqueLogs(Upsert(table, d, block, hash))
  {
  }

  /** Below a gap in a contiguous table there is nothing. */
  lemma NothingBelow(rows: Rows, gap: nat, above: nat)
    requires Contiguous(rows) && !Canonical(rows, gap) && Canonical(rows, above) && gap <= above
    ensures forall n: nat :: Canonical(rows, n) ==> n > gap
  {
  }

  /** A row just below with the parent's hash, or an empty table, is what inserting needs. */
  lemma ParentAllows(rows: Rows, b: Block)
    requires (forall n: nat :: !Canonical(rows, n)) || (b.number > 0 && Canonical(rows, b.number - 1))
    requires b.number > 0 && Canonical(rows, b.number - 1) ==> rows[b.number - 1].hash == b.parent
    ensures (forall n: nat :: !Canonical(rows, n)) ||
            (b.number > 0 && Canonical(rows, b.number - 1) && rows[b.number - 1].hash == b.parent)
  {
  }

  lemma InsertIsTip(rows: Rows, b: Block)
    requires Below(rows, b.number - 1)
    ensures Canonical(InsertBlock(rows, b), b.number) && Below(InsertBlock(rows, b), b.number)
  {
    assert forall n: nat :: Canonical(InsertBlock(rows, b), n) ==> n == b.number || Canonical(rows, n);
  }

  /** Comparing the head's hash alone decides agreement at every indexed height. */
  lemma HeadDecidesAll(w: World, rows: Rows, head: Block)
    requires WellFormed(w, rows) && Genuine(w, head) && Below(rows, head.number)
    requires Canonical(rows, head.number) && rows[head.number].hash == head.hash
    ensures forall n: nat :: Canonical(rows, n) ==> AgreeAt(w, rows, head.hash, n)
  {
    forall n: nat | Canonical(rows, n)
      ensures AgreeAt(w, rows, head.hash, n)
    {
      AgreementGoesDown(w, rows, head.hash, n, head.number);
    }
  }
}
