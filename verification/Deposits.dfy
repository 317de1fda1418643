/** Bridge deposits as the contract emits them and as the gateway stores them. */
module Deposits {
  import opened Common

  /** The immutable identity of an ERC-20 deposit; native deposits have none. */
  datatype Identity =
    | HistoricalV1(asset: Hash)
    | RegistryV2(asset: Hash, index: nat, commitment: Hash)

  datatype Deposit = Deposit(
    nonce: nat,
    leaf: Hash,
    oldState: Hash,
    newState: Hash,
    token: Key,
    identity: Option<Identity>,
    sender: Key,
    recipient: Hash,
    amount: nat,
    zekoAmount: nat,
    timeout: nat,
    tx: Hash,
    logIndex: nat)

  /** What the bridge proof of a deposit adds to its row. */
  datatype Binding = Binding(job: Option<nat>, sequence: Option<nat>, stateAfter: Option<Field>)

  const UNBOUND := Binding(None, None, None)

  datatype DepositRow = DepositRow(deposit: Deposit, block: nat, hash: Hash, removed: bool, binding: Binding)

  type Table = map<nat, DepositRow>

  /** The table's unique index on (transaction hash, log index) also covers removed rows. */
  predicate LogTaken(table: Table, d: Deposit) {
    exists n :: n in table && n != d.nonce && table[n].deposit.tx == d.tx && table[n].deposit.logIndex == d.logIndex
  }

  /** Each log is the source of one row at most, whether or not the row is removed. */
  predicate UniqueLogs(table: Table) {
    forall m, n :: m in table && n in table && m != n ==>
      table[m].deposit.tx != table[n].deposit.tx || table[m].deposit.logIndex != table[n].deposit.logIndex
  }

  /** Insert, or overwrite every column but the bridge binding. */
  function Upsert(table: Table, d: Deposit, block: nat, hash: Hash): Table {
    table[d.nonce := DepositRow(d, block, hash, false,
                                if d.nonce in table then table[d.nonce].binding else UNBOUND)]
  }

  function MarkRemoved(table: Table, ancestor: int): Table {
    map n | n in table :: if table[n].block > ancestor then table[n].(removed := true) else table[n]
  }

  /** A rollback also frees the deposits of bridge jobs whose block it undoes. */
  function ClearBindings(table: Table, jobs: set<nat>): Table {
    map n | n in table ::
      if table[n].binding.job.Some? && table[n].binding.job.value in jobs
      then table[n].(binding := UNBOUND) else table[n]
  }
}
