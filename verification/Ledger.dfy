/**
  The virtual Mina accounts, the undo log that a reorganization replays
  backwards, and the application of accepted Ethereum receipts.
 */
module Ledger {
  import opened Common

  datatype Account = Account(
    zkappState: seq<Field>,
    actionState: Option<seq<Field>>,
    proved: bool,
    nonce: Option<nat>)

  type Accounts = map<Key, Account>

  /** One snapshot, keyed by (job, key), taken before a job first changes the account. */
  datatype HistoryRow = HistoryRow(job: nat, key: Key, before: Account, block: nat, hash: Hash)

  /** What an accepted receipt does to the accounts. */
  datatype Effect =
    | SettlementEffect(outer: Key, feePayer: Key, nonce: nat, fields: seq<Field>, before: Field, after: Field)
    | BridgeEffect(outer: Key, before: Field, states: seq<Field>)

  datatype Application = Application(job: nat, block: nat, hash: Hash, effect: Effect)

  datatype State = State(accounts: Accounts, history: seq<HistoryRow>)

  const EMPTY_ACTIONS: seq<Field> := [0, 0, 0, 0, 0]

  // ---------- effects on the accounts ----------

  function Actions(account: Account): seq<Field> {
    account.actionState.GetOr(EMPTY_ACTIONS)
  }

  function Take(s: seq<Field>, n: nat): seq<Field> {
    if |s| <= n then s else s[..n]
  }

  function SettledOuter(account: Account, fields: seq<Field>, before: Field, after: Field): Account {
    account.(zkappState := fields,
             actionState := Some([after, before] + Take(Actions(account), 3)),
             proved := true)
  }

  function BridgedOuter(account: Account, states: seq<Field>): Account {
    account.(actionState := Some(Take(Reverse(states) + Actions(account), 5)))
  }

  function Advanced(account: Account): Account {
    account.(nonce := Some(account.nonce.GetOr(0) + 1))
  }

  /** The accounts after an effect; failures leave the transaction uncommitted. */
  function EffectOn(accounts: Accounts, effect: Effect): Result<Accounts> {
    match effect
    case SettlementEffect(outer, feePayer, nonce, fields, before, after) =>
      if outer !in accounts then Failure(Missing) else
      var settled := accounts[outer := SettledOuter(accounts[outer], fields, before, after)];
      if feePayer !in settled then Failure(Missing) else
      var current := settled[feePayer].nonce.GetOr(0);
      if current != nonce then Failure(Mismatch)
      else if current + 1 >= U64_LIMIT then Failure(Invalid)
      else Success(settled[feePayer := Advanced(settled[feePayer])])
    case BridgeEffect(outer, before, states) =>
      if states == [] then Failure(Invalid)
      else if outer !in accounts then Failure(Missing)
      else if Actions(accounts[outer]) == [] || Actions(accounts[outer])[0] != before then Failure(Mismatch)
      else Success(accounts[outer := BridgedOuter(accounts[outer], states)])
  }

  // ---------- the undo log ----------

  predicate Recorded(history: seq<HistoryRow>, job: nat) {
    exists i :: 0 <= i < |history| && history[i].job == job
  }

  predicate RecordedKey(history: seq<HistoryRow>, job: nat, key: Key) {
    exists i :: 0 <= i < |history| && history[i].job == job && history[i].key == key
  }

  /** `ON CONFLICT (job_id, public_key, token_id) DO NOTHING`. */
  function Snapshot(history: seq<HistoryRow>, app: Application, key: Key, account: Account): seq<HistoryRow> {
    if RecordedKey(history, app.job, key) then history
    else history + [HistoryRow(app.job, key, account, app.block, app.hash)]
  }

  /** The rows one application adds: its pre-images, one per distinct account. */
  function RowsOf(accounts: Accounts, app: Application): seq<HistoryRow>
    requires EffectOn(accounts, app.effect).Success?
  {
    var outer := app.effect.outer;
    var first := HistoryRow(app.job, outer, accounts[outer], app.block, app.hash);
    if app.effect.SettlementEffect? && app.effect.feePayer != outer
    then [first, HistoryRow(app.job, app.effect.feePayer, accounts[app.effect.feePayer], app.block, app.hash)]
    else [first]
  }

  /** The whole application transaction: a job that already has history is left alone. */
  function Apply(s: State, app: Application): Result<State> {
    if app.effect.BridgeEffect? && app.effect.states == [] then Failure(Invalid)
    else if Recorded(s.history, app.job) then Success(s)
    else
      var accounts :- EffectOn(s.accounts, app.effect);
      Success(State(accounts, s.history + RowsOf(s.accounts, app)))
  }

  /** `ORDER BY ethereum_block_number DESC, created_at DESC` over the rows above `ancestor`. */
  function UndoOrder(history: seq<HistoryRow>, ancestor: int): seq<HistoryRow> {
    if history == [] then []
    else
      var rest := UndoOrder(history[..|history| - 1], ancestor);
      var last := history[|history| - 1];
      if last.block > ancestor then InsertDescending(rest, last) else rest
  }

  function InsertDescending(rows: seq<HistoryRow>, row: HistoryRow): seq<HistoryRow> {
    if rows == [] || rows[0].block <= row.block then [row] + rows
    else [rows[0]] + InsertDescending(rows[1..], row)
  }

  function Restore(accounts: Accounts, rows: seq<HistoryRow>): Accounts {
    if rows == [] then accounts
    else
      var row := rows[0];
      Restore(if row.key in accounts then accounts[row.key := row.before] else accounts, rows[1..])
  }

  function KeepRows(history: seq<HistoryRow>, ancestor: int): seq<HistoryRow> {
    if history == [] then []
    else
      var rest := KeepRows(history[..|history| - 1], ancestor);
      var last := history[|history| - 1];
      if last.block > ancestor then rest else rest + [last]
  }

  function Rollback(s: State, ancestor: int): State {
    State(Restore(s.accounts, UndoOrder(s.history, ancestor)), KeepRows(s.history, ancestor))
  }

  // ---------- the reference: replaying applications from the initial accounts ----------

  /** `apps`, applied in order to `initial`, all succeed. */
  predicate Replayable(initial: Accounts, apps: seq<Application>)
    decreases |apps|, 0
  {
    apps == [] ||
    (Replayable(initial, apps[..|apps| - 1]) &&
     EffectOn(Replay(initial, apps[..|apps| - 1]), apps[|apps| - 1].effect).Success?)
  }

  function Replay(initial: Accounts, apps: seq<Application>): Accounts
    requires Replayable(initial, apps)
    decreases |apps|, 1
  {
    if apps == [] then initial
    else EffectOn(Replay(initial, apps[..|apps| - 1]), apps[|apps| - 1].effect).value
  }

  function HistoryOf(initial: Accounts, apps: seq<Application>): seq<HistoryRow>
    requires Replayable(initial, apps)
  {
    if apps == [] then []
    else
      var earlier := apps[..|apps| - 1];
      HistoryOf(initial, earlier) + RowsOf(Replay(initial, earlier), apps[|apps| - 1])
  }

  /** The stored accounts and undo log are exactly those of applying `apps` in order. */
  predicate Represents(s: State, initial: Accounts, apps: seq<Application>) {
    && Replayable(initial, apps)
    && s.accounts == Replay(initial, apps)
    && s.history == HistoryOf(initial, apps)
  }

  /** Applications happened in non-decreasing block order. */
  predicate Ordered(apps: seq<Application>) {
    forall i, j :: 0 <= i < j < |apps| ==> apps[i].block <= apps[j].block
  }

  /** The applications at or below `ancestor`, in their original order. */
  function UpTo(apps: seq<Application>, ancestor: int): seq<Application> {
    if apps == [] then []
    else
      var rest := UpTo(apps[..|apps| - 1], ancestor);
      var last := apps[|apps| - 1];
      if last.block <= ancestor then rest + [last] else rest
  }

  lemma {:induction false} ApplyExtendsReplay(s: State, initial: Accounts, apps: seq<Application>, app: Application)
    requires Represents(s, initial, apps)
    requires !Recorded(s.history, app.job)
    requires Apply(s, app).Success?
    ensures Represents(Apply(s, app).value, initial, apps + [app])
  {
    assert (apps + [app])[..|apps|] == apps;
  }

  /** A first application records its job, and nothing else. */
  lemma ApplyHistory(s: State, app: Application)
    requires Apply(s, app).Success? && !Recorded(s.history, app.job)
    ensures forall o :: Recorded(Apply(s, app).value.history, o) <==> Recorded(s.history, o) || o == app.job
    ensures Apply(s, app).value != s
  {
    var rows := RowsOf(s.accounts, app);
    forall o
      ensures Recorded(s.history + rows, o) <==> Recorded(s.history, o) || o == app.job
    {
      RecordedConcat(s.history, rows, o);
      RowsRecord(s.accounts, app, o);
    }
    assert |Apply(s, app).value.history| > |s.history|;
  }

  /** One application is undone by restoring its own rows, in either order. */
  lemma RestoreUndoesOne(accounts: Accounts, app: Application, rows: seq<HistoryRow>)
    requires EffectOn(accounts, app.effect).Success?
    requires rows == RowsOf(accounts, app) || rows == Reverse(RowsOf(accounts, app))
    ensures Restore(EffectOn(accounts, app.effect).value, rows) == accounts
  {
    var after := EffectOn(accounts, app.effect).value;
    if |rows| == 1 {
      assert after[rows[0].key := rows[0].before] == accounts;
      assert Restore(after, rows) == Restore(after[rows[0].key := rows[0].before], rows[1..]);
    } else {
      var middle := after[rows[0].key := rows[0].before];
      assert middle[rows[1].key := rows[1].before] == accounts;
      assert Restore(after, rows) == Restore(middle, rows[1..]);
      assert rows[1..][1..] == [];
    }
  }

  lemma RestoreConcat(accounts: Accounts, first: seq<HistoryRow>, second: seq<HistoryRow>)
    ensures Restore(accounts, first + second) == Restore(Restore(accounts, first), second)
    decreases |first|
  {
    if first == [] {
      assert first + second == second;
    } else {
      var row := first[0];
      assert (first + second)[1..] == first[1..] + second;
      RestoreConcat(if row.key in accounts then accounts[row.key := row.before] else accounts, first[1..], second);
    }
  }

  /** A block of rows at one height is undone first, in reverse, when nothing recorded is above it. */
  lemma {:induction false} UndoLatest(history: seq<HistoryRow>, rows: seq<HistoryRow>, ancestor: int, block: nat)
    requires block > ancestor
    requires forall i :: 0 <= i < |history| ==> history[i].block <= block
    requires forall i :: 0 <= i < |rows| ==> rows[i].block == block
    ensures UndoOrder(history + rows, ancestor) == Reverse(rows) + UndoOrder(history, ancestor)
    ensures KeepRows(history + rows, ancestor) == KeepRows(history, ancestor)
    decreases |rows|
  {
    if rows == [] {
      assert history + rows == history;
    } else {
      var earlier := rows[..|rows| - 1];
      var last := rows[|rows| - 1];
      UndoLatest(history, earlier, ancestor, block);
      assert history + rows == (history + earlier) + [last];
      UndoNewest(history + earlier, last, ancestor);
      ReverseSnoc(earlier, last);
      assert rows == earlier + [last];
      Reassociate([last], Reverse(earlier), UndoOrder(history, ancestor));
    }
  }

  lemma Reassociate(a: seq<HistoryRow>, b: seq<HistoryRow>, c: seq<HistoryRow>)
    ensures a + (b + c) == (a + b) + c
  {
  }

  lemma ReverseSnoc(rows: seq<HistoryRow>, last: HistoryRow)
    ensures Reverse(rows + [last]) == [last] + Reverse(rows)
  {
    assert (rows + [last])[..|rows|] == rows;
  }

  lemma UndoNewest(history: seq<HistoryRow>, row: HistoryRow, ancestor: int)
    requires row.block > ancestor && forall i :: 0 <= i < |history| ==> history[i].block <= row.block
    ensures UndoOrder(history + [row], ancestor) == [row] + UndoOrder(history, ancestor)
    ensures KeepRows(history + [row], ancestor) == KeepRows(history, ancestor)
  {
    assert (history + [row])[..|history|] == history;
    UndoOrderBounded(history, ancestor, row.block);
    LatestFirst(UndoOrder(history, ancestor), row);
  }

  lemma LatestFirst(rows: seq<HistoryRow>, row: HistoryRow)
    requires forall i :: 0 <= i < |rows| ==> rows[i].block <= row.block
    ensures InsertDescending(rows, row) == [row] + rows
  {
  }

  lemma {:induction false} UndoOrderBounded(history: seq<HistoryRow>, ancestor: int, block: int)
    requires forall i :: 0 <= i < |history| ==> history[i].block <= block
    ensures forall i :: 0 <= i < |UndoOrder(history, ancestor)| ==> UndoOrder(history, ancestor)[i].block <= block
  {
    if history != [] {
      UndoOrderBounded(history[..|history| - 1], ancestor, block);
      InsertBounded(UndoOrder(history[..|history| - 1], ancestor), history[|history| - 1], block);
    }
  }

  lemma {:induction false} InsertBounded(rows: seq<HistoryRow>, row: HistoryRow, block: int)
    requires row.block <= block
    requires forall i :: 0 <= i < |rows| ==> rows[i].block <= block
    ensures forall i :: 0 <= i < |InsertDescending(rows, row)| ==> InsertDescending(rows, row)[i].block <= block
  {
    if rows != [] && rows[0].block > row.block {
      InsertBounded(rows[1..], row, block);
    }
  }

  lemma {:induction false} HistoryBounded(initial: Accounts, apps: seq<Application>, block: int)
    requires Replayable(initial, apps)
    requires forall i :: 0 <= i < |apps| ==> apps[i].block <= block
    ensures forall i :: 0 <= i < |HistoryOf(initial, apps)| ==> HistoryOf(initial, apps)[i].block <= block
  {
    if apps != [] {
      HistoryBounded(initial, apps[..|apps| - 1], block);
    }
  }

  lemma {:induction false} UpToAll(apps: seq<Application>, ancestor: int)
    requires forall i :: 0 <= i < |apps| ==> apps[i].block <= ancestor
    ensures UpTo(apps, ancestor) == apps
  {
    if apps != [] {
      UpToAll(apps[..|apps| - 1], ancestor);
      assert apps == apps[..|apps| - 1] + [apps[|apps| - 1]];
    }
  }

  /**
    Rolling back is an exact undo.  Whatever was applied, in however many jobs
    per block and with jobs touching one account or two, the accounts and the
    undo log left behind are those of replaying only the applications at or
    below the ancestor from the initial accounts.
   */
  lemma {:induction false} RollbackIsReplay(s: State, initial: Accounts, apps: seq<Application>, ancestor: int)
    requires Represents(s, initial, apps)
    requires Ordered(apps)
    ensures Represents(Rollback(s, ancestor), initial, UpTo(apps, ancestor))
    ensures Ordered(UpTo(apps, ancestor))
    decreases |apps|
  {
    if apps != [] {
      var earlier := apps[..|apps| - 1];
      var last := apps[|apps| - 1];
      if last.block > ancestor {
        RollbackIsReplay(State(Replay(initial, earlier), HistoryOf(initial, earlier)), initial, earlier, ancestor);
        LastUndone(s, initial, apps, ancestor);
      } else {
        UpToAll(apps, ancestor);
        NothingToUndo(s.history, ancestor, initial, apps);
      }
    }
  }

  /** Undoing includes undoing the last application first, as if it had not happened. */
  lemma LastUndone(s: State, initial: Accounts, apps: seq<Application>, ancestor: int)
    requires Represents(s, initial, apps) && Ordered(apps) && apps != [] && apps[|apps| - 1].block > ancestor
    ensures var earlier := apps[..|apps| - 1];
      Rollback(s, ancestor) == Rollback(State(Replay(initial, earlier), HistoryOf(initial, earlier)), ancestor)
  {
    var earlier, last := apps[..|apps| - 1], apps[|apps| - 1];
    var before, history := Replay(initial, earlier), HistoryOf(initial, earlier);
    var rows := RowsOf(before, last);
    HistoryBounded(initial, earlier, last.block);
    UndoLatest(history, rows, ancestor, last.block);
    RestoreConcat(s.accounts, Reverse(rows), UndoOrder(history, ancestor));
    RestoreUndoesOne(before, last, Reverse(rows));
  }

  lemma {:induction false} NothingToUndo(history: seq<HistoryRow>, ancestor: int, initial: Accounts,
      apps: seq<Application>)
    requires Replayable(initial, apps) && history == HistoryOf(initial, apps)
    requires forall i :: 0 <= i < |apps| ==> apps[i].block <= ancestor
    ensures UndoOrder(history, ancestor) == [] && KeepRows(history, ancestor) == history
  {
    HistoryBounded(initial, apps, ancestor);
    KeepAll(history, ancestor);
  }

  lemma {:induction false} KeepAll(history: seq<HistoryRow>, ancestor: int)
    requires forall i :: 0 <= i < |history| ==> history[i].block <= ancestor
    ensures UndoOrder(history, ancestor) == [] && KeepRows(history, ancestor) == history
  {
    if history != [] {
      KeepAll(history[..|history| - 1], ancestor);
      assert history == history[..|history| - 1] + [history[|history| - 1]];
    }
  }

  /**
    Block order is needed.  Two bridge applications to one account, the later
    one at the lower height: undoing both leaves the account as the first one
    made it, because its own pre-image is restored before the later one's.
   */
  lemma OutOfOrderRollbackDiffers(key: Key, hash: Hash)
    ensures var account := Account([], Some([0]), false, None);
      var initial: Accounts := map[key := account];
      var apps := [Application(1, 10, hash, BridgeEffect(key, 0, [7])),
                   Application(2, 5, hash, BridgeEffect(key, 7, [8]))];
      Replayable(initial, apps) && !Ordered(apps) && Replayable(initial, UpTo(apps, 4)) &&
      Rollback(State(Replay(initial, apps), HistoryOf(initial, apps)), 4).accounts != Replay(initial, UpTo(apps, 4))
  {
    var account := Account([], Some([0]), false, None);
    var initial: Accounts := map[key := account];
    var first := Application(1, 10, hash, BridgeEffect(key, 0, [7]));
    var second := Application(2, 5, hash, BridgeEffect(key, 7, [8]));
    var apps := [first, second];
    var middle := account.(actionState := Some([7, 0]));
    assert apps[..1] == [first] && [first][..0] == [];
    assert Reverse([7]) == [7] && Reverse([8]) == [8];
    assert Take(Reverse([7]) + [0], 5) == [7, 0];
    assert BridgedOuter(account, [7]) == middle;
    assert EffectOn(initial, first.effect) == Success(initial[key := middle]);
    assert Replayable(initial, []);
    assert Replayable(initial, [first]);
    assert Replay(initial, [first]) == map[key := middle];
    var rows := [HistoryRow(1, key, account, 10, hash), HistoryRow(2, key, middle, 5, hash)];
    assert HistoryOf(initial, [first]) == [rows[0]];
    assert HistoryOf(initial, apps) == rows;
    assert rows[..1] == [rows[0]] && [rows[0]][..0] == [];
    assert UndoOrder([rows[0]], 4) == [rows[0]];
    assert [rows[0]][1..] == [];
    assert InsertDescending([], rows[1]) == [rows[1]];
    assert UndoOrder(rows, 4) == rows;
    var top := Replay(initial, apps);
    assert Restore(top, rows) == Restore(top[key := account], [rows[1]]) by { assert rows[1..] == [rows[1]]; }
    assert [rows[1]][1..] == [];
    assert Restore(top[key := account], [rows[1]]) == top[key := account][key := middle];
    assert UpTo([first], 4) == [];
    assert UpTo(apps, 4) == [];
  }

  // ---------- what one application does to the accounts ----------

  /** A first settlement receipt is accepted exactly for known accounts and the payer's next nonce. */
  lemma SettlementAcceptedIff(s: State, app: Application)
    requires app.effect.SettlementEffect? && !Recorded(s.history, app.job)
    ensures Apply(s, app).Success? <==>
      && app.effect.outer in s.accounts && app.effect.feePayer in s.accounts
      && s.accounts[app.effect.feePayer].nonce.GetOr(0) == app.effect.nonce && app.effect.nonce + 1 < U64_LIMIT
    ensures app.effect.outer !in s.accounts || app.effect.feePayer !in s.accounts ==> Apply(s, app) == Failure(Missing)
  {
  }

  /** It puts the proved state into the outer account, moves the payer's nonce on, and touches nothing else. */
  lemma SettlementChanges(s: State, app: Application)
    requires app.effect.SettlementEffect? && !Recorded(s.history, app.job) && Apply(s, app).Success?
    ensures var e, t := app.effect, Apply(s, app).value.accounts;
      && t.Keys == s.accounts.Keys && e.outer in t && e.feePayer in t
      && t[e.outer].zkappState == e.fields && t[e.outer].proved
      && t[e.outer].actionState.Some? && |t[e.outer].actionState.value| >= 2
      && t[e.outer].actionState.value[0] == e.after && t[e.outer].actionState.value[1] == e.before
      && t[e.outer].nonce == (if e.feePayer == e.outer then Some(e.nonce + 1) else s.accounts[e.outer].nonce)
      && (e.feePayer != e.outer ==> t[e.feePayer] == s.accounts[e.feePayer].(nonce := Some(e.nonce + 1)))
      && forall k :: k in t && k != e.outer && k != e.feePayer ==> t[k] == s.accounts[k]
  {
  }

  /** A first bridge receipt is accepted exactly when it starts from the newest stored state. */
  lemma BridgeAcceptedIff(s: State, app: Application)
    requires app.effect.BridgeEffect? && !Recorded(s.history, app.job)
    ensures Apply(s, app).Success? <==>
      && app.effect.states != [] && app.effect.outer in s.accounts
      && Actions(s.accounts[app.effect.outer]) != []
      && Actions(s.accounts[app.effect.outer])[0] == app.effect.before
  {
  }

  /** It makes its last state the newest one, and changes nothing but that account's actions. */
  lemma BridgeChanges(s: State, app: Application)
    requires app.effect.BridgeEffect? && !Recorded(s.history, app.job) && Apply(s, app).Success?
    ensures var e, t := app.effect, Apply(s, app).value.accounts;
      && t.Keys == s.accounts.Keys && e.outer in t && t[e.outer].actionState.Some? && t[e.outer].actionState.value != []
      && t[e.outer].actionState.value[0] == e.states[|e.states| - 1]
      && t[e.outer] == s.accounts[e.outer].(actionState := t[e.outer].actionState)
      && forall k :: k in t && k != e.outer ==> t[k] == s.accounts[k]
  {
  }

  // ---------- any history of applying and undoing ----------

  datatype Op = DoApply(app: Application) | Undo(ancestor: int)

  function Act(s: State, op: Op): State {
    match op
    case DoApply(app) => if Apply(s, app).Success? then Apply(s, app).value else s
    case Undo(ancestor) => Rollback(s, ancestor)
  }

  function ActAll(s: State, ops: seq<Op>): State {
    if ops == [] then s else Act(ActAll(s, ops[..|ops| - 1]), ops[|ops| - 1])
  }

  /** The applications in force after a history: each new one added, each undone one dropped. */
  function InForce(s: State, ops: seq<Op>): seq<Application> {
    if ops == [] then []
    else
      var earlier := InForce(s, ops[..|ops| - 1]);
      match ops[|ops| - 1]
      case DoApply(app) => if ActAll(s, ops) != ActAll(s, ops[..|ops| - 1]) then earlier + [app] else earlier
      case Undo(ancestor) => UpTo(earlier, ancestor)
  }

  /** Nothing is applied at a height below what is already in force. */
  predicate Ascending(s: State, ops: seq<Op>) {
    forall k :: 0 <= k < |ops| && ops[k].DoApply? ==>
      forall i :: 0 <= i < |InForce(s, ops[..k])| ==> InForce(s, ops[..k])[i].block <= ops[k].app.block
  }

  /**
    However often receipts are applied, repeated, refused and undone, the
    accounts are always those of replaying what is in force from the start.
   */
  lemma {:induction false} HistoryIsReplay(initial: Accounts, ops: seq<Op>)
    requires Ascending(State(initial, []), ops)
    ensures Represents(ActAll(State(initial, []), ops), initial, InForce(State(initial, []), ops))
    ensures Ordered(InForce(State(initial, []), ops))
    decreases |ops|
  {
    var s := State(initial, []);
    if ops != [] {
      var n := |ops| - 1;
      var earlier := ops[..n];
      assert forall k :: 0 <= k < n ==> earlier[..k] == ops[..k] && earlier[k] == ops[k];
      HistoryIsReplay(initial, earlier);
      match ops[n]
      case DoApply(app) =>
        var before := ActAll(s, earlier);
        if Apply(before, app).Success? && !Recorded(before.history, app.job) {
          ApplyExtendsReplay(before, initial, InForce(s, earlier), app);
        }
      case Undo(ancestor) => RollbackIsReplay(ActAll(s, earlier), initial, InForce(s, earlier), ancestor);
    }
  }

  // ---------- what replaying means for the fee payer ----------

  function Settlements(apps: seq<Application>, feePayer: Key): nat {
    if apps == [] then 0
    else
      var last := apps[|apps| - 1].effect;
      Settlements(apps[..|apps| - 1], feePayer) +
      if last.SettlementEffect? && last.feePayer == feePayer then 1 else 0
  }

  /** A fee payer's nonce counts the settlements applied for it, and only those. */
  lemma {:induction false} NonceCountsSettlements(initial: Accounts, apps: seq<Application>, feePayer: Key)
    requires Replayable(initial, apps) && feePayer in initial
    ensures Replay(initial, apps).Keys == initial.Keys
    ensures Replay(initial, apps)[feePayer].nonce.GetOr(0)
      == initial[feePayer].nonce.GetOr(0) + Settlements(apps, feePayer)
  {
    if apps != [] {
      NonceCountsSettlements(initial, apps[..|apps| - 1], feePayer);
    }
  }

  /** Undoing and redoing settlements never loses or repeats a nonce. */
  lemma RollbackNonce(s: State, initial: Accounts, apps: seq<Application>, ancestor: int, feePayer: Key)
    requires Represents(s, initial, apps) && Ordered(apps) && feePayer in initial
    ensures feePayer in Rollback(s, ancestor).accounts
    ensures Rollback(s, ancestor).accounts[feePayer].nonce.GetOr(0)
      == initial[feePayer].nonce.GetOr(0) + Settlements(UpTo(apps, ancestor), feePayer)
  {
    RollbackIsReplay(s, initial, apps, ancestor);
    NonceCountsSettlements(initial, UpTo(apps, ancestor), feePayer);
  }

  predicate AppliesJob(apps: seq<Application>, job: nat) {
    exists i :: 0 <= i < |apps| && apps[i].job == job
  }

  lemma AppliesSnoc(apps: seq<Application>, last: Application, job: nat)
    ensures AppliesJob(apps + [last], job) <==> AppliesJob(apps, job) || last.job == job
  {
    var all := apps + [last];
    assert all[|apps|] == last;
    if AppliesJob(apps, job) {
      var i :| 0 <= i < |apps| && apps[i].job == job;
      assert all[i].job == job;
    }
  }

  lemma RowsRecord(accounts: Accounts, app: Application, job: nat)
    requires EffectOn(accounts, app.effect).Success?
    ensures Recorded(RowsOf(accounts, app), job) <==> app.job == job
  {
    assert RowsOf(accounts, app)[0].job == app.job;
  }

  lemma {:induction false} RecordedMeansApplied(initial: Accounts, apps: seq<Application>, job: nat)
    requires Replayable(initial, apps)
    ensures Recorded(HistoryOf(initial, apps), job) <==> AppliesJob(apps, job)
  {
    if apps != [] {
      var earlier, last := apps[..|apps| - 1], apps[|apps| - 1];
      RecordedMeansApplied(initial, earlier, job);
      RecordedConcat(HistoryOf(initial, earlier), RowsOf(Replay(initial, earlier), last), job);
      RowsRecord(Replay(initial, earlier), last, job);
      AppliesSnoc(earlier, last, job);
      assert apps == earlier + [last];
    }
  }

  lemma RecordedConcat(first: seq<HistoryRow>, second: seq<HistoryRow>, job: nat)
    ensures Recorded(first + second, job) <==> Recorded(first, job) || Recorded(second, job)
  {
    if Recorded(first, job) {
      var i :| 0 <= i < |first| && first[i].job == job;
      assert (first + second)[i].job == job;
    }
    if Recorded(second, job) {
      var i :| 0 <= i < |second| && second[i].job == job;
      assert (first + second)[|first| + i].job == job;
    }
    if Recorded(first + second, job) {
      var i :| 0 <= i < |first + second| && (first + second)[i].job == job;
      assert i < |first| || second[i - |first|].job == job;
    }
  }

  // ---------- the rolling action-state window ----------

  /** The newest five action states of a trace, newest first. */
  function Newest(trace: seq<Field>): seq<Field> {
    Take(Reverse(trace), 5)
  }

  /** The bridge path keeps the account's window at the newest five states. */
  lemma BridgeWindowIsNewest(account: Account, trace: seq<Field>, states: seq<Field>)
    requires Actions(account) == Newest(trace)
    ensures Actions(BridgedOuter(account, states)) == Newest(trace + states)
  {
    assert Reverse(trace + states) == Reverse(states) + Reverse(trace);
  }

  /**
    The settlement path writes both of its states.  The window is the newest
    five of the trace extended by the one new state exactly when there are four
    older states and the newest four all equal the one the settlement started
    from.
   */
  lemma SettlementWindow(account: Account, trace: seq<Field>, fields: seq<Field>, before: Field, after: Field)
    requires Actions(account) == Newest(trace)
    ensures Actions(SettledOuter(account, fields, before, after)) == Newest(trace + [before, after])
    ensures Actions(SettledOuter(account, fields, before, after)) == Newest(trace + [after])
      <==> |trace| >= 4 && forall i :: 0 <= i < 4 ==> Actions(account)[i] == before
  {
    var prior := Actions(account);
    assert Reverse(trace + [before, after]) == [after, before] + Reverse(trace);
    assert Reverse(trace + [after]) == [after] + Reverse(trace);
    WindowsAgreeIff(Reverse(trace), before, after);
  }

  lemma WindowsAgreeIff(newest: seq<Field>, before: Field, after: Field)
    ensures [after, before] + Take(Take(newest, 5), 3) == Take([after] + newest, 5)
      <==> |newest| >= 4 && forall i :: 0 <= i < 4 ==> Take(newest, 5)[i] == before
    ensures [after, before] + Take(Take(newest, 5), 3) == Take([after, before] + newest, 5)
  {
    var window := [after, before] + Take(Take(newest, 5), 3);
    var wanted := Take([after] + newest, 5);
    if |newest| >= 4 {
      assert window == [after, before, newest[0], newest[1], newest[2]];
      assert wanted == [after, newest[0], newest[1], newest[2], newest[3]];
      assert window == wanted <==>
        before == newest[0] && newest[0] == newest[1] && newest[1] == newest[2] && newest[2] == newest[3] by {
        assert window[1] == wanted[1] && window[2] == wanted[2] && window[3] == wanted[3] && window[4] == wanted[4]
          <==> window == wanted;
      }
    } else {
      assert |window| == |newest| + 2 || |newest| == 3;
      assert |window| != |wanted|;
    }
  }

  /** A settlement from the newest state itself: that state shows twice, and the fifth newest is lost. */
  lemma SettlementRepeatsState()
    ensures var account := Account([], Some([5, 4, 3, 2, 1]), true, None);
      && Actions(account) == Newest([1, 2, 3, 4, 5]) && Actions(account)[0] == 5
      && Actions(SettledOuter(account, [], 5, 6)) == [6, 5, 5, 4, 3]
      && Newest([1, 2, 3, 4, 5] + [6]) == [6, 5, 4, 3, 2]
  {
    var account := Account([], Some([5, 4, 3, 2, 1]), true, None);
    assert Reverse([1, 2, 3, 4, 5]) == [5, 4, 3, 2, 1];
    assert Reverse([1, 2, 3, 4, 5, 6]) == [6, 5, 4, 3, 2, 1];
    assert [1, 2, 3, 4, 5] + [6] == [1, 2, 3, 4, 5, 6];
    assert Take([6, 5, 4, 3, 2, 1], 5) == [6, 5, 4, 3, 2];
    assert Take([5, 4, 3, 2, 1], 3) == [5, 4, 3];
    assert [6, 5] + [5, 4, 3] == [6, 5, 5, 4, 3];
  }

  // ---------- the tables, updated in place ----------

  class VirtualLedger {
    var accounts: Accounts
    var history: seq<HistoryRow>

    function View(): State
      reads this
    {
      State(accounts, history)
    }

    constructor (initial: Accounts)
      ensures View() == State(initial, [])
      ensures Represents(View(), initial, [])
    {
      accounts := initial;
      history := [];
    }

    /** The transaction of `apply_confirmed_settlement`, nothing of which survives a failure. */
    method ApplySettlement(app: Application) returns (r: Result<()>)
      requires app.effect.SettlementEffect?
      modifies this
      ensures r.Success? <==> Apply(old(View()), app).Success?
      ensures r.Failure? ==> r.fault == Apply(old(View()), app).fault && View() == old(View())
      ensures r.Success? ==> View() == Apply(old(View()), app).value
    {
      if Recorded(history, app.job) {
        return Success(());
      }
      var outer, payer := app.effect.outer, app.effect.feePayer;
      if outer !in accounts {
        return Failure(Missing);
      }
      // update_outer_account: snapshot, then overwrite
      var rows := Snapshot(history, app, outer, accounts[outer]);
      var rewritten := SettledOuter(accounts[outer], app.effect.fields, app.effect.before, app.effect.after);
      var table := accounts[outer := rewritten];
      // update_fee_payer
      if payer !in table {
        return Failure(Missing);
      }
      var nonce := table[payer].nonce.GetOr(0);
      if nonce != app.effect.nonce {
        return Failure(Mismatch);
      }
      SnapshotOnce(history, app, accounts);
      rows := Snapshot(rows, app, payer, table[payer]);
      if nonce + 1 >= U64_LIMIT {
        return Failure(Invalid);
      }
      table := table[payer := Advanced(table[payer])];
      accounts, history := table, rows;
      return Success(());
    }

    /** The transaction of `apply_confirmed_bridge` on the outer account. */
    method ApplyBridge(app: Application) returns (r: Result<()>)
      requires app.effect.BridgeEffect?
      modifies this
      ensures r.Success? <==> Apply(old(View()), app).Success?
      ensures r.Failure? ==> r.fault == Apply(old(View()), app).fault && View() == old(View())
      ensures r.Success? ==> View() == Apply(old(View()), app).value
    {
      if app.effect.states == [] {
        return Failure(Invalid);
      }
      if Recorded(history, app.job) {
        return Success(());
      }
      var outer := app.effect.outer;
      if outer !in accounts {
        return Failure(Missing);
      }
      var rows := Snapshot(history, app, outer, accounts[outer]);
      var window := Actions(accounts[outer]);
      if window == [] || window[0] != app.effect.before {
        return Failure(Mismatch);
      }
      window := Take(Reverse(app.effect.states) + window, 5);
      SnapshotOnce(history, app, accounts);
      accounts := accounts[outer := accounts[outer].(actionState := Some(window))];
      history := rows;
      return Success(());
    }

    /** The account part of `rollback_after`: restore pre-images newest first, then drop them. */
    method RollbackAfter(ancestor: int)
      modifies this
      ensures View() == Rollback(old(View()), ancestor)
      ensures forall initial, apps :: Represents(old(View()), initial, apps) && Ordered(apps) ==>
        Represents(View(), initial, UpTo(apps, ancestor))
    {
      var rows := UndoOrder(history, ancestor);
      for i := 0 to |rows|
        invariant history == old(history)
        invariant Restore(accounts, rows[i..]) == Restore(old(accounts), rows)
      {
        var row := rows[i];
        assert rows[i..][1..] == rows[i + 1..];
        if row.key in accounts {
          accounts := accounts[row.key := row.before];
        }
      }
      history := KeepRows(history, ancestor);
      forall initial, apps | Represents(old(View()), initial, apps) && Ordered(apps)
        ensures Represents(View(), initial, UpTo(apps, ancestor))
      {
        RollbackIsReplay(old(View()), initial, apps, ancestor);
      }
    }
  }

  /** A job with no history yet gets each of its pre-images recorded, once per account. */
  lemma SnapshotOnce(history: seq<HistoryRow>, app: Application, accounts: Accounts)
    requires !Recorded(history, app.job) && app.effect.outer in accounts
    ensures var outer := app.effect.outer;
      var rows := Snapshot(history, app, outer, accounts[outer]);
      rows == history + [HistoryRow(app.job, outer, accounts[outer], app.block, app.hash)] &&
      forall payer, account :: Snapshot(rows, app, payer, account) ==
        if payer == outer then rows else rows + [HistoryRow(app.job, payer, account, app.block, app.hash)]
  {
    var outer := app.effect.outer;
    assert !RecordedKey(history, app.job, outer);
    var rows := Snapshot(history, app, outer, accounts[outer]);
    assert rows[|history|].key == outer && rows[|history|].job == app.job;
    forall payer, account
      ensures Snapshot(rows, app, payer, account) ==
        if payer == outer then rows else rows + [HistoryRow(app.job, payer, account, app.block, app.hash)]
    {
      if RecordedKey(rows, app.job, payer) {
        var i :| 0 <= i < |rows| && rows[i].job == app.job && rows[i].key == payer;
        assert i < |history| ==> Recorded(history, app.job);
      }
    }
  }
}
