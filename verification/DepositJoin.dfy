/**
  Reading one block's deposits.  A deposit is announced by up to three events:
  the bridge deposit itself, for an ERC-20 token its identity, and for a token
  of the registry a second, refining identity.  They are joined by transaction
  and nonce.
 */
module DepositJoin {
  import opened Common
  import opened Deposits
  import Chain

  /** The fields that every event about a deposit repeats. */
  datatype Shared = Shared(
    leaf: Hash, newState: Hash, token: Key, sender: Key, recipient: Hash, amount: nat, timeout: nat)

  datatype BaseLog = BaseLog(tx: Option<Hash>, nonce: nat, asset: Hash, shared: Shared)
  datatype RegistryLog = RegistryLog(base: BaseLog, encoding: nat, index: nat, commitment: Hash)
  datatype BridgeLog = BridgeLog(
    tx: Option<Hash>, nonce: nat, shared: Shared, oldState: Hash, zekoAmount: nat,
    block: Option<nat>, hash: Option<Hash>, logIndex: Option<nat>)

  /** A raw log, told apart by its first topic. */
  datatype Log = AsBridge(bridge: BridgeLog) | AsBase(base: BaseLog) | AsRegistry(registry: RegistryLog) | Unexpected

  datatype Place = Place(tx: Hash, nonce: nat)

  const ENCODING_V2: nat := 2

  function BasePlace(b: BaseLog): Place {
    Place(b.tx.GetOr(0), b.nonce)
  }

  function BridgePlace(d: BridgeLog): Place {
    Place(d.tx.GetOr(0), d.nonce)
  }

  // ---------- when the events of a block belong together ----------

  /** Identity events are complete, name an asset, and are unique. */
  predicate BasesValid(bases: seq<BaseLog>) {
    && (forall i :: 0 <= i < |bases| ==> bases[i].tx.Some? && bases[i].asset != 0)
    && (forall i, j :: 0 <= i < j < |bases| ==> BasePlace(bases[i]) != BasePlace(bases[j]))
  }

  /** The refining event says the same as the base event at its place. */
  predicate Refines(bases: seq<BaseLog>, r: RegistryLog) {
    exists i :: 0 <= i < |bases| && BasePlace(bases[i]) == BasePlace(r.base)
      && bases[i].asset == r.base.asset && bases[i].shared == r.base.shared
  }

  predicate RegistryValid(bases: seq<BaseLog>, r: RegistryLog) {
    r.base.tx.Some? && r.encoding == ENCODING_V2 && r.commitment != 0 && Refines(bases, r)
  }

  predicate RegistriesValid(bases: seq<BaseLog>, regs: seq<RegistryLog>) {
    && (forall i :: 0 <= i < |regs| ==> RegistryValid(bases, regs[i]))
    && (forall i, j :: 0 <= i < j < |regs| ==> BasePlace(regs[i].base) != BasePlace(regs[j].base))
  }

  /** Some earlier deposit of the block has already used this place. */
  predicate Taken(bridges: seq<BridgeLog>, n: nat, p: Place)
    requires n <= |bridges|
  {
    exists j :: 0 <= j < n && BridgePlace(bridges[j]) == p
  }

  predicate Identified(bases: seq<BaseLog>, p: Place) {
    exists i :: 0 <= i < |bases| && BasePlace(bases[i]) == p
  }

  predicate Complete(d: BridgeLog) {
    d.tx.Some? && d.block.Some? && d.hash.Some? && d.logIndex.Some?
  }

  /** A token deposit has an identity event of its own that agrees with it; a native one has none. */
  predicate DepositValid(bases: seq<BaseLog>, bridges: seq<BridgeLog>, n: nat)
    requires n < |bridges|
  {
    var d := bridges[n];
    var p := BridgePlace(d);
    Complete(d) &&
    if d.shared.token == 0 then Identified(bases, p) ==> Taken(bridges, n, p)
    else
      && !Taken(bridges, n, p) && d.shared.amount == d.zekoAmount
      && exists i :: 0 <= i < |bases| && BasePlace(bases[i]) == p && bases[i].shared == d.shared
  }

  predicate DepositsValid(bases: seq<BaseLog>, bridges: seq<BridgeLog>) {
    && (forall n :: 0 <= n < |bridges| ==> DepositValid(bases, bridges, n))
    && (forall i :: 0 <= i < |bases| ==> Taken(bridges, |bridges|, BasePlace(bases[i])))
  }

  // ---------- the streams ----------

  function Bridges(logs: seq<Log>): seq<BridgeLog> {
    if logs == [] then []
    else Bridges(logs[..|logs| - 1]) + (match logs[|logs| - 1] case AsBridge(d) => [d] case _ => [])
  }

  function Bases(logs: seq<Log>): seq<BaseLog> {
    if logs == [] then []
    else Bases(logs[..|logs| - 1]) + (match logs[|logs| - 1] case AsBase(b) => [b] case _ => [])
  }

  function Registries(logs: seq<Log>): seq<RegistryLog> {
    if logs == [] then []
    else Registries(logs[..|logs| - 1]) + (match logs[|logs| - 1] case AsRegistry(r) => [r] case _ => [])
  }

  predicate Accepted(logs: seq<Log>) {
    && (forall i :: 0 <= i < |logs| ==> !logs[i].Unexpected?)
    && BasesValid(Bases(logs)) && RegistriesValid(Bases(logs), Registries(logs))
    && DepositsValid(Bases(logs), Bridges(logs))
  }

  // ---------- the result ----------

  function RegistryAt(regs: seq<RegistryLog>, p: Place): Option<RegistryLog> {
    if regs == [] then None
    else if BasePlace(regs[|regs| - 1].base) == p then Some(regs[|regs| - 1])
    else RegistryAt(regs[..|regs| - 1], p)
  }

  function BaseAt(bases: seq<BaseLog>, p: Place): Option<BaseLog> {
    if bases == [] then None
    else if BasePlace(bases[|bases| - 1]) == p then Some(bases[|bases| - 1])
    else BaseAt(bases[..|bases| - 1], p)
  }

  function Classify(asset: Hash, registry: Option<RegistryLog>): Identity {
    match registry
    case None => HistoricalV1(asset)
    case Some(r) => RegistryV2(asset, r.index, r.commitment)
  }

  function IdentityOf(bases: seq<BaseLog>, regs: seq<RegistryLog>, d: BridgeLog): Option<Identity> {
    if d.shared.token == 0 then None
    else
      match BaseAt(bases, BridgePlace(d))
      case None => None
      case Some(b) => Some(Classify(b.asset, RegistryAt(regs, BridgePlace(d))))
  }

  function Emit(d: BridgeLog, identity: Option<Identity>): Chain.DepositLog {
    Chain.DepositLog(
      Deposit(d.nonce, d.shared.leaf, d.oldState, d.shared.newState, d.shared.token, identity, d.shared.sender,
              d.shared.recipient, d.shared.amount, d.zekoAmount, d.shared.timeout, d.tx.GetOr(0), d.logIndex.GetOr(0)),
      d.block.GetOr(0), d.hash.GetOr(0))
  }

  function Joined(logs: seq<Log>): seq<Chain.DepositLog> {
    var bridges := Bridges(logs);
    seq(|bridges|, i requires 0 <= i < |bridges| =>
      Emit(bridges[i], IdentityOf(Bases(logs), Registries(logs), bridges[i])))
  }

  // ---------- the program ----------

  method Split(logs: seq<Log>)
    returns (r: Result<()>, bridges: seq<BridgeLog>, bases: seq<BaseLog>, regs: seq<RegistryLog>)
    ensures r.Success? <==> forall i :: 0 <= i < |logs| ==> !logs[i].Unexpected?
    ensures r.Success? ==> bridges == Bridges(logs) && bases == Bases(logs) && regs == Registries(logs)
  {
    bridges, bases, regs := [], [], [];
    for i := 0 to |logs|
      invariant bridges == Bridges(logs[..i]) && bases == Bases(logs[..i]) && regs == Registries(logs[..i])
      invariant forall j :: 0 <= j < i ==> !logs[j].Unexpected?
    {
      assert logs[..i + 1][..i] == logs[..i];
      match logs[i] {
        case AsBridge(d) => bridges := bridges + [d];
        case AsBase(b) => bases := bases + [b];
        case AsRegistry(l) => regs := regs + [l];
        case Unexpected => return Failure(Invalid), bridges, bases, regs;
      }
    }
    assert logs[..|logs|] == logs;
    r := Success(());
  }

  datatype Metadata = Metadata(asset: Hash, shared: Shared, registry: Option<RegistryLog>)

  /** What the map holds of a place: its base event, and its refinement among the first `n`. */
  function Known(bases: seq<BaseLog>, regs: seq<RegistryLog>, p: Place): Option<Metadata> {
    match BaseAt(bases, p)
    case None => None
    case Some(b) => Some(Metadata(b.asset, b.shared, RegistryAt(regs, p)))
  }

  predicate Holds(table: map<Place, Metadata>, p: Place, known: Option<Metadata>) {
    match known
    case None => p !in table
    case Some(m) => p in table && table[p] == m
  }

  lemma {:induction false} BaseFound(bases: seq<BaseLog>, p: Place)
    ensures BaseAt(bases, p).Some? <==> Identified(bases, p)
    ensures BaseAt(bases, p).Some? ==> BaseAt(bases, p).value in bases && BasePlace(BaseAt(bases, p).value) == p
  {
    if bases != [] {
      var n := |bases| - 1;
      BaseFound(bases[..n], p);
      if Identified(bases, p) && BasePlace(bases[n]) != p {
        var i :| 0 <= i < |bases| && BasePlace(bases[i]) == p;
        assert BasePlace(bases[..n][i]) == p;
      }
    }
  }

  lemma {:induction false} RegistryFound(regs: seq<RegistryLog>, p: Place)
    ensures RegistryAt(regs, p).None? <==> forall i :: 0 <= i < |regs| ==> BasePlace(regs[i].base) != p
    ensures RegistryAt(regs, p).Some? ==>
      RegistryAt(regs, p).value in regs && BasePlace(RegistryAt(regs, p).value.base) == p
  {
    if regs != [] {
      var n := |regs| - 1;
      RegistryFound(regs[..n], p);
      assert forall i :: 0 <= i < n ==> regs[..n][i] == regs[i];
    }
  }

  /** With unique places, a base event is the one found at its place. */
  lemma BaseUnique(bases: seq<BaseLog>, i: nat)
    requires BasesValid(bases) && i < |bases|
    ensures BaseAt(bases, BasePlace(bases[i])) == Some(bases[i])
  {
    BaseFound(bases, BasePlace(bases[i]));
  }

  lemma PrefixInvalid(bases: seq<BaseLog>, n: nat)
    requires n < |bases|
    requires bases[n].tx.None? || bases[n].asset == 0 || Identified(bases[..n], BasePlace(bases[n]))
    ensures !BasesValid(bases)
  {
    if Identified(bases[..n], BasePlace(bases[n])) {
      var i :| 0 <= i < n && BasePlace(bases[..n][i]) == BasePlace(bases[n]);
      assert BasePlace(bases[i]) == BasePlace(bases[n]);
    }
  }

  method CollectBases(bases: seq<BaseLog>) returns (r: Result<map<Place, Metadata>>)
    ensures r.Success? <==> BasesValid(bases)
    ensures r.Success? ==> forall p :: Holds(r.value, p, Known(bases, [], p))
  {
    var table: map<Place, Metadata> := map[];
    for n := 0 to |bases|
      invariant BasesValid(bases[..n])
      invariant forall p :: Holds(table, p, Known(bases[..n], [], p))
    {
      var b := bases[n];
      var p := BasePlace(b);
      BaseFound(bases[..n], p);
      assert bases[..n + 1][..n] == bases[..n];
      assert Holds(table, p, Known(bases[..n], [], p));
      if b.tx.None? || b.asset == 0 || p in table {
        PrefixInvalid(bases, n);
        return Failure(Invalid);
      }
      assert forall i :: 0 <= i < n ==> BasePlace(bases[..n][i]) != p;
      ghost var before, read := table, bases[..n + 1];
      table := table[p := Metadata(b.asset, b.shared, None)];
      forall q
        ensures Holds(table, q, Known(read, [], q))
      {
        assert Holds(before, q, Known(bases[..n], [], q));
      }
    }
    assert bases[..|bases|] == bases;
    return Success(table);
  }

  lemma RefinesIff(bases: seq<BaseLog>, r: RegistryLog)
    requires BasesValid(bases)
    ensures Refines(bases, r) <==>
      BaseAt(bases, BasePlace(r.base)).Some? && BaseAt(bases, BasePlace(r.base)).value.asset == r.base.asset
      && BaseAt(bases, BasePlace(r.base)).value.shared == r.base.shared
  {
    BaseFound(bases, BasePlace(r.base));
    if Refines(bases, r) {
      var i :| 0 <= i < |bases| && BasePlace(bases[i]) == BasePlace(r.base)
        && bases[i].asset == r.base.asset && bases[i].shared == r.base.shared;
      BaseUnique(bases, i);
    }
  }

  lemma RefinedTable(table: map<Place, Metadata>, after: map<Place, Metadata>, bases: seq<BaseLog>,
                     seen: seq<RegistryLog>, l: RegistryLog, read: seq<RegistryLog>)
    requires read == seen + [l] && BasePlace(l.base) in table
    requires forall p :: Holds(table, p, Known(bases, seen, p))
    requires after == table[BasePlace(l.base) := table[BasePlace(l.base)].(registry := Some(l))]
    ensures forall q :: Holds(after, q, Known(bases, read, q))
  {
    assert read[..|seen|] == seen;
    forall q
      ensures Holds(after, q, Known(bases, read, q))
    {
      assert Holds(table, q, Known(bases, seen, q));
    }
  }

  lemma OneMoreRegistry(bases: seq<BaseLog>, regs: seq<RegistryLog>, n: nat)
    requires n < |regs| && RegistriesValid(bases, regs[..n])
    ensures RegistriesValid(bases, regs[..n + 1]) <==>
      RegistryValid(bases, regs[n]) && RegistryAt(regs[..n], BasePlace(regs[n].base)).None?
    ensures RegistriesValid(bases, regs) ==> RegistriesValid(bases, regs[..n + 1])
  {
    RegistryFound(regs[..n], BasePlace(regs[n].base));
    assert forall i :: 0 <= i < n ==> regs[..n + 1][i] == regs[i] == regs[..n][i];
  }

  method RefineBases(bases: seq<BaseLog>, regs: seq<RegistryLog>, collected: map<Place, Metadata>)
    returns (r: Result<map<Place, Metadata>>)
    requires BasesValid(bases) && forall p :: Holds(collected, p, Known(bases, [], p))
    ensures r.Success? <==> RegistriesValid(bases, regs)
    ensures r.Success? ==> forall p :: Holds(r.value, p, Known(bases, regs, p))
  {
    var table := collected;
    for n := 0 to |regs|
      invariant RegistriesValid(bases, regs[..n])
      invariant forall p :: Holds(table, p, Known(bases, regs[..n], p))
    {
      var l := regs[n];
      var p := BasePlace(l.base);
      RefinesIff(bases, l);
      OneMoreRegistry(bases, regs, n);
      assert Holds(table, p, Known(bases, regs[..n], p));
      if l.base.tx.None? || l.encoding != ENCODING_V2 || l.commitment == 0 || p !in table
        || table[p].asset != l.base.asset || table[p].shared != l.base.shared || table[p].registry.Some?
      {
        return Failure(Invalid);
      }
      ghost var before := table;
      table := table[p := table[p].(registry := Some(l))];
      RefinedTable(before, table, bases, regs[..n], l, regs[..n + 1]);
    }
    assert regs[..|regs|] == regs;
    return Success(table);
  }

  /** What a place still holds once `n` deposits have taken theirs. */
  function Remaining(bases: seq<BaseLog>, regs: seq<RegistryLog>, bridges: seq<BridgeLog>, n: nat, p: Place)
    : Option<Metadata>
    requires n <= |bridges|
  {
    if Taken(bridges, n, p) then None else Known(bases, regs, p)
  }

  ghost predicate Left(table: map<Place, Metadata>, bases: seq<BaseLog>, regs: seq<RegistryLog>,
      bridges: seq<BridgeLog>, n: nat)
    requires n <= |bridges|
  {
    forall p :: Holds(table, p, Remaining(bases, regs, bridges, n, p))
  }

  lemma TakenGrows(bridges: seq<BridgeLog>, n: nat, p: Place)
    requires n < |bridges|
    ensures Taken(bridges, n + 1, p) <==> Taken(bridges, n, p) || BridgePlace(bridges[n]) == p
  {
  }

  lemma LeftAfter(table: map<Place, Metadata>, bases: seq<BaseLog>, regs: seq<RegistryLog>, bridges: seq<BridgeLog>,
      n: nat)
    requires n < |bridges| && Left(table, bases, regs, bridges, n)
    ensures Left(table - {BridgePlace(bridges[n])}, bases, regs, bridges, n + 1)
  {
    var after, m := table - {BridgePlace(bridges[n])}, n + 1;
    forall p
      ensures Holds(after, p, Remaining(bases, regs, bridges, m, p))
    {
      TakenGrows(bridges, n, p);
      assert Holds(table, p, Remaining(bases, regs, bridges, n, p));
      assert p in after <==> p in table && p != BridgePlace(bridges[n]);
      assert p in after ==> after[p] == table[p];
    }
  }

  /** One deposit, checked against what its place still holds. */
  method JoinOne(table: map<Place, Metadata>, d: BridgeLog) returns (r: Result<Chain.DepositLog>)
    ensures var p := BridgePlace(d);
      r.Success? <==>
        (Complete(d) &&
         if d.shared.token == 0 then p !in table
         else p in table && table[p].shared == d.shared && d.shared.amount == d.zekoAmount)
    ensures r.Success? ==> r.value == Emit(d, if d.shared.token == 0 then None
      else Some(Classify(table[BridgePlace(d)].asset, table[BridgePlace(d)].registry)))
  {
    var p := BridgePlace(d);
    if d.tx.None? {
      return Failure(Invalid);
    }
    var identity: Option<Identity> := None;
    if d.shared.token == 0 {
      if p in table {
        return Failure(Mismatch);
      }
    } else {
      if p !in table {
        return Failure(Missing);
      }
      if table[p].shared != d.shared || d.shared.amount != d.zekoAmount {
        return Failure(Mismatch);
      }
      identity := Some(Classify(table[p].asset, table[p].registry));
    }
    if d.block.None? || d.hash.None? || d.logIndex.None? {
      return Failure(Invalid);
    }
    return Success(Emit(d, identity));
  }

  lemma ValidIff(table: map<Place, Metadata>, bases: seq<BaseLog>, regs: seq<RegistryLog>, bridges: seq<BridgeLog>,
      n: nat)
    requires BasesValid(bases) && n < |bridges| && Left(table, bases, regs, bridges, n)
    ensures var d := bridges[n];
      var p := BridgePlace(d);
      DepositValid(bases, bridges, n) <==>
        (Complete(d) &&
         if d.shared.token == 0 then p !in table
         else p in table && table[p].shared == d.shared && d.shared.amount == d.zekoAmount)
    ensures BridgePlace(bridges[n]) in table ==>
      BaseAt(bases, BridgePlace(bridges[n])).Some?
      && table[BridgePlace(bridges[n])].asset == BaseAt(bases, BridgePlace(bridges[n])).value.asset
      && table[BridgePlace(bridges[n])].registry == RegistryAt(regs, BridgePlace(bridges[n]))
  {
    var d := bridges[n];
    var p := BridgePlace(d);
    BaseFound(bases, p);
    assert Holds(table, p, Remaining(bases, regs, bridges, n, p));
    if exists i :: 0 <= i < |bases| && BasePlace(bases[i]) == p && bases[i].shared == d.shared {
      var i :| 0 <= i < |bases| && BasePlace(bases[i]) == p && bases[i].shared == d.shared;
      BaseUnique(bases, i);
    }
  }

  lemma AllTakenIff(table: map<Place, Metadata>, bases: seq<BaseLog>, regs: seq<RegistryLog>, bridges: seq<BridgeLog>)
    requires BasesValid(bases) && Left(table, bases, regs, bridges, |bridges|)
    ensures table == map[] <==> forall i :: 0 <= i < |bases| ==> Taken(bridges, |bridges|, BasePlace(bases[i]))
  {
    forall i | 0 <= i < |bases|
      ensures BasePlace(bases[i]) in table <==> !Taken(bridges, |bridges|, BasePlace(bases[i]))
    {
      BaseUnique(bases, i);
      assert Holds(table, BasePlace(bases[i]), Remaining(bases, regs, bridges, |bridges|, BasePlace(bases[i])));
    }
    forall p | p in table
      ensures exists i :: 0 <= i < |bases| && BasePlace(bases[i]) == p
    {
      assert Holds(table, p, Remaining(bases, regs, bridges, |bridges|, p));
      BaseFound(bases, p);
    }
  }

  method JoinDeposits(bases: seq<BaseLog>, regs: seq<RegistryLog>, bridges: seq<BridgeLog>,
                      refined: map<Place, Metadata>)
    returns (r: Result<seq<Chain.DepositLog>>)
    requires BasesValid(bases) && forall p :: Holds(refined, p, Known(bases, regs, p))
    ensures r.Success? <==> DepositsValid(bases, bridges)
    ensures r.Success? ==> |r.value| == |bridges|
    ensures r.Success? ==>
      forall n :: 0 <= n < |bridges| ==> r.value[n] == Emit(bridges[n], IdentityOf(bases, regs, bridges[n]))
  {
    var table := refined;
    var deposits: seq<Chain.DepositLog> := [];
    for n := 0 to |bridges|
      invariant Left(table, bases, regs, bridges, n)
      invariant forall k :: 0 <= k < n ==> DepositValid(bases, bridges, k)
      invariant |deposits| == n
      invariant forall k :: 0 <= k < n ==> deposits[k] == Emit(bridges[k], IdentityOf(bases, regs, bridges[k]))
    {
      ValidIff(table, bases, regs, bridges, n);
      var joined := JoinOne(table, bridges[n]);
      if joined.Failure? {
        return Failure(joined.fault);
      }
      LeftAfter(table, bases, regs, bridges, n);
      table := table - {BridgePlace(bridges[n])};
      deposits := deposits + [joined.value];
    }
    AllTakenIff(table, bases, regs, bridges);
    return if table == map[] then Success(deposits) else Failure(Missing);
  }

  /**
    `bridge_deposit_logs`.  It succeeds exactly when the block's events belong
    together, and then gives the deposits in the order of their own events.
   */
  method BridgeDepositLogs(logs: seq<Log>) returns (r: Result<seq<Chain.DepositLog>>)
    ensures r.Success? <==> Accepted(logs)
    ensures r.Success? ==> r.value == Joined(logs)
  {
    var split, bridges, bases, regs := Split(logs);
    if split.Failure? {
      return Failure(split.fault);
    }
    var collected :- CollectBases(bases);
    var refined :- RefineBases(bases, regs, collected);
    r := JoinDeposits(bases, regs, bridges, refined);
  }

  // ---------- what acceptance means ----------

  /** A token deposit and the identity event it is about. */
  predicate Pair(logs: seq<Log>, n: nat, i: nat) {
    n < |Bridges(logs)| && i < |Bases(logs)| && Bridges(logs)[n].shared.token != 0
    && BridgePlace(Bridges(logs)[n]) == BasePlace(Bases(logs)[i])
  }

  /** Each token deposit has exactly one identity event, which repeats all its shared fields. */
  lemma EachTokenIdentified(logs: seq<Log>, n: nat)
    requires Accepted(logs) && n < |Bridges(logs)| && Bridges(logs)[n].shared.token != 0
    ensures exists i: nat :: Pair(logs, n, i) && Bases(logs)[i].shared == Bridges(logs)[n].shared
    ensures forall i: nat, j: nat :: Pair(logs, n, i) && Pair(logs, n, j) ==> i == j
  {
    var bases, bridges := Bases(logs), Bridges(logs);
    assert DepositValid(bases, bridges, n);
    var i :| 0 <= i < |bases| && BasePlace(bases[i]) == BridgePlace(bridges[n]) && bases[i].shared == bridges[n].shared;
    assert Pair(logs, n, i);
  }

  /** Each identity event belongs to exactly one token deposit. */
  lemma EachIdentityUsed(logs: seq<Log>, i: nat)
    requires Accepted(logs) && i < |Bases(logs)|
    ensures exists n: nat :: Pair(logs, n, i)
    ensures forall m: nat, n: nat :: Pair(logs, m, i) && Pair(logs, n, i) ==> m == n
  {
    var bases, bridges := Bases(logs), Bridges(logs);
    var p := BasePlace(bases[i]);
    assert Taken(bridges, |bridges|, p);
    var n := FirstAt(bridges, p);
    assert DepositValid(bases, bridges, n);
    assert Identified(bases, p);
    assert Pair(logs, n, i);
    forall m: nat, k: nat | Pair(logs, m, i) && Pair(logs, k, i)
      ensures m == k
    {
      if m < k {
        LaterDiffers(bases, bridges, m, k);
      } else if k < m {
        LaterDiffers(bases, bridges, k, m);
      }
    }
  }

  lemma LaterDiffers(bases: seq<BaseLog>, bridges: seq<BridgeLog>, m: nat, k: nat)
    requires m < k < |bridges| && DepositValid(bases, bridges, k) && bridges[k].shared.token != 0
    ensures BridgePlace(bridges[m]) != BridgePlace(bridges[k])
  {
  }

  /** The first deposit at a place that some deposit has. */
  lemma FirstAt(bridges: seq<BridgeLog>, p: Place) returns (n: nat)
    requires Taken(bridges, |bridges|, p)
    ensures n < |bridges| && BridgePlace(bridges[n]) == p && !Taken(bridges, n, p)
  {
    n := 0;
    while BridgePlace(bridges[n]) != p
      invariant n < |bridges| && !Taken(bridges, n, p)
      decreases |bridges| - n
    {
      TakenGrows(bridges, n, p);
      n := n + 1;
    }
  }

  lemma {:induction false} InStream(logs: seq<Log>, i: nat)
    requires i < |logs|
    ensures logs[i].AsBase? ==> logs[i].base in Bases(logs)
    ensures logs[i].AsRegistry? ==> logs[i].registry in Registries(logs)
    ensures logs[i].AsBridge? ==> logs[i].bridge in Bridges(logs)
    decreases |logs|
  {
    if i < |logs| - 1 {
      InStream(logs[..|logs| - 1], i);
    }
  }

  lemma {:induction false} FromStream(logs: seq<Log>, b: BaseLog)
    requires b in Bases(logs)
    ensures exists i :: 0 <= i < |logs| && logs[i] == AsBase(b)
    decreases |logs|
  {
    var n := |logs| - 1;
    if logs[n] != AsBase(b) {
      FromStream(logs[..n], b);
      var i :| 0 <= i < n && logs[..n][i] == AsBase(b);
      assert logs[i] == AsBase(b);
    }
  }

  /** An event that says enough, and is not contradicted: a registry event repeats a base event of the same block. */
  predicate Fair(logs: seq<Log>, i: nat)
    requires i < |logs|
  {
    match logs[i]
    case Unexpected => false
    case AsBase(b) => b.tx.Some? && b.asset != 0
    case AsRegistry(r) =>
      r.base.tx.Some? && r.encoding == 2 && r.commitment != 0 &&
      exists j :: 0 <= j < |logs| && logs[j].AsBase? && logs[j].base.tx.GetOr(0) == r.base.tx.GetOr(0)
        && logs[j].base == r.base.(tx := logs[j].base.tx)
    case AsBridge(d) =>
      d.tx.Some? && d.block.Some? && d.hash.Some? && d.logIndex.Some?
      && (d.shared.token != 0 ==> d.shared.amount == d.zekoAmount)
  }

  /** One event that says too little or is contradicted makes the whole block be refused. */
  lemma OnlyFairEvents(logs: seq<Log>, i: nat)
    requires Accepted(logs) && i < |logs|
    ensures Fair(logs, i)
  {
    InStream(logs, i);
    match logs[i]
    case AsRegistry(r) =>
      var k :| 0 <= k < |Registries(logs)| && Registries(logs)[k] == r;
      assert RegistryValid(Bases(logs), Registries(logs)[k]);
      var j :| 0 <= j < |Bases(logs)| && BasePlace(Bases(logs)[j]) == BasePlace(r.base)
        && Bases(logs)[j].asset == r.base.asset && Bases(logs)[j].shared == r.base.shared;
      FromStream(logs, Bases(logs)[j]);
    case AsBridge(d) =>
      var k :| 0 <= k < |Bridges(logs)| && Bridges(logs)[k] == d;
      assert DepositValid(Bases(logs), Bridges(logs), k);
    case _ =>
  }

  /** A reported identity names an asset, and a registry one is committed to. */
  lemma IdentityNamed(logs: seq<Log>, n: nat)
    requires Accepted(logs) && n < |Bridges(logs)| && Joined(logs)[n].deposit.identity.Some?
    ensures var identity := Joined(logs)[n].deposit.identity.value;
      identity.asset != 0 && (identity.RegistryV2? ==> identity.commitment != 0)
  {
    BaseFound(Bases(logs), BridgePlace(Bridges(logs)[n]));
    RegistryFound(Registries(logs), BridgePlace(Bridges(logs)[n]));
  }

  /** Each deposit is reported with its own event's fields and place, ether without an identity. */
  lemma JoinedFields(logs: seq<Log>, n: nat)
    requires Accepted(logs) && n < |Bridges(logs)|
    ensures |Joined(logs)| == |Bridges(logs)|
    ensures var b, log, d := Bridges(logs)[n], Joined(logs)[n], Joined(logs)[n].deposit;
      && b.tx == Some(d.tx) && b.block == Some(log.block) && b.hash == Some(log.hash) && b.logIndex == Some(d.logIndex)
      && d.nonce == b.nonce && d.leaf == b.shared.leaf && d.oldState == b.oldState && d.newState == b.shared.newState
      && d.token == b.shared.token && d.sender == b.shared.sender && d.recipient == b.shared.recipient
      && d.amount == b.shared.amount && d.zekoAmount == b.zekoAmount && d.timeout == b.shared.timeout
      && (d.token == 0 <==> d.identity.None?) && (d.token != 0 ==> d.amount == d.zekoAmount)
  {
    var bases, b := Bases(logs), Bridges(logs)[n];
    assert DepositValid(bases, Bridges(logs), n);
    BaseFound(bases, BridgePlace(b));
  }

  predicate Refined(regs: seq<RegistryLog>, p: Place) {
    exists k :: 0 <= k < |regs| && BasePlace(regs[k].base) == p
  }

  /** A token deposit is a registry deposit exactly when a refining event exists, and then has its data. */
  predicate Reported(regs: seq<RegistryLog>, d: BridgeLog, identity: Option<Identity>) {
    && (identity.Some? <==> d.shared.token != 0)
    && (identity.Some? ==> (identity.value.RegistryV2? <==> Refined(regs, BridgePlace(d))))
    && (identity.Some? ==> forall k :: 0 <= k < |regs| && BasePlace(regs[k].base) == BridgePlace(d) ==>
          identity == Some(RegistryV2(regs[k].base.asset, regs[k].index, regs[k].commitment)))
  }

  /** Each deposit is reported in its own position, and as what its events make it. */
  lemma RegistryExactly(logs: seq<Log>, n: nat)
    requires Accepted(logs) && n < |Bridges(logs)|
    ensures |Joined(logs)| == |Bridges(logs)|
    ensures Joined(logs)[n].deposit.nonce == Bridges(logs)[n].nonce
    ensures Reported(Registries(logs), Bridges(logs)[n], Joined(logs)[n].deposit.identity)
  {
    var bases, regs, d := Bases(logs), Registries(logs), Bridges(logs)[n];
    assert DepositValid(bases, Bridges(logs), n);
    if d.shared.token != 0 {
      BaseFound(bases, BridgePlace(d));
      IdentityClassified(bases, regs, d);
    }
    assert Joined(logs)[n].deposit.identity == IdentityOf(bases, regs, d);
  }

  lemma IdentityClassified(bases: seq<BaseLog>, regs: seq<RegistryLog>, d: BridgeLog)
    requires BasesValid(bases) && RegistriesValid(bases, regs) && d.shared.token != 0
    requires BaseAt(bases, BridgePlace(d)).Some?
    ensures Reported(regs, d, IdentityOf(bases, regs, d))
  {
    var p := BridgePlace(d);
    RegistryFound(regs, p);
    forall k | 0 <= k < |regs| && BasePlace(regs[k].base) == p
      ensures RegistryAt(regs, p) == Some(regs[k]) && BaseAt(bases, p).value.asset == regs[k].base.asset
    {
      assert RegistryValid(bases, regs[k]);
      RefinesIff(bases, regs[k]);
    }
    if RegistryAt(regs, p).Some? {
      var l := RegistryAt(regs, p).value;
      var k :| 0 <= k < |regs| && regs[k] == l;
      assert BasePlace(regs[k].base) == p;
    }
  }
}
