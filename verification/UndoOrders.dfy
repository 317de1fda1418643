/**
  The orders in which a rollback may restore pre-images.  The query sorts by
  block and then by the time of the application, which leaves the two rows of
  one settlement tied; every such order restores the same accounts.
 */
module UndoOrders {
  import opened Common
  import opened Ledger

  /** Each job is applied once. */
  predicate JobsDistinct(apps: seq<Application>) {
    forall i, j :: 0 <= i < j < |apps| ==> apps[i].job != apps[j].job
  }

  /** Every row of one job was recorded after every row of the other. */
  predicate Later(history: seq<HistoryRow>, job: nat, other: nat) {
    forall p, q ::
      0 <= p < |history| && 0 <= q < |history| && history[p].job == job && history[q].job == other ==> p > q
  }

  /**
    The rows above the ancestor, highest block first and then latest application
    first.  Rows of one application tie, so they come in either order.
   */
  ghost predicate UndoSorted(history: seq<HistoryRow>, ancestor: int, undo: seq<HistoryRow>) {
    multiset(undo) == multiset(UndoOrder(history, ancestor)) && PairwiseNewer(history, undo)
  }

  predicate PairwiseNewer(history: seq<HistoryRow>, undo: seq<HistoryRow>) {
    forall i, j :: 0 <= i < j < |undo| && undo[i].job != undo[j].job ==> Newer(history, undo[i], undo[j])
  }

  predicate Newer(history: seq<HistoryRow>, row: HistoryRow, other: HistoryRow) {
    row.block > other.block || (row.block == other.block && Later(history, row.job, other.job))
  }

  lemma {:induction false} InsertMembers(rows: seq<HistoryRow>, row: HistoryRow)
    ensures multiset(InsertDescending(rows, row)) == multiset(rows) + multiset{row}
  {
    if rows != [] && rows[0].block > row.block {
      InsertMembers(rows[1..], row);
      assert rows == [rows[0]] + rows[1..];
    }
  }

  lemma {:induction false} UndoMembers(history: seq<HistoryRow>, ancestor: int, row: HistoryRow)
    requires row in UndoOrder(history, ancestor)
    ensures row in history
  {
    if history != [] {
      var rest, last := UndoOrder(history[..|history| - 1], ancestor), history[|history| - 1];
      if last.block > ancestor {
        InsertMembers(rest, last);
        assert row in multiset(InsertDescending(rest, last));
      }
      if row != last {
        assert row in multiset(rest);
        UndoMembers(history[..|history| - 1], ancestor, row);
      }
    }
  }

  /** No row of another job comes before one of this job. */
  predicate JobFirst(undo: seq<HistoryRow>, job: nat) {
    forall i, j :: 0 <= i < j < |undo| && undo[i].job != job ==> undo[j].job != job
  }

  /** Of some rows of one job and others, a row of the job comes first when none of the others precedes one. */
  lemma FrontIsOwn(undo: seq<HistoryRow>, own: multiset<HistoryRow>, rest: multiset<HistoryRow>, job: nat)
    requires multiset(undo) == own + rest && own != multiset{} && JobFirst(undo, job)
    requires forall row :: row in own ==> row.job == job
    requires forall row :: row in rest ==> row.job != job
    ensures undo != [] && undo[0] in own && multiset(undo[1..]) == (own - multiset{undo[0]}) + rest
    ensures JobFirst(undo[1..], job)
  {
    var row :| row in own;
    assert row in multiset(undo);
    var i :| 0 <= i < |undo| && undo[i] == row;
    assert undo[0] in multiset(undo);
    assert undo[0].job == job;
    assert undo == [undo[0]] + undo[1..];
    TakenAway(own, rest, multiset(undo[1..]), undo[0]);
  }

  lemma TakenAway(own: multiset<HistoryRow>, rest: multiset<HistoryRow>, tail: multiset<HistoryRow>, row: HistoryRow)
    requires row in own && own + rest == multiset{row} + tail
    ensures tail == (own - multiset{row}) + rest
  {
    forall other
      ensures tail[other] == ((own - multiset{row}) + rest)[other]
    {
      assert (own + rest)[other] == (multiset{row} + tail)[other];
    }
  }

  lemma FrontIsOnly(undo: seq<HistoryRow>, row: HistoryRow, rest: multiset<HistoryRow>, job: nat)
    requires multiset(undo) == multiset{row} + rest && row.job == job && JobFirst(undo, job)
    requires forall other :: other in rest ==> other.job != job
    ensures undo != [] && undo[0] == row && multiset(undo[1..]) == rest
  {
    FrontIsOwn(undo, multiset{row}, rest, job);
  }

  lemma FrontIsPair(undo: seq<HistoryRow>, first: HistoryRow, second: HistoryRow, rest: multiset<HistoryRow>, job: nat)
    requires multiset(undo) == multiset{first, second} + rest && JobFirst(undo, job)
    requires first.job == second.job == job && forall row :: row in rest ==> row.job != job
    ensures |undo| >= 2 && ((undo[0] == first && undo[1] == second) || (undo[0] == second && undo[1] == first))
    ensures multiset(undo[2..]) == rest
  {
    FrontIsOwn(undo, multiset{first, second}, rest, job);
    var other := if undo[0] == first then second else first;
    FrontIsOnly(undo[1..], other, rest, job);
    assert undo[1..][1..] == undo[2..];
  }

  /** The undo of the last application comes first, as its rows in either order. */
  lemma FrontIsLast(undo: seq<HistoryRow>, rows: seq<HistoryRow>, rest: multiset<HistoryRow>, job: nat)
    requires 1 <= |rows| <= 2 && forall i :: 0 <= i < |rows| ==> rows[i].job == job
    requires multiset(undo) == multiset(rows) + rest && JobFirst(undo, job)
    requires forall row :: row in rest ==> row.job != job
    ensures |rows| <= |undo| && (undo[..|rows|] == rows || undo[..|rows|] == Reverse(rows))
    ensures multiset(undo[|rows|..]) == rest
  {
    if |rows| == 2 {
      PairShape(rows);
      FrontIsPair(undo, rows[0], rows[1], rest, job);
      PairShape(undo[..2]);
    } else {
      assert rows == [rows[0]];
      FrontIsOnly(undo, rows[0], rest, job);
    }
  }

  lemma PairShape(rows: seq<HistoryRow>)
    requires |rows| == 2
    ensures rows == [rows[0], rows[1]] && Reverse(rows) == [rows[1], rows[0]]
    ensures multiset(rows) == multiset{rows[0], rows[1]}
  {
    PairReversed(rows);
    assert rows == [rows[0], rows[1]];
    assert multiset([rows[0], rows[1]]) == multiset{rows[0], rows[1]};
  }

  lemma PairReversed(rows: seq<HistoryRow>)
    requires |rows| == 2
    ensures Reverse(rows) == [rows[1], rows[0]]
  {
    var back := Reverse(rows);
    assert back[0] == rows[1] && back[1] == rows[0];
  }

  lemma {:induction false} ReverseMembers(rows: seq<HistoryRow>)
    ensures multiset(Reverse(rows)) == multiset(rows)
  {
    if rows != [] {
      ReverseMembers(rows[..|rows| - 1]);
      assert rows == rows[..|rows| - 1] + [rows[|rows| - 1]];
    }
  }

  /** The rows left to undo once the last application is undone belong to other jobs, at no higher block. */
  lemma OthersElsewhere(initial: Accounts, apps: seq<Application>, last: Application, ancestor: int, row: HistoryRow)
    requires Replayable(initial, apps) && JobsDistinct(apps + [last]) && Ordered(apps + [last])
    requires row in UndoOrder(HistoryOf(initial, apps), ancestor)
    ensures row in HistoryOf(initial, apps) && row.job != last.job && row.block <= last.block
  {
    var history, all := HistoryOf(initial, apps), apps + [last];
    assert all[|apps|] == last;
    UndoMembers(history, ancestor, row);
    var p :| 0 <= p < |history| && history[p] == row;
    assert Recorded(history, row.job);
    RecordedMeansApplied(initial, apps, row.job);
    var i :| 0 <= i < |apps| && apps[i].job == row.job;
    assert all[i] == apps[i];
    forall k | 0 <= k < |apps|
      ensures apps[k].block <= last.block
    {
      assert all[k] == apps[k];
    }
    HistoryBounded(initial, apps, last.block);
  }

  lemma OthersBelow(initial: Accounts, apps: seq<Application>, last: Application, ancestor: int)
    requires Replayable(initial, apps) && JobsDistinct(apps + [last]) && Ordered(apps + [last])
    ensures forall row: HistoryRow :: row in UndoOrder(HistoryOf(initial, apps), ancestor) ==>
      row.job != last.job && row.block <= last.block
  {
    forall row: HistoryRow | row in UndoOrder(HistoryOf(initial, apps), ancestor)
      ensures row.job != last.job && row.block <= last.block
    {
      OthersElsewhere(initial, apps, last, ancestor, row);
    }
  }

  lemma NotNewer(history: seq<HistoryRow>, rows: seq<HistoryRow>, row: HistoryRow, other: HistoryRow)
    requires row in history && other in rows && row.block <= other.block
    ensures !Newer(history + rows, row, other)
  {
    var p :| 0 <= p < |history| && history[p] == row;
    var q :| 0 <= q < |rows| && rows[q] == other;
    assert (history + rows)[p] == row && (history + rows)[|history| + q] == other;
  }

  lemma LastFirst(history: seq<HistoryRow>, rows: seq<HistoryRow>, undo: seq<HistoryRow>, job: nat, block: nat)
    requires forall row :: row in rows ==> row.job == job && row.block == block
    requires forall row :: row in undo ==> row in rows || (row in history && row.job != job && row.block <= block)
    requires PairwiseNewer(history + rows, undo)
    ensures JobFirst(undo, job)
  {
    forall i, j | 0 <= i < j < |undo| && undo[i].job != job
      ensures undo[j].job != job
    {
      assert undo[i] in undo && undo[j] in undo;
      if undo[j].job == job {
        NotNewer(history, rows, undo[i], undo[j]);
      }
    }
  }

  lemma TailSorted(history: seq<HistoryRow>, rows: seq<HistoryRow>, ancestor: int, undo: seq<HistoryRow>, n: nat)
    requires n <= |undo| && multiset(undo[n..]) == multiset(UndoOrder(history, ancestor))
    requires PairwiseNewer(history + rows, undo)
    ensures UndoSorted(history, ancestor, undo[n..])
  {
    var all := history + rows;
    assert forall p :: 0 <= p < |history| ==> all[p] == history[p];
    forall i, j | 0 <= i < j < |undo[n..]| && undo[n..][i].job != undo[n..][j].job
      ensures Newer(history, undo[n..][i], undo[n..][j])
    {
      assert Newer(all, undo[n + i], undo[n + j]);
    }
  }

  lemma NothingSorted(history: seq<HistoryRow>, ancestor: int, undo: seq<HistoryRow>)
    requires UndoSorted(history, ancestor, undo) && UndoOrder(history, ancestor) == []
    ensures undo == []
  {
    assert |multiset(undo)| == |undo|;
  }

  lemma SnocBounded(apps: seq<Application>, last: Application)
    requires Ordered(apps + [last])
    ensures forall k :: 0 <= k < |apps| ==> apps[k].block <= last.block
  {
    forall k | 0 <= k < |apps|
      ensures apps[k].block <= last.block
    {
      assert (apps + [last])[k] == apps[k] && (apps + [last])[|apps|] == last;
    }
  }

  lemma UndoLatestMembers(history: seq<HistoryRow>, rows: seq<HistoryRow>, ancestor: int, block: nat)
    requires block > ancestor
    requires forall i :: 0 <= i < |history| ==> history[i].block <= block
    requires forall i :: 0 <= i < |rows| ==> rows[i].block == block
    ensures multiset(UndoOrder(history + rows, ancestor)) == multiset(rows) + multiset(UndoOrder(history, ancestor))
  {
    UndoLatest(history, rows, ancestor, block);
    ReverseMembers(rows);
  }

  lemma SplitMembers(undo: seq<HistoryRow>, rows: seq<HistoryRow>, rest: seq<HistoryRow>, row: HistoryRow)
    requires multiset(undo) == multiset(rows) + multiset(rest) && row in undo
    ensures row in rows || row in rest
  {
    assert row in multiset(undo);
    assert row in multiset(rows) || row in multiset(rest);
  }

  lemma UndoJobFirst(initial: Accounts, apps: seq<Application>, last: Application, ancestor: int,
                     rows: seq<HistoryRow>, undo: seq<HistoryRow>)
    requires Replayable(initial, apps) && JobsDistinct(apps + [last]) && Ordered(apps + [last])
    requires forall row :: row in rows ==> row.job == last.job && row.block == last.block
    requires multiset(undo) == multiset(rows) + multiset(UndoOrder(HistoryOf(initial, apps), ancestor))
    requires PairwiseNewer(HistoryOf(initial, apps) + rows, undo)
    ensures JobFirst(undo, last.job)
  {
    var history := HistoryOf(initial, apps);
    forall row | row in undo
      ensures row in rows || (row in history && row.job != last.job && row.block <= last.block)
    {
      SplitMembers(undo, rows, UndoOrder(history, ancestor), row);
      if row !in rows {
        OthersElsewhere(initial, apps, last, ancestor, row);
      }
    }
    LastFirst(history, rows, undo, last.job, last.block);
  }

  /** One or two rows of one application. */
  predicate RowsFor(app: Application, rows: seq<HistoryRow>) {
    1 <= |rows| <= 2 && forall k :: 0 <= k < |rows| ==> rows[k].job == app.job && rows[k].block == app.block
  }

  lemma RowsShape(accounts: Accounts, app: Application)
    requires EffectOn(accounts, app.effect).Success?
    ensures RowsFor(app, RowsOf(accounts, app))
  {
  }

  lemma LatestMembers(initial: Accounts, apps: seq<Application>, last: Application, ancestor: int,
                      rows: seq<HistoryRow>)
    requires Replayable(initial, apps) && Ordered(apps + [last]) && last.block > ancestor && RowsFor(last, rows)
    ensures multiset(UndoOrder(HistoryOf(initial, apps) + rows, ancestor))
      == multiset(rows) + multiset(UndoOrder(HistoryOf(initial, apps), ancestor))
  {
    SnocBounded(apps, last);
    HistoryBounded(initial, apps, last.block);
    UndoLatestMembers(HistoryOf(initial, apps), rows, ancestor, last.block);
  }

  /** The last application's rows come first, and then a sorted undo of the rest. */
  lemma UndoSplits(initial: Accounts, apps: seq<Application>, last: Application, ancestor: int,
                   rows: seq<HistoryRow>, undo: seq<HistoryRow>)
    requires Replayable(initial, apps) && JobsDistinct(apps + [last]) && Ordered(apps + [last])
    requires last.block > ancestor && RowsFor(last, rows)
    requires UndoSorted(HistoryOf(initial, apps) + rows, ancestor, undo)
    ensures |rows| <= |undo| && (undo[..|rows|] == rows || undo[..|rows|] == Reverse(rows))
    ensures UndoSorted(HistoryOf(initial, apps), ancestor, undo[|rows|..])
  {
    LatestMembers(initial, apps, last, ancestor, rows);
    UndoJobFirst(initial, apps, last, ancestor, rows, undo);
    OthersBelow(initial, apps, last, ancestor);
    FrontIsLast(undo, rows, multiset(UndoOrder(HistoryOf(initial, apps), ancestor)), last.job);
    TailSorted(HistoryOf(initial, apps), rows, ancestor, undo, |rows|);
  }

  lemma RestoreLast(accounts: Accounts, last: Application, rows: seq<HistoryRow>, undo: seq<HistoryRow>)
    requires EffectOn(accounts, last.effect).Success? && rows == RowsOf(accounts, last) && |rows| <= |undo|
    requires undo[..|rows|] == rows || undo[..|rows|] == Reverse(rows)
    ensures Restore(EffectOn(accounts, last.effect).value, undo) == Restore(accounts, undo[|rows|..])
  {
    var after, n := EffectOn(accounts, last.effect).value, |rows|;
    assert undo == undo[..n] + undo[n..];
    RestoreConcat(after, undo[..n], undo[n..]);
    RestoreUndoesOne(accounts, last, undo[..n]);
  }

  lemma LowUndo(initial: Accounts, apps: seq<Application>, ancestor: int, undo: seq<HistoryRow>)
    requires Replayable(initial, apps) && forall k :: 0 <= k < |apps| ==> apps[k].block <= ancestor
    requires UndoSorted(HistoryOf(initial, apps), ancestor, undo)
    ensures undo == [] && UpTo(apps, ancestor) == apps
  {
    UpToAll(apps, ancestor);
    NothingToUndo(HistoryOf(initial, apps), ancestor, initial, apps);
    NothingSorted(HistoryOf(initial, apps), ancestor, undo);
  }

  lemma WithoutLast(initial: Accounts, apps: seq<Application>)
    requires apps != [] && Replayable(initial, apps) && Ordered(apps) && JobsDistinct(apps)
    ensures var earlier, last := apps[..|apps| - 1], apps[|apps| - 1];
      && apps == earlier + [last] && Replayable(initial, earlier) && Ordered(earlier) && JobsDistinct(earlier)
      && EffectOn(Replay(initial, earlier), last.effect) == Success(Replay(initial, apps))
      && HistoryOf(initial, apps) == HistoryOf(initial, earlier) + RowsOf(Replay(initial, earlier), last)
  {
    var earlier := apps[..|apps| - 1];
    assert forall i :: 0 <= i < |earlier| ==> earlier[i] == apps[i];
  }

  /** After the last application's rows, the rest is a sorted undo of what came before it. */
  lemma UndoLast(initial: Accounts, apps: seq<Application>, ancestor: int, undo: seq<HistoryRow>)
    returns (rest: seq<HistoryRow>)
    requires apps != [] && apps[|apps| - 1].block > ancestor
    requires Replayable(initial, apps) && Ordered(apps) && JobsDistinct(apps)
    requires UndoSorted(HistoryOf(initial, apps), ancestor, undo)
    ensures UndoSorted(HistoryOf(initial, apps[..|apps| - 1]), ancestor, rest)
    ensures Restore(Replay(initial, apps), undo) == Restore(Replay(initial, apps[..|apps| - 1]), rest)
  {
    var earlier, last := apps[..|apps| - 1], apps[|apps| - 1];
    WithoutLast(initial, apps);
    var rows := RowsOf(Replay(initial, earlier), last);
    RowsShape(Replay(initial, earlier), last);
    UndoSplits(initial, earlier, last, ancestor, rows, undo);
    RestoreLast(Replay(initial, earlier), last, rows, undo);
    rest := undo[|rows|..];
  }

  /**
    Whichever of the orders the query may give, undoing restores the replay of
    the applications at or below the ancestor.
   */
  lemma {:induction false} AnyUndoIsReplay(initial: Accounts, apps: seq<Application>, ancestor: int,
                                           undo: seq<HistoryRow>)
    requires Replayable(initial, apps) && Ordered(apps) && JobsDistinct(apps)
    requires UndoSorted(HistoryOf(initial, apps), ancestor, undo)
    ensures Replayable(initial, UpTo(apps, ancestor))
    ensures Restore(Replay(initial, apps), undo) == Replay(initial, UpTo(apps, ancestor))
    decreases |apps|
  {
    if apps == [] || apps[|apps| - 1].block <= ancestor {
      LowUndo(initial, apps, ancestor, undo);
    } else {
      WithoutLast(initial, apps);
      var rest := UndoLast(initial, apps, ancestor, undo);
      AnyUndoIsReplay(initial, apps[..|apps| - 1], ancestor, rest);
    }
  }

  lemma OldRowsFirst(history: seq<HistoryRow>, rows: seq<HistoryRow>, job: nat, k: nat)
    requires k < |history + rows| && forall i :: 0 <= i < |rows| ==> rows[i].job == job
    ensures (history + rows)[k].job != job ==> k < |history| && (history + rows)[k] == history[k]
    ensures !Recorded(history, job) ==> ((history + rows)[k].job == job <==> k >= |history|)
  {
    if k < |history| && history[k].job == job {
      assert Recorded(history, job);
    }
  }

  lemma NewerKept(history: seq<HistoryRow>, rows: seq<HistoryRow>, job: nat, row: HistoryRow, other: HistoryRow)
    requires forall i :: 0 <= i < |rows| ==> rows[i].job == job
    requires row.job != job && other.job != job && Newer(history, row, other)
    ensures Newer(history + rows, row, other)
  {
    forall k | 0 <= k < |history + rows|
      ensures (history + rows)[k].job != job ==> k < |history| && (history + rows)[k] == history[k]
    {
      OldRowsFirst(history, rows, job, k);
    }
  }

  lemma LatestIsNewer(history: seq<HistoryRow>, rows: seq<HistoryRow>, row: HistoryRow, other: HistoryRow)
    requires row in rows && forall i :: 0 <= i < |rows| ==> rows[i].job == row.job
    requires !Recorded(history, row.job) && other.job != row.job && other.block <= row.block
    ensures Newer(history + rows, row, other)
  {
    forall k | 0 <= k < |history + rows|
      ensures (history + rows)[k].job == row.job <==> k >= |history|
    {
      OldRowsFirst(history, rows, row.job, k);
    }
  }

  /** Rows of a job not recorded before go in front of older rows, which stay in their order. */
  lemma SortedGrows(history: seq<HistoryRow>, rows: seq<HistoryRow>, front: seq<HistoryRow>, rest: seq<HistoryRow>,
                    job: nat, block: nat)
    requires !Recorded(history, job) && forall k :: 0 <= k < |rows| ==> rows[k].job == job
    requires forall row :: row in front ==> row in rows && row.job == job && row.block == block
    requires forall row :: row in rest ==> row.job != job && row.block <= block
    requires PairwiseNewer(history, rest)
    ensures PairwiseNewer(history + rows, front + rest)
  {
    var undo, n := front + rest, |front|;
    forall k | 0 <= k < n
      ensures undo[k].job == job
    {
      assert front[k] in front;
    }
    forall i, j | 0 <= i < j < |undo| && undo[i].job != undo[j].job
      ensures Newer(history + rows, undo[i], undo[j])
    {
      if i < n {
        assert front[i] in front && rest[j - n] in rest;
        LatestIsNewer(history, rows, front[i], rest[j - n]);
      } else {
        assert rest[i - n] in rest && rest[j - n] in rest;
        NewerKept(history, rows, job, rest[i - n], rest[j - n]);
      }
    }
  }

  lemma NotRecordedYet(initial: Accounts, apps: seq<Application>, last: Application)
    requires Replayable(initial, apps) && JobsDistinct(apps + [last])
    ensures !Recorded(HistoryOf(initial, apps), last.job)
  {
    RecordedMeansApplied(initial, apps, last.job);
    forall i | 0 <= i < |apps|
      ensures apps[i].job != last.job
    {
      assert (apps + [last])[i] == apps[i] && (apps + [last])[|apps|] == last;
    }
  }

  lemma ReverseRows(app: Application, rows: seq<HistoryRow>)
    requires RowsFor(app, rows)
    ensures forall row :: row in Reverse(rows) ==> row in rows && row.job == app.job && row.block == app.block
  {
  }

  lemma NewestSorted(initial: Accounts, apps: seq<Application>, last: Application, ancestor: int,
                     rows: seq<HistoryRow>)
    requires Replayable(initial, apps) && JobsDistinct(apps + [last]) && Ordered(apps + [last])
    requires last.block > ancestor && RowsFor(last, rows)
    requires PairwiseNewer(HistoryOf(initial, apps), UndoOrder(HistoryOf(initial, apps), ancestor))
    ensures PairwiseNewer(HistoryOf(initial, apps) + rows, UndoOrder(HistoryOf(initial, apps) + rows, ancestor))
  {
    var history := HistoryOf(initial, apps);
    SnocBounded(apps, last);
    HistoryBounded(initial, apps, last.block);
    UndoLatest(history, rows, ancestor, last.block);
    NotRecordedYet(initial, apps, last);
    OthersBelow(initial, apps, last, ancestor);
    ReverseRows(last, rows);
    SortedGrows(history, rows, Reverse(rows), UndoOrder(history, ancestor), last.job, last.block);
  }

  /** The order that the specification fixes is one of those the query may give. */
  lemma {:induction false} NewestFirstIsSorted(initial: Accounts, apps: seq<Application>, ancestor: int)
    requires Replayable(initial, apps) && Ordered(apps) && JobsDistinct(apps)
    ensures UndoSorted(HistoryOf(initial, apps), ancestor, UndoOrder(HistoryOf(initial, apps), ancestor))
    decreases |apps|
  {
    if apps == [] || apps[|apps| - 1].block <= ancestor {
      NothingToUndo(HistoryOf(initial, apps), ancestor, initial, apps);
    } else {
      var earlier, last := apps[..|apps| - 1], apps[|apps| - 1];
      WithoutLast(initial, apps);
      RowsShape(Replay(initial, earlier), last);
      NewestFirstIsSorted(initial, earlier, ancestor);
      NewestSorted(initial, earlier, last, ancestor, RowsOf(Replay(initial, earlier), last));
    }
  }
}
