/**
  When at most one live job holds in either mode, told from the history of a
  run: from the steps that put a finished job in doubt outside the writer row,
  and those that dealt with one.
 */
module WriterHistory {
  import opened Common
  import opened Chain
  import opened Gateway
  import opened Runs
  import opened Safety
  import opened OneWriter
  import Ledger

  /** Some step put the job in doubt outside the writer row, and none since has dealt with it. */
  ghost predicate Astray(y: System, steps: seq<Step>, id: JobId) {
    exists m :: 0 <= m < |steps| && AstraySince(y, steps, m, id)
  }

  ghost predicate AstraySince(y: System, steps: seq<Step>, m: nat, id: JobId)
    requires m < |steps|
  {
    Orphans(Run(y, steps[..m]), steps[m], id) && forall n :: m < n < |steps| ==> !EndsAt(y, steps, n, id)
  }

  ghost predicate EndsAt(y: System, steps: seq<Step>, n: nat, id: JobId)
    requires n < |steps|
  {
    Ends(Run(y, steps[..n]), steps[n], id)
  }

  lemma EarlierEnds(y: System, steps: seq<Step>, last: Step, n: nat, id: JobId)
    requires n < |steps|
    ensures EndsAt(y, steps + [last], n, id) <==> EndsAt(y, steps, n, id)
  {
    assert (steps + [last])[..n] == steps[..n];
  }

  lemma LastEnds(y: System, steps: seq<Step>, last: Step, id: JobId)
    ensures EndsAt(y, steps + [last], |steps|, id) <==> Ends(Run(y, steps), last, id)
  {
    assert (steps + [last])[..|steps|] == steps;
  }

  lemma AstraySinceFurther(y: System, steps: seq<Step>, last: Step, m: nat, id: JobId)
    requires m < |steps|
    ensures AstraySince(y, steps + [last], m, id) <==> AstraySince(y, steps, m, id) && !Ends(Run(y, steps), last, id)
  {
    assert (steps + [last])[..m] == steps[..m];
    LastEnds(y, steps, last, id);
    forall n: nat | n < |steps|
      ensures EndsAt(y, steps + [last], n, id) <==> EndsAt(y, steps, n, id)
    {
      EarlierEnds(y, steps, last, n, id);
    }
  }

  lemma AstrayNow(y: System, steps: seq<Step>, last: Step, id: JobId)
    ensures AstraySince(y, steps + [last], |steps|, id) <==> Orphans(Run(y, steps), last, id)
  {
    assert (steps + [last])[..|steps|] == steps;
  }

  lemma AstrayFurther(y: System, steps: seq<Step>, last: Step, id: JobId)
    ensures Astray(y, steps + [last], id) <==>
      Orphans(Run(y, steps), last, id) || (Astray(y, steps, id) && !Ends(Run(y, steps), last, id))
  {
    AstrayNow(y, steps, last, id);
    forall m: nat | m < |steps|
      ensures AstraySince(y, steps + [last], m, id) <==>
        AstraySince(y, steps, m, id) && !Ends(Run(y, steps), last, id)
    {
      AstraySinceFurther(y, steps, last, m, id);
    }
  }

  /** The history tells exactly which jobs are signed, open and outside the writer row. */
  lemma {:induction false} StrayIsAstray(y: System, steps: seq<Step>, id: JobId)
    requires Ruled(y) && y.db.jobs == map[]
    ensures Stray(Run(y, steps).db, id) <==> Astray(y, steps, id)
    decreases |steps|
  {
    if steps != [] {
      var n := |steps| - 1;
      var earlier, last := steps[..n], steps[n];
      assert steps == earlier + [last];
      StrayIsAstray(y, earlier, id);
      RunKeepsRuled(y, earlier);
      AstrayFurther(y, earlier, last, id);
      StrayNext(Run(y, earlier), last, id);
    }
  }

  lemma StrayNext(y: System, step: Step, id: JobId)
    requires Ruled(y)
    ensures Stray(Next(y, step).db, id) <==> Orphans(y, step, id) || (Stray(y.db, id) && !Ends(y, step, id))
  {
    if Stray(y.db, id) {
      StrayEndsIff(y, step, id);
    } else {
      StrayIff(y, step, id);
    }
  }

  /** The writer's own job is open. */
  predicate WriterLive(s: Store) {
    s.writer.job.Some? && s.writer.job.value in s.jobs && !Released(s.jobs[s.writer.job.value])
  }

  /** The writer's job is open, or another job is astray. */
  ghost predicate Contested(y: System, steps: seq<Step>, id: JobId) {
    WriterLive(Run(y, steps).db) || exists o :: o != id && Astray(y, steps, o)
  }

  /**
    The two ways to lose the rule: a receipt of a confirmed job is found not
    final, and the gateway opens while a job is astray, in either case beside
    the writer's open job or another that is astray.
   */
  ghost predicate Clashes(y: System, steps: seq<Step>, step: Step) {
    var z := Run(y, steps);
    match step
    case StepReconcile(id, mined, final) => z.db.ready && Reopens(z, id, mined, final) && Contested(y, steps, id)
    case StepReady => z.phase.Reconciling? && exists id :: Astray(y, steps, id) && Contested(y, steps, id)
    case _ => false
  }

  lemma LiveIsContested(y: System, steps: seq<Step>, id: JobId)
    requires Ruled(y) && y.db.jobs == map[] && UnsignedAttached(Run(y, steps).db)
    requires Run(y, steps).db.writer.job == Some(id) ==> !WriterLive(Run(y, steps).db)
    ensures OtherLive(Run(y, steps).db, id) <==> Contested(y, steps, id)
  {
    var s := Run(y, steps).db;
    forall o
      ensures Stray(s, o) <==> Astray(y, steps, o)
      ensures Stray(s, o) ==> !Released(s.jobs[o])
    {
      StrayIsAstray(y, steps, o);
      if Stray(s, o) {
        OpenIsLive(s.jobs[o]);
      }
    }
    if OtherLive(s, id) {
      var o :| o in s.jobs && o != id && !Released(s.jobs[o]);
      assert Stray(s, o) || s.writer.job == Some(o);
    }
    if WriterLive(s) {
      assert s.writer.job.value != id;
    } else if Contested(y, steps, id) {
      var o :| o != id && Astray(y, steps, o);
      assert Stray(s, o);
    }
  }

  lemma ClashIffDoubles(y: System, steps: seq<Step>, step: Step)
    requires Ruled(y) && y.db.jobs == map[]
    ensures Clashes(y, steps, step) <==> Doubles(Run(y, steps), step)
  {
    var z := Run(y, steps);
    RunKeepsRuled(y, steps);
    if step.StepReconcile? {
      if Reopens(z, step.id, step.mined, step.final) {
        LiveIsContested(y, steps, step.id);
      }
    } else if step.StepReady? {
      forall id
        ensures Astray(y, steps, id) <==> Stray(z.db, id)
        ensures Stray(z.db, id) ==> (OtherLive(z.db, id) <==> Contested(y, steps, id))
      {
        StrayIsAstray(y, steps, id);
        if Stray(z.db, id) {
          LiveIsContested(y, steps, id);
        }
      }
    }
  }

  /** A run from empty tables keeps the rule in its next step exactly when that step does not clash. */
  lemma StepKeepsOneLiveIff(y: System, steps: seq<Step>, step: Step)
    requires Ruled(y) && y.db.jobs == map[] && OpenRule(Run(y, steps))
    ensures OpenRule(Next(Run(y, steps), step)) <==> !Clashes(y, steps, step)
  {
    RunKeepsRuled(y, steps);
    StepDoublesIff(Run(y, steps), step);
    ClashIffDoubles(y, steps, step);
  }

  ghost predicate NeverClashes(y: System, steps: seq<Step>) {
    forall k :: 0 <= k < |steps| ==> !Clashes(y, steps[..k], steps[k])
  }

  ghost predicate AlwaysRuled(y: System, steps: seq<Step>) {
    forall k :: 0 <= k <= |steps| ==> OpenRule(Run(y, steps[..k]))
  }

  lemma OneFurther(y: System, steps: seq<Step>, k: nat)
    requires Ruled(y) && y.db.jobs == map[] && k < |steps| && OpenRule(Run(y, steps[..k]))
    ensures OpenRule(Run(y, steps[..k + 1])) <==> !Clashes(y, steps[..k], steps[k])
  {
    assert steps[..k + 1][..k] == steps[..k];
    StepKeepsOneLiveIff(y, steps[..k], steps[k]);
  }

  lemma RunNothing(y: System, steps: seq<Step>)
    ensures Run(y, steps[..0]) == y
  {
    assert steps[..0] == [];
  }

  lemma NoClashFurther(y: System, steps: seq<Step>, k: nat)
    requires Ruled(y) && y.db.jobs == map[] && NeverClashes(y, steps) && 0 < k <= |steps|
    requires OpenRule(Run(y, steps[..k - 1]))
    ensures OpenRule(Run(y, steps[..k]))
  {
    OneFurther(y, steps, k - 1);
  }

  lemma {:induction false} NoClashKeeps(y: System, steps: seq<Step>, k: nat)
    requires Ruled(y) && y.db.jobs == map[] && OpenRule(y) && NeverClashes(y, steps) && k <= |steps|
    ensures OpenRule(Run(y, steps[..k]))
    decreases k
  {
    if k == 0 {
      RunNothing(y, steps);
    } else {
      NoClashKeeps(y, steps, k - 1);
      NoClashFurther(y, steps, k);
    }
  }

  lemma InitialRuled(mode: Mode, outerKey: Key, feeKey: Key, accounts: Ledger.Accounts)
    ensures Ruled(Initial(mode, outerKey, feeKey, accounts)) && OpenRule(Initial(mode, outerKey, feeKey, accounts))
  {
  }

  /** In either mode: all through a run at most one job is live while open, exactly when no step clashes. */
  lemma OneLiveIff(mode: Mode, outerKey: Key, feeKey: Key, accounts: Ledger.Accounts, y: System, steps: seq<Step>)
    requires y == Initial(mode, outerKey, feeKey, accounts)
    ensures AlwaysRuled(y, steps) <==> NeverClashes(y, steps)
  {
    InitialRuled(mode, outerKey, feeKey, accounts);
    if NeverClashes(y, steps) {
      forall k | 0 <= k <= |steps|
        ensures OpenRule(Run(y, steps[..k]))
      {
        NoClashKeeps(y, steps, k);
      }
    }
    if AlwaysRuled(y, steps) {
      forall k | 0 <= k < |steps|
        ensures !Clashes(y, steps[..k], steps[k])
      {
        assert OpenRule(Run(y, steps[..k])) && OpenRule(Run(y, steps[..k + 1]));
        OneFurther(y, steps, k);
      }
    }
  }

  /**
    The gateway opens over two live jobs exactly when some earlier step put a
    finished job in doubt outside the writer row, none since has dealt with it,
    and beside it the writer's own job is open or another job is astray.
   */
  lemma OpensOverTwoIff(mode: Mode, outerKey: Key, feeKey: Key, accounts: Ledger.Accounts, y: System,
                        steps: seq<Step>)
    requires y == Initial(mode, outerKey, feeKey, accounts) && Run(y, steps).phase.Reconciling?
    ensures Next(Run(y, steps), StepReady).db.ready
    ensures !OneLive(Next(Run(y, steps), StepReady).db.jobs) <==>
      exists id :: Astray(y, steps, id) && Contested(y, steps, id)
  {
    InitialRuled(mode, outerKey, feeKey, accounts);
    RunKeepsRuled(y, steps);
    ReadyTaken(Run(y, steps));
    StrayBesideLive(Run(y, steps).db);
    ClashIffDoubles(y, steps, StepReady);
  }

  /** In Finalized mode no step ever clashes. */
  lemma FinalizedNeverClashes(outerKey: Key, feeKey: Key, accounts: Ledger.Accounts, y: System, steps: seq<Step>)
    requires y == Initial(Finalized, outerKey, feeKey, accounts)
    ensures NeverClashes(y, steps)
  {
    forall k | 0 <= k <= |steps|
      ensures OpenRule(Run(y, steps[..k]))
    {
      RunKeepsInv(y, steps[..k]);
    }
    OneLiveIff(Finalized, outerKey, feeKey, accounts, y, steps);
  }
}
