/**
  The request budget that every clone of the RPC client shares, and the bounded
  retry of reads.  Instants are real numbers of seconds; only their order and
  differences matter.
 */
module RpcBudget {
  import opened Common

  // ---------- the shared next-request instant, as a state machine ----------

  datatype Grant = Grant(at: real, cost: nat)

  /** `next` is shared by all clones; `clock` is the last instant anyone read; grants are in order. */
  datatype Budget = Budget(rate: nat, next: real, clock: real, grants: seq<Grant>)

  /** What one clone does while it holds the lock. */
  datatype Event = Pace(now: real, cost: nat) | Cooldown(now: real, delay: real)

  function Gap(rate: nat, cost: nat): real
    requires rate > 0
  {
    cost as real / rate as real
  }

  /** The clock never goes back, delays are not negative, and a packet costs at least one. */
  predicate Possible(b: Budget, e: Event) {
    b.clock <= e.now && (if e.Pace? then e.cost >= 1 else e.delay >= 0.0)
  }

  predicate Granted(b: Budget, e: Event) {
    e.Pace? && b.next <= e.now
  }

  function Act(b: Budget, e: Event): Budget
    requires b.rate > 0
  {
    if Granted(b, e) then
      b.(clock := e.now, next := e.now + Gap(b.rate, e.cost), grants := b.grants + [Grant(e.now, e.cost)])
    else if e.Pace? then b.(clock := e.now)
    else b.(clock := e.now, next := if b.next >= e.now + e.delay then b.next else e.now + e.delay)
  }

  /** Any interleaving of any number of clones; impossible events do not happen. */
  function Run(b: Budget, events: seq<Event>): (r: Budget)
    requires b.rate > 0
    ensures r.rate == b.rate
    decreases |events|
  {
    if events == [] then b
    else
      var earlier := Run(b, events[..|events| - 1]);
      var e := events[|events| - 1];
      if Possible(earlier, e) then Act(earlier, e) else earlier
  }

  function Fresh(rate: nat, now: real): Budget {
    Budget(rate, now, now, [])
  }

  /** Consecutive grants are at least the earlier one's cost apart, and the next one will be too. */
  predicate Spaced(b: Budget)
    requires b.rate > 0
  {
    && (forall i :: 0 < i < |b.grants| ==> b.grants[i - 1].at + Gap(b.rate, b.grants[i - 1].cost) <= b.grants[i].at)
    && (b.grants != [] ==>
          b.grants[|b.grants| - 1].at + Gap(b.rate, b.grants[|b.grants| - 1].cost) <= b.next)
  }

  lemma GapPositive(rate: nat, cost: nat)
    requires rate > 0
    ensures Gap(rate, cost) >= 0.0
    ensures Gap(rate, cost) * rate as real == cost as real
  {
  }

  lemma ActKeepsSpaced(b: Budget, e: Event)
    requires b.rate > 0 && Spaced(b) && Possible(b, e)
    ensures Spaced(Act(b, e)) && b.next <= Act(b, e).next
  {
    if e.Pace? {
      GapPositive(b.rate, e.cost);
    }
  }

  lemma {:induction false} RunKeepsSpaced(b: Budget, events: seq<Event>)
    requires b.rate > 0 && Spaced(b)
    ensures Spaced(Run(b, events)) && b.next <= Run(b, events).next
    decreases |events|
  {
    if events != [] {
      RunKeepsSpaced(b, events[..|events| - 1]);
      var earlier := Run(b, events[..|events| - 1]);
      if Possible(earlier, events[|events| - 1]) {
        ActKeepsSpaced(earlier, events[|events| - 1]);
      }
    }
  }

  // ---------- the rate over any window ----------

  function Cost(grants: seq<Grant>): nat {
    if grants == [] then 0 else Cost(grants[..|grants| - 1]) + grants[|grants| - 1].cost
  }

  lemma Scales(r: real, a: real, b: real)
    requires r >= 0.0 && a <= b
    ensures r * a <= r * b
  {
  }

  lemma OneMore(r: real, first: real, step: real, gap: real, cost: real, spent: real)
    requires r >= 0.0 && spent <= r * first && gap <= step && gap * r == cost
    ensures spent + cost <= r * (first + step)
  {
    Scales(r, gap, step);
  }

  lemma NextGrant(b: Budget, j: nat)
    requires b.rate > 0 && Spaced(b) && 0 < j < |b.grants|
    ensures Gap(b.rate, b.grants[j - 1].cost) <= b.grants[j].at - b.grants[j - 1].at
  {
  }

  lemma CostSnoc(grants: seq<Grant>, i: nat, j: nat)
    requires i < j <= |grants|
    ensures Cost(grants[i..j]) == Cost(grants[i..j - 1]) + grants[j - 1].cost
  {
    assert grants[i..j][..j - 1 - i] == grants[i..j - 1];
  }

  function Length(b: Budget, i: nat, j: nat): real
    requires i <= j < |b.grants|
  {
    b.grants[j].at - b.grants[i].at
  }

  predicate Fits(rate: nat, cost: nat, length: real) {
    cost as real <= rate as real * length
  }

  lemma FitsOneMore(rate: nat, spent: nat, cost: nat, length: real, step: real)
    requires rate > 0 && Fits(rate, spent, length) && Gap(rate, cost) <= step
    ensures Fits(rate, spent + cost, length + step)
  {
    GapPositive(rate, cost);
    OneMore(rate as real, length, step, Gap(rate, cost), cost as real, spent as real);
  }

  /** Costs granted before the last of a stretch fit in the time the stretch takes. */
  lemma {:induction false} StretchFits(b: Budget, i: nat, j: nat)
    requires b.rate > 0 && Spaced(b) && i <= j < |b.grants|
    ensures Fits(b.rate, Cost(b.grants[i..j]), Length(b, i, j))
    decreases j - i
  {
    if i < j {
      StretchFits(b, i, j - 1);
      CostSnoc(b.grants, i, j);
      NextGrant(b, j);
      FitsOneMore(b.rate, Cost(b.grants[i..j - 1]), b.grants[j - 1].cost, Length(b, i, j - 1), Length(b, j - 1, j));
    } else {
      assert b.grants[i..j] == [];
    }
  }

  /** A window's bill: what fits in it, and the last request on top. */
  predicate Within(rate: nat, spent: nat, w: real, last: nat) {
    spent as real <= rate as real * w + last as real
  }

  lemma WindowBound(rate: nat, spent: nat, last: nat, length: real, w: real)
    requires Fits(rate, spent, length) && length <= w
    ensures Within(rate, spent + last, w, last)
  {
    Scales(rate as real, length, w);
  }

  lemma WindowOf(b: Budget, i: nat, j: nat, w: real)
    requires b.rate > 0 && Spaced(b) && i <= j < |b.grants| && Length(b, i, j) <= w
    ensures Within(b.rate, Cost(b.grants[i..j + 1]), w, b.grants[j].cost)
  {
    StretchFits(b, i, j);
    CostSnoc(b.grants, i, j + 1);
    WindowBound(b.rate, Cost(b.grants[i..j]), b.grants[j].cost, Length(b, i, j), w);
  }

  /**
    In any run over all clones, the requests granted within any window of `w`
    seconds cost at most rate * w plus the cost of the last of them.
   */
  lemma RateHolds(rate: nat, start: real, events: seq<Event>, i: nat, j: nat, w: real)
    requires rate > 0
    requires i <= j < |Run(Fresh(rate, start), events).grants|
    requires Length(Run(Fresh(rate, start), events), i, j) <= w
    ensures var grants := Run(Fresh(rate, start), events).grants;
      Within(rate, Cost(grants[i..j + 1]), w, grants[j].cost)
  {
    RunKeepsSpaced(Fresh(rate, start), events);
    WindowOf(Run(Fresh(rate, start), events), i, j, w);
  }

  // ---------- cooldowns ----------

  lemma {:induction false} GrantsExtend(b: Budget, events: seq<Event>)
    requires b.rate > 0
    ensures |b.grants| <= |Run(b, events).grants| && Run(b, events).grants[..|b.grants|] == b.grants
    decreases |events|
  {
    if events != [] {
      GrantsExtend(b, events[..|events| - 1]);
    }
  }

  lemma {:induction false} NotBeforeNext(b: Budget, events: seq<Event>, i: nat)
    requires b.rate > 0 && Spaced(b) && |b.grants| <= i < |Run(b, events).grants|
    ensures Run(b, events).grants[i].at >= b.next
    decreases |events|
  {
    if events != [] {
      var earlier := Run(b, events[..|events| - 1]);
      RunKeepsSpaced(b, events[..|events| - 1]);
      if i < |earlier.grants| {
        NotBeforeNext(b, events[..|events| - 1], i);
      }
    }
  }

  /** After a cooldown, no clone is granted anything before it has passed. */
  lemma CooldownHolds(b: Budget, now: real, delay: real, events: seq<Event>, i: nat)
    requires b.rate > 0 && Spaced(b) && Possible(b, Cooldown(now, delay))
    requires |b.grants| <= i < |Run(Act(b, Cooldown(now, delay)), events).grants|
    ensures Run(Act(b, Cooldown(now, delay)), events).grants[i].at >= now + delay
  {
    ActKeepsSpaced(b, Cooldown(now, delay));
    NotBeforeNext(Act(b, Cooldown(now, delay)), events, i);
  }

  /** A cooldown only delays: it grants nothing, and whoever is granted after it would have been without it. */
  lemma CooldownOnlyDelays(b: Budget, now: real, delay: real, e: Event)
    requires b.rate > 0
    ensures var cooled := Act(b, Cooldown(now, delay));
      cooled.grants == b.grants && cooled.next >= b.next && (Granted(cooled, e) ==> Granted(b, e))
  {
  }

  // ---------- nobody waits longer than that ----------

  /** The instant before which the run's own grants and cooldowns keep everyone waiting. */
  predicate Due(b: Budget, start: real, events: seq<Event>, at: real)
    requires b.rate > 0
  {
    || at == start
    || (exists i :: 0 <= i < |b.grants| && at == b.grants[i].at + Gap(b.rate, b.grants[i].cost))
    || (exists k :: 0 <= k < |events| && events[k].Cooldown? && at == events[k].now + events[k].delay)
  }

  lemma DueLater(b: Budget, c: Budget, start: real, events: seq<Event>, e: Event, at: real)
    requires b.rate == c.rate > 0 && Due(b, start, events, at) && b.grants <= c.grants
    ensures Due(c, start, events + [e], at)
  {
    if k :| 0 <= k < |events| && events[k].Cooldown? && at == events[k].now + events[k].delay {
      assert (events + [e])[k] == events[k];
    }
  }

  /** Whoever is refused is early for the start, for some grant's cost, or for some cooldown, and for nothing else. */
  lemma {:induction false} NextIsDue(rate: nat, start: real, events: seq<Event>)
    requires rate > 0
    ensures var b := Run(Fresh(rate, start), events); Due(b, start, events, b.next)
    decreases |events|
  {
    if events != [] {
      var n := |events| - 1;
      var before, e := Run(Fresh(rate, start), events[..n]), events[n];
      NextIsDue(rate, start, events[..n]);
      assert events == events[..n] + [e];
      var after := Run(Fresh(rate, start), events);
      DueLater(before, after, start, events[..n], e, before.next);
      if Possible(before, e) && Granted(before, e) {
        assert after.grants[|before.grants|] == Grant(e.now, e.cost);
      }
    }
  }

  /** A request is granted as soon as every earlier grant has earned its cost and every cooldown has passed. */
  lemma GrantedWhenDue(rate: nat, start: real, events: seq<Event>, now: real, cost: nat)
    requires rate > 0 && cost >= 1 && Run(Fresh(rate, start), events).clock <= now && start <= now
    requires forall i :: 0 <= i < |Run(Fresh(rate, start), events).grants| ==>
      var g := Run(Fresh(rate, start), events).grants[i]; g.at + Gap(rate, g.cost) <= now
    requires forall k :: 0 <= k < |events| && events[k].Cooldown? ==> events[k].now + events[k].delay <= now
    ensures Act(Run(Fresh(rate, start), events), Pace(now, cost)).grants
      == Run(Fresh(rate, start), events).grants + [Grant(now, cost)]
  {
    NextIsDue(rate, start, events);
  }

  // ---------- the transport ----------

  /** What the node makes of one send, and the instants at which the client looks at its clock. */
  datatype Outcome = Outcome(transient: bool, hint: Option<real>, backoff: real)

  /** What other clones do, and then a reading of the clock. */
  datatype Turn = Turn(others: seq<Event>, reading: real)

  datatype Reply = Answered(outcome: Outcome) | RpcUnavailable | StillWaiting

  /** The slots are grants of one call's own, at its cost and in order. */
  predicate Own(grants: seq<Grant>, slots: seq<nat>, start: nat, cost: nat) {
    && (forall i :: 0 <= i < |slots| ==> start <= slots[i] < |grants| && grants[slots[i]].cost == cost)
    && (forall i, j :: 0 <= i < j < |slots| ==> slots[i] < slots[j])
  }

  lemma OwnStay(before: seq<Grant>, after: seq<Grant>, slots: seq<nat>, start: nat, cost: nat)
    requires before <= after && Own(before, slots, start, cost)
    ensures Own(after, slots, start, cost) && forall i :: 0 <= i < |slots| ==> slots[i] < |before|
  {
  }

  lemma OwnGrow(grants: seq<Grant>, slots: seq<nat>, n: nat, slot: nat, start: nat, cost: nat)
    requires Own(grants, slots, start, cost) && start <= n <= slot < |grants| && grants[slot].cost == cost
    requires forall i :: 0 <= i < |slots| ==> slots[i] < n
    ensures Own(grants, slots + [slot], start, cost)
  {
  }

  class SharedBudget {
    const rate: nat
    var next: real
    var clock: real
    ghost var grants: seq<Grant>

    ghost function View(): Budget
      reads this
    {
      Budget(rate, next, clock, grants)
    }

    ghost predicate Valid()
      reads this
    {
      rate > 0 && Spaced(View())
    }

    constructor (rate: nat, now: real)
      requires rate > 0
      ensures Valid() && View() == Fresh(rate, now)
    {
      this.rate, next, clock, grants := rate, now, now, [];
    }

    /** One turn under the lock. */
    method TryPace(now: real, cost: nat) returns (granted: bool)
      requires Valid() && Possible(View(), Pace(now, cost))
      modifies this
      ensures Valid() && View() == Act(old(View()), Pace(now, cost))
      ensures granted == Granted(old(View()), Pace(now, cost))
    {
      ActKeepsSpaced(View(), Pace(now, cost));
      granted := next <= now;
      if granted {
        next := now + cost as real / rate as real;
        grants := grants + [Grant(now, cost)];
      }
      clock := now;
    }

    method StartCooldown(now: real, delay: real)
      requires Valid() && Possible(View(), Cooldown(now, delay))
      modifies this
      ensures Valid() && View() == Act(old(View()), Cooldown(now, delay))
    {
      ActKeepsSpaced(View(), Cooldown(now, delay));
      if next < now + delay {
        next := now + delay;
      }
      clock := now;
    }

    /** A monotonic clock: whatever is read, it does not go back. */
    function Instant(reading: real): (now: real)
      reads this
      ensures now >= clock && now >= reading
    {
      if reading >= clock then reading else clock
    }

    /** What other clones do meanwhile. */
    method Interleave(events: seq<Event>)
      requires Valid()
      modifies this
      ensures Valid() && View() == Run(old(View()), events)
    {
      for i := 0 to |events|
        invariant Valid() && View() == Run(old(View()), events[..i])
      {
        assert events[..i + 1][..i] == events[..i];
        match events[i] {
          case Pace(now, cost) =>
            if clock <= now && cost >= 1 {
              var _ := TryPace(now, cost);
            }
          case Cooldown(now, delay) =>
            if clock <= now && delay >= 0.0 {
              StartCooldown(now, delay);
            }
        }
      }
      assert events[..|events|] == events;
    }

    /**
      Wait for the budget, while other clones take turns before each reading of
      the clock; `false` when the readings run out first.
     */
    method WaitTurn(turns: seq<Turn>, cost: nat) returns (granted: bool, ghost events: seq<Event>)
      requires Valid() && cost >= 1
      modifies this
      ensures Valid() && View() == Run(old(View()), events) && |grants| >= |old(grants)|
      ensures granted ==> |grants| > |old(grants)| && grants[|grants| - 1] == Grant(clock, cost) && clock >= old(next)
    {
      events := [];
      ghost var begin := View();
      for i := 0 to |turns|
        invariant Valid() && View() == Run(begin, events)
        invariant |grants| >= |begin.grants| && next >= begin.next
      {
        ghost var before := View();
        Interleave(turns[i].others);
        RunKeepsSpaced(before, turns[i].others);
        GrantsExtend(before, turns[i].others);
        RunConcat(begin, events, turns[i].others);
        events := events + turns[i].others;
        var now := Instant(turns[i].reading);
        RunSnoc(begin, events, Pace(now, cost));
        events := events + [Pace(now, cost)];
        granted := TryPace(now, cost);
        if granted {
          return;
        }
      }
      granted := false;
    }

    /**
      One turn of the retry loop: the wait, the send, what other clones do while
      it is in flight, and the cooldown it may ask for.
     */
    method Attempt(cost: nat, outcome: Outcome, turns: seq<Turn>, inFlight: Turn)
      returns (granted: bool, ghost slot: nat, ghost events: seq<Event>)
      requires Valid() && cost >= 1 && outcome.backoff >= 0.0 && outcome.hint.GetOr(0.0) >= 0.0
      modifies this
      ensures Valid() && View() == Run(old(View()), events) && old(grants) <= grants
      ensures granted ==> |old(grants)| <= slot < |grants| && grants[slot].cost == cost && grants[slot].at >= old(next)
      ensures granted && outcome.transient ==> next >= clock + outcome.hint.GetOr(outcome.backoff)
    {
      ghost var begin := View();
      granted, events := WaitTurn(turns, cost);
      GrantsExtend(begin, events);
      slot := 0;
      if granted {
        slot := |grants| - 1;
        ghost var sent := View();
        Interleave(inFlight.others);
        GrantsExtend(sent, inFlight.others);
        RunConcat(begin, events, inFlight.others);
        events := events + inFlight.others;
        if outcome.transient {
          var now, delay := Instant(inFlight.reading), outcome.hint.GetOr(outcome.backoff);
          RunSnoc(begin, events, Cooldown(now, delay));
          events := events + [Cooldown(now, delay)];
          StartCooldown(now, delay);
        }
      }
    }

    /**
      Send a packet, retrying transient failures of reads only, while other
      clones do as they like, also between two readings of one wait and while a
      request is in flight.  The whole call is a run of the shared budget, so
      the rate holds through it, and each send has a grant of its own.
     */
    method Execute(cost: nat, readOnly: bool, maxRetries: nat, outcomes: nat -> Outcome,
                   turns: nat -> seq<Turn>, inFlight: nat -> Turn)
      returns (reply: Reply, sent: nat, ghost slots: seq<nat>, ghost events: seq<Event>)
      requires Valid() && cost >= 1
      requires forall i :: outcomes(i).backoff >= 0.0 && outcomes(i).hint.GetOr(0.0) >= 0.0
      modifies this
      ensures Valid() && View() == Run(old(View()), events)
      ensures sent <= maxRetries + 1 && (!readOnly ==> sent <= 1)
      ensures |slots| == sent && Own(grants, slots, |old(grants)|, cost)
      ensures forall i :: 0 <= i < sent - 1 ==> outcomes(i).transient
      ensures reply.Answered? ==>
        sent > 0 && reply.outcome == outcomes(sent - 1) && (readOnly ==> !outcomes(sent - 1).transient)
      ensures reply.RpcUnavailable? <==> (readOnly && sent == maxRetries + 1 && outcomes(maxRetries).transient)
      ensures reply.StillWaiting? ==> sent <= maxRetries && (sent > 0 ==> readOnly && outcomes(sent - 1).transient)
    {
      ghost var begin := View();
      sent, slots, events := 0, [], [];
      while true
        invariant Valid() && sent <= maxRetries && View() == Run(begin, events)
        invariant |slots| == sent && Own(grants, slots, |begin.grants|, cost) && |begin.grants| <= |grants|
        invariant sent > 0 ==> readOnly
        invariant forall i :: 0 <= i < sent ==> outcomes(i).transient
        decreases maxRetries - sent
      {
        ghost var before := View();
        ghost var slot, did;
        var outcome := outcomes(sent);
        var granted;
        granted, slot, did := Attempt(cost, outcome, turns(sent), inFlight(sent));
        RunConcat(begin, events, did);
        events := events + did;
        OwnStay(before.grants, grants, slots, |begin.grants|, cost);
        if !granted {
          return StillWaiting, sent, slots, events;
        }
        OwnGrow(grants, slots, |before.grants|, slot, |begin.grants|, cost);
        slots := slots + [slot];
        sent := sent + 1;
        if !outcome.transient || !readOnly {
          return Answered(outcome), sent, slots, events;
        }
        if sent == maxRetries + 1 {
          return RpcUnavailable, sent, slots, events;
        }
      }
    }
  }

  lemma RunSnoc(b: Budget, events: seq<Event>, e: Event)
    requires b.rate > 0
    ensures Run(b, events + [e]) == if Possible(Run(b, events), e) then Act(Run(b, events), e) else Run(b, events)
  {
    assert (events + [e])[..|events|] == events;
  }

  lemma {:induction false} RunConcat(b: Budget, first: seq<Event>, second: seq<Event>)
    requires b.rate > 0
    ensures Run(b, first + second) == Run(Run(b, first), second)
    decreases |second|
  {
    if second == [] {
      assert first + second == first;
    } else {
      var n := |second| - 1;
      RunConcat(b, first, second[..n]);
      assert (first + second)[..|first + second| - 1] == first + second[..n];
    }
  }
}
