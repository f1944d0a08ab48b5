/**
 The hourly budget.  A planning user may overshoot an hour's budget by less
 than one reply, and over a whole run spends no more than the plans in force
 allow for the hours begun.
 */
module StageBudget {
  import opened Wire
  import opened UserModel
  import opened ServerRuns

  /** The event of a planning user whose replies hold at most `cap` transfers. */
  ghost predicate Planned(e: Event, cap: nat) {
    !e.Decide? && (e.Request? ==> Units(e.reply) <= cap)
  }

  ghost predicate AllPlanned(evs: seq<Event>, cap: nat) { forall i | 0 <= i < |evs| :: Planned(evs[i], cap) }

  // --------------------------------------------------------------- one hour

  ghost predicate WithinHour(u: User, cap: nat) {
    u.stageMoney == 0 || 0.0 <= u.stageMoney as real < u.stageTotal + cap as real
  }

  lemma StepWithinHour(u: User, e: Event, cap: nat)
    requires WithinHour(u, cap) && Planned(e, cap)
    ensures WithinHour(Step(u, e), cap)
  {
  }

  /** In every reachable state the hour's money is zero or less than one reply over the hour's budget. */
  lemma {:induction false} HourNeverOver(plan: seq<real>, evs: seq<Event>, cap: nat)
    requires AllPlanned(evs, cap)
    ensures WithinHour(Run(Fresh(plan), evs), cap)
  {
    if evs == [] {
    } else {
      HourNeverOver(plan, evs[..|evs| - 1], cap);
      StepWithinHour(Run(Fresh(plan), evs[..|evs| - 1]), evs[|evs| - 1], cap);
    }
  }

  // -------------------------------------------------------------- whole runs

  /** Most an hour with this budget can spend; a budget that is not positive admits nothing. */
  function HourCap(budget: real, cap: nat): real { if budget <= 0.0 then 0.0 else budget + cap as real }

  /** Most the first `k` hours of a plan can spend; the plan repeats when it runs out. */
  function PlanCap(plan: seq<real>, k: nat, cap: nat): real {
    if k == 0 || plan == [] then 0.0
    else PlanCap(plan, k - 1, cap) + HourCap(plan[(k - 1) % |plan|], cap)
  }

  /** Minutes since the plan in force was made. */
  function Age(u: User): int { u.timePast - u.timeRecord }

  function HoursBegun(age: nat): nat { (age + HOUR - 1) / HOUR }

  /** Units charged in a run. */
  function Spent(u: User, evs: seq<Event>): nat {
    if evs == [] then 0
    else
      var evs0 := evs[..|evs| - 1];
      Spent(u, evs0) + SpentBy(Run(u, evs0), evs[|evs| - 1])
  }

  function SpentBy(u: User, e: Event): nat {
    match Reached(u, e) case None => 0 case Some(reply) => Units(reply)
  }

  /** Allowance of the plans that a run has already replaced. */
  function Retired(u: User, evs: seq<Event>, cap: nat): real {
    if evs == [] then 0.0
    else
      var evs0 := evs[..|evs| - 1];
      Retired(u, evs0, cap) + RetiredBy(Run(u, evs0), evs[|evs| - 1], cap)
  }

  function RetiredBy(u: User, e: Event, cap: nat): real {
    if e.Replan? && Age(u) >= 0 then PlanCap(u.plan, HoursBegun(Age(u)), cap) else 0.0
  }

  /** The hour that `age` falls into is open, and its spending is on `stageMoney`. */
  ghost predicate HourOpen(u: User, age: nat, room: real, cap: nat) {
    && u.plan != []
    && u.stageTotal == u.plan[(age / HOUR) % |u.plan|]
    && 0.0 <= u.stageMoney as real <= HourCap(u.stageTotal, cap)
    && room <= PlanCap(u.plan, age / HOUR, cap) + u.stageMoney as real
  }

  /** `room` is what has been spent beyond the retired plans' allowance. */
  ghost predicate Within(u: User, room: real, cap: nat) {
    && Age(u) >= 0 && Age(u) % STEP == 0
    && (if Age(u) % HOUR == 0 then room <= PlanCap(u.plan, Age(u) / HOUR, cap)
        else HourOpen(u, Age(u), room, cap))
  }

  lemma Tens(n: nat)
    requires n % 10 == 0
    ensures (n + 10) % 10 == 0
    ensures (n + 10) % 60 == 0 ==> (n + 10) / 60 == n / 60 + 1
    ensures (n + 10) % 60 != 0 ==> (n + 10) / 60 == n / 60
  {
    var q, r := n / 60, n % 60;
    assert n + 10 == 60 * q + (r + 10);
  }

  lemma NextTick(age: nat)
    requires age % STEP == 0
    ensures (age + STEP) % STEP == 0
    ensures (age + STEP) % HOUR == 0 ==> (age + STEP) / HOUR == age / HOUR + 1
    ensures (age + STEP) % HOUR != 0 ==> (age + STEP) / HOUR == age / HOUR
  {
    Tens(age);
  }

  /** Closing the books on a tick. */
  lemma TickWithin(u: User, age: nat, room: real, cap: nat)
    requires age % STEP == 0 && HourOpen(u, age, room, cap) && Age(u) == age + STEP
    ensures Within(u, room, cap)
  {
    NextTick(age);
  }

  lemma OpenedWithin(u: User, room: real, cap: nat)
    requires Within(u, room, cap) && !Stuck(u)
    ensures HourOpen(Opened(u), Age(u), room, cap)
  {
  }

  lemma RequestWithin(u: User, reply: Reply, room: real, cap: nat)
    requires Within(u, room, cap) && Units(reply) <= cap
    ensures Within(Requested(u, reply), room + (if Consults(u) then Units(reply) else 0) as real, cap)
  {
    if !Stuck(u) {
      var v := Opened(u);
      OpenedWithin(u, room, cap);
      if Closed(v) {
        TickWithin(Advance(v), Age(u), room, cap);
      } else if !Silent(reply) {
        ChargeWithin(v, reply, Age(u), room, cap);
        TickWithin(Handled(v, reply), Age(u), room + Units(reply) as real, cap);
      }
    }
  }

  lemma ChargeWithin(v: User, reply: Reply, age: nat, room: real, cap: nat)
    requires HourOpen(v, age, room, cap) && !Closed(v) && !Silent(reply) && Units(reply) <= cap
    ensures HourOpen(Handled(v, reply), age, room + Units(reply) as real, cap)
  {
  }

  /** What has been spent fits the hours begun. */
  lemma WithinCap(u: User, room: real, cap: nat)
    requires Within(u, room, cap)
    ensures room <= PlanCap(u.plan, HoursBegun(Age(u)), cap)
  {
    var age := Age(u);
    if age % HOUR == 0 {
      assert HoursBegun(age) == age / HOUR;
    } else {
      assert HoursBegun(age) == age / HOUR + 1;
    }
  }

  lemma StepWithin(u: User, e: Event, room: real, cap: nat)
    requires Within(u, room, cap) && Planned(e, cap) && !e.Reset?
    ensures Within(Step(u, e), room + SpentBy(u, e) as real - RetiredBy(u, e, cap), cap)
  {
    match e
    case Request(reply) => RequestWithin(u, reply, room, cap);
    case Report(_, _, _) =>
    case Replan(_) => WithinCap(u, room, cap);
  }

  lemma {:induction false} RunWithin(plan: seq<real>, evs: seq<Event>, cap: nat)
    requires AllPlanned(evs, cap) && forall i | 0 <= i < |evs| :: !evs[i].Reset?
    ensures var u := Fresh(plan);
            Within(Run(u, evs), Spent(u, evs) as real - Retired(u, evs, cap), cap)
  {
    if evs == [] {
    } else {
      var u, evs0, e := Fresh(plan), evs[..|evs| - 1], evs[|evs| - 1];
      RunWithin(plan, evs0, cap);
      StepWithin(Run(u, evs0), e, Spent(u, evs0) as real - Retired(u, evs0, cap), cap);
    }
  }

  /**
   Over every reset-free run of requests, reports and replans, the units
   spent are at most, plan by plan, the budgets of the hours begun under it
   plus one reply each.
   */
  lemma {:induction false} BudgetHolds(plan: seq<real>, evs: seq<Event>, cap: nat)
    requires AllPlanned(evs, cap) && forall i | 0 <= i < |evs| :: !evs[i].Reset?
    ensures var u, v := Fresh(plan), Run(Fresh(plan), evs);
            && Age(v) >= 0
            && Spent(u, evs) as real <= Retired(u, evs, cap) + PlanCap(v.plan, HoursBegun(Age(v)), cap)
  {
    RunWithin(plan, evs, cap);
    WithinCap(Run(Fresh(plan), evs), Spent(Fresh(plan), evs) as real - Retired(Fresh(plan), evs, cap), cap);
  }

  /** Without lists of non-numbers, what a reset-free run spends is what its ledger holds. */
  lemma {:induction false} SpentIsSent(plan: seq<real>, evs: seq<Event>)
    requires forall i | 0 <= i < |evs| :: !evs[i].Reset?
    ensures var u := Fresh(plan); Spent(u, evs) == Sends(Run(u, evs).ledger) + Unrecorded(u, evs)
  {
    if evs == [] {
    } else {
      var evs0, e := evs[..|evs| - 1], evs[|evs| - 1];
      SpentIsSent(plan, evs0);
      StepSent(Run(Fresh(plan), evs0), e);
    }
  }

  lemma StepSent(u: User, e: Event)
    requires !e.Reset?
    ensures Sends(Step(u, e).ledger) + OpaqueUnits(Reached(u, e)) == Sends(u.ledger) + SpentBy(u, e)
  {
    match e
    case Request(reply) =>
      if Consults(u) { HandledSent(Opened(u), reply); }
    case Decide(counts) => HandledSent(u, DecisionReply(counts));
    case Report(g, r, c) => MarkCounts(u.ledger, HitIndex(u.ledger, g, r, c));
    case Replan(_) =>
  }

  lemma HandledSent(u: User, reply: Reply)
    ensures Sends(Handled(u, reply).ledger) + OpaqueUnits(Some(reply)) == Sends(u.ledger) + Units(reply)
  {
    HandledSends(u, reply);
    RunsTotal(reply);
  }
}
