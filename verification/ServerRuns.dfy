/**
 What stays true of a user on the server over every run of requests, rule
 decisions, failure reports, resets and replans, in any order.
 */
module ServerRuns {
  import opened Ledger
  import opened RunLength
  import opened Wire
  import opened UserModel

  datatype Event =
    | Request(reply: Reply)
    | Decide(counts: seq<nat>)
    | Report(group: int, rank: int, count: int)   // count: what earlier users of the same id left over
    | Reset
    | Replan(plan: seq<real>)

  function Step(u: User, e: Event): User {
    match e
    case Request(reply) => Requested(u, reply)
    case Decide(counts) => Decided(u, counts)
    case Report(group, rank, count) => Reported(u, group, rank, count)
    case Reset => WasReset(u)
    case Replan(plan) => Replanned(u, plan)
  }

  function Run(u: User, evs: seq<Event>): User {
    if evs == [] then u else Step(Run(u, evs[..|evs| - 1]), evs[|evs| - 1])
  }

  /** The reply an event hands to `handle_result` in state `u`, if it gets that far. */
  function Reached(u: User, e: Event): Option<Reply> {
    match e
    case Request(reply) => if Consults(u) then Some(reply) else None
    case Decide(counts) => Some(DecisionReply(counts))
    case _ => None
  }

  /** The clock moves. */
  predicate Advances(u: User, e: Event) {
    match e
    case Request(reply) => !Stuck(u) && (Closed(Opened(u)) || !Silent(reply))
    case Decide(_) => true
    case _ => false
  }

  // ------------------------------------------------------------ conservation

  lemma {:induction false} SendsConcat(a: seq<Record>, b: seq<Record>)
    ensures Sends(a + b) == Sends(a) + Sends(b) && Fails(a + b) == Fails(a) + Fails(b)
  {
    if b == [] {
      assert a + b == a;
    } else {
      assert (a + b)[..|a + b| - 1] == a + b[..|b| - 1];
      SendsConcat(a, b[..|b| - 1]);
    }
  }

  lemma {:induction false} StampSends(runs: seq<Entry>, clock: int)
    ensures Sends(Stamp(runs, clock)) == Sends(StampHour(runs, clock)) == Total(runs)
    ensures Fails(Stamp(runs, clock)) == 0
  {
    if runs == [] {
    } else {
      var n := |runs| - 1;
      StampSends(runs[..n], clock);
      assert Stamp(runs, clock)[..n] == Stamp(runs[..n], clock);
      assert StampHour(runs, clock)[..n] == StampHour(runs[..n], clock);
    }
  }

  lemma {:induction false} MarkCounts(l: seq<Record>, k: nat)
    ensures Sends(MarkFailed(l, k)) == Sends(l)
    ensures Fails(MarkFailed(l, k)) == Fails(l) + (if k < |l| then 1 else 0)
  {
    if k < |l| {
      var n := |l| - 1;
      var m := MarkFailed(l, k);
      if k < n {
        assert m[..n] == MarkFailed(l[..n], k);
        MarkCounts(l[..n], k);
      } else {
        assert m[..n] == l[..n];
      }
    }
  }

  /** Money minus what the ledger accounts for. */
  function Excess(u: User): int { u.money - Sends(u.ledger) + Fails(u.ledger) }

  lemma AppendSends(u: User, runs: seq<Entry>)
    ensures Sends(Append(u, runs).ledger) == Sends(u.ledger) + Total(runs)
    ensures Fails(Append(u, runs).ledger) == Fails(u.ledger)
    ensures Sends(Append(u, runs).stage) == Sends(u.stage) + Total(runs)
  {
    StampSends(runs, u.timePast);
    SendsConcat(u.ledger, Stamp(runs, u.timePast));
    SendsConcat(u.stage, StampHour(runs, u.timePast));
  }

  lemma HandledSends(u: User, reply: Reply)
    ensures Sends(Handled(u, reply).ledger) == Sends(u.ledger) + Total(Runs(reply))
    ensures Fails(Handled(u, reply).ledger) == Fails(u.ledger)
    ensures Sends(Handled(u, reply).stage) == Sends(u.stage) + Total(Runs(reply))
  {
    AppendSends(Charge(Advance(u), Units(reply)), Runs(reply));
  }

  /** A list of integers is recorded in full; nothing else is recorded at all. */
  lemma RunsTotal(reply: Reply)
    ensures Total(Runs(reply)) == if reply.Ints? then Units(reply) else 0
  {
    if reply.Ints? { EncodeTotal(SortInts(reply.entries)); }
  }

  lemma HandledExcess(u: User, reply: Reply)
    ensures Excess(Handled(u, reply)) == Excess(u) + (if reply.Opaque? then reply.size else 0)
  {
    HandledSends(u, reply);
    RunsTotal(reply);
  }

  lemma HandledStage(u: User, reply: Reply)
    ensures var v := Handled(u, reply);
            v.stageMoney - Sends(v.stage) == u.stageMoney - Sends(u.stage) + (if reply.Opaque? then reply.size else 0)
  {
    HandledSends(u, reply);
    RunsTotal(reply);
  }

  /**
   What a reply records is determined by the reply alone: the one list of
   non-empty runs with distinct neighbours that spells an ascending
   rearrangement of it.
   */
  lemma RunsUnique(entries: seq<int>, runs: seq<Entry>)
    ensures runs == Runs(Ints(entries)) <==>
            Canonical(runs) && Ascending(Expand(runs)) && multiset(Expand(runs)) == multiset(entries)
  {
    var p := SortInts(entries);
    SortIntsSorts(entries);
    EncodeExact(p);
    if Canonical(runs) && Ascending(Expand(runs)) && multiset(Expand(runs)) == multiset(entries) {
      AscendingUnique(Expand(runs), p);
      EncodingUnique(runs, Encode(p));
    }
  }

  /** Failure reports since the last reset that found no record. */
  function Unmatched(u: User, evs: seq<Event>): nat {
    if evs == [] then 0
    else
      var evs0, e := evs[..|evs| - 1], evs[|evs| - 1];
      match e
      case Reset => 0
      case Report(g, r, c) => Unmatched(u, evs0) + (if Reaches(Run(u, evs0).ledger, g, r, c) then 0 else 1)
      case _ => Unmatched(u, evs0)
  }

  /** Units charged since the last reset for lists that could not be recorded. */
  function Unrecorded(u: User, evs: seq<Event>): nat {
    if evs == [] then 0
    else
      var evs0, e := evs[..|evs| - 1], evs[|evs| - 1];
      if e.Reset? then 0
      else Unrecorded(u, evs0) + OpaqueUnits(Reached(Run(u, evs0), e))
  }

  function OpaqueUnits(r: Option<Reply>): nat {
    match r
    case Some(Opaque(n)) => n
    case _ => 0
  }

  lemma StepExcess(u: User, e: Event)
    ensures Excess(Step(u, e)) ==
            match e
            case Reset => 0
            case Report(g, r, c) => Excess(u) - (if Reaches(u.ledger, g, r, c) then 0 else 1)
            case _ => Excess(u) + OpaqueUnits(Reached(u, e))
  {
    match e
    case Request(reply) =>
      if Consults(u) { HandledExcess(Opened(u), reply); }
    case Decide(counts) =>
      HandledExcess(u, DecisionReply(counts));
    case Report(g, r, c) =>
      MarkCounts(u.ledger, HitIndex(u.ledger, g, r, c));
    case Reset =>
    case Replan(_) =>
  }

  /**
   Conservation: after any run, the money counter is what the ledger sent,
   less what it marked failed, less the reports that found nothing to mark,
   plus what was charged for lists that never reached the ledger.
   */
  lemma {:induction false} Conservation(plan: seq<real>, evs: seq<Event>)
    ensures var u := Run(Fresh(plan), evs);
            u.money == Sends(u.ledger) - Fails(u.ledger) - Unmatched(Fresh(plan), evs) + Unrecorded(Fresh(plan), evs)
  {
    if evs == [] {
    } else {
      var evs0 := evs[..|evs| - 1];
      Conservation(plan, evs0);
      StepExcess(Run(Fresh(plan), evs0), evs[|evs| - 1]);
    }
  }

  // ------------------------------------------------ two ledgers, one history

  ghost predicate SuffixOf<T>(a: seq<T>, b: seq<T>) {
    |a| <= |b| && a == b[|b| - |a|..]
  }

  /** Of the hour's list and the whole ledger, one is the tail of the other. */
  ghost predicate SharedTail(u: User) {
    SuffixOf(Entries(u.stage), HourEntries(u.ledger)) || SuffixOf(HourEntries(u.ledger), Entries(u.stage))
  }

  lemma SuffixConcat<T>(a: seq<T>, b: seq<T>, c: seq<T>)
    requires SuffixOf(a, b)
    ensures SuffixOf(a + c, b + c)
  {
  }

  lemma HandledTail(u: User, reply: Reply)
    requires SharedTail(u)
    ensures SharedTail(Handled(u, reply))
  {
    if !Silent(reply) {
      var clock, v := u.timePast + STEP, Handled(u, reply);
      var more := Entries(StampHour(Runs(reply), clock));
      var s, w := Entries(u.stage), HourEntries(u.ledger);
      assert Entries(v.stage) == s + more;
      assert HourEntries(v.ledger) == w + more;
      if SuffixOf(s, w) { SuffixConcat(s, w, more); } else { SuffixConcat(w, s, more); }
    }
  }

  lemma StepTail(u: User, e: Event)
    requires SharedTail(u)
    ensures SharedTail(Step(u, e))
  {
    match e
    case Request(reply) =>
      if Consults(u) { HandledTail(Opened(u), reply); }
    case Decide(counts) =>
      HandledTail(u, DecisionReply(counts));
    case Report(g, r, c) =>
      assert HourEntries(Step(u, e).ledger) == HourEntries(u.ledger);
    case Reset =>
    case Replan(_) =>
  }

  /** In every reachable state, resets and replans included, one list is the tail of the other. */
  lemma {:induction false} SharedTailAlways(plan: seq<real>, evs: seq<Event>)
    ensures SharedTail(Run(Fresh(plan), evs))
  {
    if evs == [] {
    } else {
      SharedTailAlways(plan, evs[..|evs| - 1]);
      StepTail(Run(Fresh(plan), evs[..|evs| - 1]), evs[|evs| - 1]);
    }
  }

  /** The hour's counter is the total of the hour's list. */
  ghost predicate StageExact(u: User) { u.stageMoney == Sends(u.stage) }

  /**
   The two ways the hour's counter and list part: an empty plan clears the
   counter and then raises before the list is cleared, and a list of
   non-numbers is charged before it raises.
   */
  ghost predicate Breaks(u: User, e: Event) {
    && e.Request?
    && ((Stuck(u) && u.stageMoney != 0) || (Consults(u) && e.reply.Opaque? && e.reply.size > 0))
  }

  lemma StepStageExact(u: User, e: Event)
    requires StageExact(u)
    ensures StageExact(Step(u, e)) <==> !Breaks(u, e)
  {
    match e
    case Request(reply) =>
      if Consults(u) { HandledStage(Opened(u), reply); }
    case Decide(counts) =>
      HandledStage(u, DecisionReply(counts));
    case _ =>
  }

  ghost predicate NoBreak(u: User, evs: seq<Event>) {
    forall k | 0 <= k < |evs| :: !Breaks(Run(u, evs[..k]), evs[k])
  }

  lemma ExactAt(u: User, evs: seq<Event>, k: nat)
    requires k < |evs| && StageExact(Run(u, evs[..k]))
    ensures StageExact(Run(u, evs[..k + 1])) <==> !Breaks(Run(u, evs[..k]), evs[k])
  {
    assert evs[..k + 1][..k] == evs[..k];
    StepStageExact(Run(u, evs[..k]), evs[k]);
  }

  /** Something true at first stays true throughout exactly if nothing breaks it. */
  lemma {:induction false} Chain(ok: seq<bool>, br: seq<bool>)
    requires |ok| == |br| + 1 && ok[0]
    requires forall k | 0 <= k < |br| :: ok[k] ==> (ok[k + 1] <==> !br[k])
    ensures (forall k | 0 <= k < |ok| :: ok[k]) <==> (forall k | 0 <= k < |br| :: !br[k])
  {
    if br == [] {
    } else {
      var n := |br| - 1;
      Chain(ok[..n + 1], br[..n]);
      assert ok == ok[..n + 1] + [ok[n + 1]] && br == br[..n] + [br[n]];
    }
  }

  /** Counter and list agree throughout a run exactly if none of its steps meets the breaking guard. */
  lemma {:induction false} StageExactIff(plan: seq<real>, evs: seq<Event>)
    ensures (forall k | 0 <= k <= |evs| :: StageExact(Run(Fresh(plan), evs[..k]))) <==> NoBreak(Fresh(plan), evs)
  {
    var u, n := Fresh(plan), |evs|;
    ghost var ok := seq(n + 1, k requires 0 <= k <= n => StageExact(Run(u, evs[..k])));
    ghost var br := seq(n, k requires 0 <= k < n => Breaks(Run(u, evs[..k]), evs[k]));
    assert ok[0] by { assert evs[..0] == []; }
    forall k | 0 <= k < n ensures ok[k] ==> (ok[k + 1] <==> !br[k]) {
      if ok[k] { ExactAt(u, evs, k); }
    }
    Chain(ok, br);
    assert forall k | 0 <= k <= n :: ok[k] == StageExact(Run(u, evs[..k]));
    assert forall k | 0 <= k < n :: br[k] == Breaks(Run(u, evs[..k]), evs[k]);
  }

  lemma RunThree(u: User, a: Event, b: Event, c: Event)
    ensures Run(u, [a, b, c]) == Step(Step(Step(u, a), b), c)
  {
    assert [a, b, c][..2] == [a, b] && [a, b][..1] == [a] && [a][..0] == [];
    assert Run(u, [a]) == Step(u, a);
    assert Run(u, [a, b]) == Step(Step(u, a), b);
  }

  lemma OneTransfer(u: User)
    requires Consults(u) && Sends(Opened(u).stage) == 0
    ensures Sends(Step(u, Request(Ints([1]))).stage) == 1
  {
    HandledSends(Opened(u), Ints([1]));
    RunsTotal(Ints([1]));
  }

  lemma EmptyPlan(u: User, reply: Reply)
    ensures var v := Step(Step(u, Replan([])), Request(reply)); v.stageMoney == 0 && v.stage == u.stage
  {
  }

  /** They do part: one transfer is on the books of the hour when an empty plan arrives. */
  lemma StageExactFails()
    ensures var u := Run(Fresh([5.0]), [Request(Ints([1])), Replan([]), Request(Short)]);
            u.stageMoney == 0 && Sends(u.stage) == 1
  {
    OneTransfer(Fresh([5.0]));
    RunThree(Fresh([5.0]), Request(Ints([1])), Replan([]), Request(Short));
    EmptyPlan(Step(Fresh([5.0]), Request(Ints([1]))), Short);
  }

  // ------------------------------------------------------------------ clocks

  /** Minutes lie in 1..10, as the prompt demands and rule-driven users guarantee. */
  ghost predicate InRange(e: Event) {
    match e
    case Request(Ints(es)) => forall i | 0 <= i < |es| :: 1 <= es[i] <= STEP
    case Decide(counts) => |counts| <= STEP
    case _ => true
  }

  ghost predicate Ranged(evs: seq<Event>) { forall i | 0 <= i < |evs| :: InRange(evs[i]) }

  ghost predicate ReplyInRange(r: Reply) {
    r.Ints? ==> forall i | 0 <= i < |r.entries| :: 1 <= r.entries[i] <= STEP
  }

  /** Clocks tick in tens; the ledger increases strictly and stays within ten minutes of the clock. */
  ghost predicate Tidy(u: User) {
    && u.timePast >= 0 && u.timePast % STEP == 0 && u.timeRecord % STEP == 0
    && Increasing(Entries(u.ledger))
    && forall i | 0 <= i < |u.ledger| :: u.ledger[i].time <= u.timePast + STEP
  }

  lemma SortedInRange(es: seq<int>)
    requires forall i | 0 <= i < |es| :: 1 <= es[i] <= STEP
    ensures Ascending(SortInts(es)) && forall i | 0 <= i < |SortInts(es)| :: 1 <= SortInts(es)[i] <= STEP
  {
    var p := SortInts(es);
    SortIntsSorts(es);
    forall i | 0 <= i < |p| ensures 1 <= p[i] <= STEP { assert p[i] in multiset(es); }
  }

  lemma RunsInRange(r: Reply)
    requires ReplyInRange(r)
    ensures Increasing(Runs(r)) && forall i | 0 <= i < |Runs(r)| :: 1 <= Runs(r)[i].time <= STEP
  {
    if r.Ints? {
      SortedInRange(r.entries);
      EncodeIncreasing(SortInts(r.entries), 1, STEP);
    }
  }

  lemma HandledTidy(u: User, reply: Reply)
    requires Tidy(u) && ReplyInRange(reply)
    ensures Tidy(Handled(u, reply))
  {
    RunsInRange(reply);
    var v, runs := Handled(u, reply), Runs(reply);
    if !Silent(reply) {
      assert forall i | 0 <= i < |v.ledger| ::
          v.ledger[i] == if i < |u.ledger| then u.ledger[i]
                         else Record(v.timePast + runs[i - |u.ledger|].time, runs[i - |u.ledger|].count, 0);
      var t, t0 := Entries(v.ledger), Entries(u.ledger);
      forall i, j | 0 <= i < j < |t| ensures t[i].time < t[j].time {
        if j < |u.ledger| { assert t0[i].time < t0[j].time; }
      }
    }
  }

  lemma DecisionInRange(counts: seq<nat>)
    requires |counts| <= STEP
    ensures ReplyInRange(DecisionReply(counts))
  {
    MinutesAscend(counts);
  }

  lemma StepTidy(u: User, e: Event)
    requires Tidy(u) && InRange(e)
    ensures Tidy(Step(u, e))
  {
    match e
    case Request(reply) =>
      if Consults(u) { HandledTidy(Opened(u), reply); }
    case Decide(counts) =>
      DecisionInRange(counts);
      HandledTidy(u, DecisionReply(counts));
    case Report(g, r, c) =>
      assert Entries(Step(u, e).ledger) == Entries(u.ledger);
    case Reset =>
    case Replan(_) =>
  }

  /** With minutes in 1..10 every reachable ledger is strictly increasing and both clocks tick in tens. */
  lemma {:induction false} TidyAlways(plan: seq<real>, evs: seq<Event>)
    requires Ranged(evs)
    ensures Tidy(Run(Fresh(plan), evs))
  {
    if evs == [] {
    } else {
      TidyAlways(plan, evs[..|evs| - 1]);
      StepTidy(Run(Fresh(plan), evs[..|evs| - 1]), evs[|evs| - 1]);
    }
  }

  /** Ticks in a run. */
  function Ticks(u: User, evs: seq<Event>): nat {
    if evs == [] then 0
    else
      var evs0 := evs[..|evs| - 1];
      Ticks(u, evs0) + (if Advances(Run(u, evs0), evs[|evs| - 1]) then 1 else 0)
  }

  lemma StepClock(u: User, e: Event)
    requires !e.Reset? && !e.Replan?
    ensures Step(u, e).timePast == u.timePast + (if Advances(u, e) then STEP else 0)
    ensures Step(u, e).timeRecord == u.timeRecord
  {
  }

  lemma {:induction false} TicksMeasure(u: User, evs: seq<Event>)
    requires forall i | 0 <= i < |evs| :: !evs[i].Reset? && !evs[i].Replan?
    ensures Run(u, evs).timePast == u.timePast + STEP * Ticks(u, evs)
    ensures Run(u, evs).timeRecord == u.timeRecord
  {
    if evs == [] {
    } else {
      var evs0 := evs[..|evs| - 1];
      TicksMeasure(u, evs0);
      StepClock(Run(u, evs0), evs[|evs| - 1]);
    }
  }

  /** After a replan, and until the next reset or replan, an hour starts exactly on every sixth tick. */
  lemma {:induction false} SixthTick(u: User, plan: seq<real>, evs: seq<Event>)
    requires forall i | 0 <= i < |evs| :: !evs[i].Reset? && !evs[i].Replan?
    ensures Boundary(Run(Replanned(u, plan), evs)) <==> Ticks(Replanned(u, plan), evs) % 6 == 0
  {
    TicksMeasure(Replanned(u, plan), evs);
    SixTens(Ticks(Replanned(u, plan), evs));
  }

  lemma SixTens(n: nat)
    ensures (STEP * n) % HOUR == 0 <==> n % 6 == 0
  {
  }

  lemma TensInHours(n: nat)
    ensures (STEP * n) / HOUR == n / 6
  {
  }

  /** The clock and the plan as `plan_overall` leaves them; a new user starts like that, too. */
  ghost predicate JustPlanned(v: User, plan: seq<real>) { v.timeRecord == v.timePast && v.plan == plan && plan != [] }

  lemma PlannedNow(u: User, plan: seq<real>)
    requires plan != []
    ensures JustPlanned(Replanned(u, plan), plan) && JustPlanned(Fresh(plan), plan)
    ensures Opened(Replanned(u, plan)).stageTotal == plan[0] == Opened(Fresh(plan)).stageTotal
  {
  }

  lemma {:induction false} PlanStays(v: User, evs: seq<Event>)
    requires forall i | 0 <= i < |evs| :: !evs[i].Reset? && !evs[i].Replan?
    ensures Run(v, evs).plan == v.plan
  {
    if evs == [] {
    } else {
      PlanStays(v, evs[..|evs| - 1]);
    }
  }

  lemma HourAt(u: User, plan: seq<real>, n: nat)
    requires u.plan == plan != [] && u.timePast == u.timeRecord + STEP * n
    ensures Boundary(u) <==> n % 6 == 0
    ensures n % 6 == 0 ==> Opened(u).stageTotal == plan[(n / 6) % |plan|]
  {
    assert u.timePast - u.timeRecord == STEP * n;
    SixTens(n);
    TensInHours(n);
  }

  /** Until the next reset or replan, the hour that is opened after so many ticks is the plan's, in turn. */
  lemma HourBudget(v: User, plan: seq<real>, evs: seq<Event>)
    requires JustPlanned(v, plan) && forall i | 0 <= i < |evs| :: !evs[i].Reset? && !evs[i].Replan?
    ensures var u, n := Run(v, evs), Ticks(v, evs);
            && u.plan == plan && (Boundary(u) <==> n % 6 == 0)
            && (n % 6 == 0 ==> Opened(u).stageTotal == plan[(n / 6) % |plan|])
  {
    TicksMeasure(v, evs);
    PlanStays(v, evs);
    HourAt(Run(v, evs), plan, Ticks(v, evs));
  }

  ghost predicate OnlyAsked(evs: seq<Event>) { forall i | 0 <= i < |evs| :: evs[i].Request? || evs[i].Report? }

  lemma SameHourTick(n: nat, tick: bool)
    ensures var n' := if tick then n + 1 else n; n' % 6 != 0 ==> n' / 6 == n / 6
  {
  }

  /** In the middle of an hour of a planning user its budget is in force. */
  lemma {:induction false} InForce(v: User, plan: seq<real>, evs: seq<Event>)
    requires JustPlanned(v, plan) && OnlyAsked(evs)
    ensures var n := Ticks(v, evs); n % 6 != 0 ==> Run(v, evs).stageTotal == plan[(n / 6) % |plan|]
  {
    if evs == [] {
    } else {
      var evs0, e := evs[..|evs| - 1], evs[|evs| - 1];
      InForce(v, plan, evs0);
      HourBudget(v, plan, evs0);
      SameHourTick(Ticks(v, evs0), Advances(Run(v, evs0), e));
      if e.Request? { RequestTotal(Run(v, evs0), e.reply); }
    }
  }

  lemma RequestTotal(u: User, reply: Reply)
    requires !Stuck(u)
    ensures Requested(u, reply).stageTotal == Opened(u).stageTotal
  {
  }

  /**
   Every request of a planning user works against the plan's entry for the
   hours gone by since the plan was made: entry 0 for the first six ticks,
   then entry 1, and round again.
   */
  lemma BudgetInForce(v: User, plan: seq<real>, evs: seq<Event>, reply: Reply)
    requires JustPlanned(v, plan) && OnlyAsked(evs)
    ensures Run(v, evs + [Request(reply)]).stageTotal == plan[(Ticks(v, evs) / 6) % |plan|]
  {
    assert (evs + [Request(reply)])[..|evs|] == evs;
    InForce(v, plan, evs);
    HourBudget(v, plan, evs);
    RequestTotal(Run(v, evs), reply);
  }

  /** A list is taken exactly if less has been charged to the hour than its budget; the clock moves either way. */
  lemma GateExact(u: User, entries: seq<int>)
    requires !Stuck(u)
    ensures var spent, budget := if Boundary(u) then 0 else u.stageMoney,
                                 if Boundary(u) then u.plan[Hour(u) % |u.plan|] else u.stageTotal;
            var v, taken := Requested(u, Ints(entries)), if spent as real < budget then |entries| else 0;
            v.timePast == u.timePast + 10 && v.money == u.money + taken && Sends(v.ledger) == Sends(u.ledger) + taken
  {
    RunsTotal(Ints(entries));
    if Consults(u) { HandledSends(Opened(u), Ints(entries)); }
  }

  /** A rule-driven decision charges and records what was drawn, all told. */
  lemma DecidedTotal(u: User, counts: seq<nat>)
    ensures var v := Decided(u, counts);
            && v.timePast == u.timePast + 10
            && v.money == u.money + DrawTotal(counts) && v.stageMoney == u.stageMoney + DrawTotal(counts)
            && Sends(v.ledger) == Sends(u.ledger) + DrawTotal(counts)
  {
    MinutesExact(counts, 0);
    RunsTotal(DecisionReply(counts));
    HandledSends(u, DecisionReply(counts));
  }

  // --------------------------------------------------------- failure reports

  /** Transfers among the first `k` records that a report about `group` counts. */
  function MatchedBefore(l: seq<Record>, group: int, k: nat): nat
    requires k <= |l|
  {
    if k == 0 then 0 else MatchedBefore(l, group, k - 1) + Match(l[k - 1], group)
  }

  /** The marked record is the first whose running count reaches the rank. */
  lemma {:induction false} HitIsFirst(l: seq<Record>, group: int, rank: int, count: int)
    ensures var k := HitIndex(l, group, rank, count);
            && (k < |l| ==> count + MatchedBefore(l, group, k + 1) >= rank)
            && (forall j | 0 < j <= k :: count + MatchedBefore(l, group, j) < rank)
  {
    if l == [] {
    } else {
      var c, k := count + Match(l[0], group), HitIndex(l, group, rank, count);
      if c < rank {
        HitIsFirst(l[1..], group, rank, c);
        forall j | 0 < j <= k ensures count + MatchedBefore(l, group, j) < rank { MatchedTail(l, group, j - 1); }
        if k < |l| { MatchedTail(l, group, k); }
      }
    }
  }

  lemma {:induction false} MatchedTail(l: seq<Record>, group: int, j: nat)
    requires j < |l|
    ensures MatchedBefore(l, group, j + 1) == Match(l[0], group) + MatchedBefore(l[1..], group, j)
  {
    if j == 0 {
    } else {
      MatchedTail(l, group, j - 1);
    }
  }

  /** In a strictly increasing ledger at most one record can match, so the running count is that record's. */
  lemma {:induction false} MatchedOne(l: seq<Record>, group: int, k: nat, m: nat)
    requires Increasing(Entries(l)) && m < |l| && l[m].time == STEP * (group - 1) && k <= |l|
    ensures MatchedBefore(l, group, k) == if m < k then l[m].send else 0
  {
    if k == 0 {
    } else {
      MatchedOne(l, group, k - 1, m);
      var t := Entries(l);
      assert t[k - 1].time == l[k - 1].time && t[m].time == l[m].time;
    }
  }

  lemma {:induction false} MatchedNone(l: seq<Record>, group: int, k: nat)
    requires k <= |l| && forall i | 0 <= i < |l| :: l[i].time != STEP * (group - 1)
    ensures MatchedBefore(l, group, k) == 0
  {
    if k == 0 {
    } else {
      MatchedNone(l, group, k - 1);
    }
  }

  /** A record at the report's own minute that, on top of `count`, holds enough transfers. */
  ghost predicate Answers(l: seq<Record>, group: int, rank: int, count: int, m: int) {
    0 <= m < |l| && l[m].time == STEP * (group - 1) && count + l[m].send >= rank
  }

  /**
   On a strictly increasing ledger, and with whatever count earlier users of the
   same id left over, a report finds a record exactly if the ledger is not empty
   and the count is already enough, or the record at minute 10 * (group - 1)
   makes it so.  In the first case the very first record is marked, in the
   second that one.
   */
  lemma {:induction false} ReportReaches(l: seq<Record>, group: int, rank: int, count: int)
    requires Increasing(Entries(l))
    ensures Reaches(l, group, rank, count) <==>
            l != [] && (count >= rank || exists m :: Answers(l, group, rank, count, m))
    ensures var k := HitIndex(l, group, rank, count);
            k < |l| ==> if count >= rank then k == 0 else Answers(l, group, rank, count, k)
  {
    if l != [] && count < rank { FreshReport(l, group, rank, count); }
  }

  lemma {:induction false} FreshReport(l: seq<Record>, group: int, rank: int, count: int)
    requires Increasing(Entries(l)) && count < rank
    ensures Reaches(l, group, rank, count) <==> exists m :: Answers(l, group, rank, count, m)
    ensures var k := HitIndex(l, group, rank, count); k < |l| ==> Answers(l, group, rank, count, k)
  {
    var k := HitIndex(l, group, rank, count);
    HitIsFirst(l, group, rank, count);
    if m :| 0 <= m < |l| && l[m].time == STEP * (group - 1) {
      forall j | 0 <= j <= |l| ensures MatchedBefore(l, group, j) == if m < j then l[m].send else 0 {
        MatchedOne(l, group, j, m);
      }
      var t := Entries(l);
      forall i | 0 <= i < |l| && i != m ensures l[i].time != l[m].time {
        assert t[i].time == l[i].time && t[m].time == l[m].time;
      }
      assert MatchedBefore(l, group, m + 1) == l[m].send;
      assert l[m].send + count >= rank ==> Answers(l, group, rank, count, m);
    } else {
      forall j | 0 <= j <= |l| ensures MatchedBefore(l, group, j) == 0 { MatchedNone(l, group, j); }
    }
  }

  /** In every state reachable with minutes in 1..10, a report counts against one record or against none. */
  lemma ReachableReport(plan: seq<real>, evs: seq<Event>, group: int, rank: int, count: int)
    requires Ranged(evs)
    ensures var u, v := Run(Fresh(plan), evs), Run(Fresh(plan), evs + [Report(group, rank, count)]);
            && v.money == u.money - 1
            && Sends(v.ledger) == Sends(u.ledger)
            && Fails(v.ledger) == Fails(u.ledger) +
               if u.ledger != [] && (count >= rank || exists m :: Answers(u.ledger, group, rank, count, m)) then 1 else 0
  {
    var u := Run(Fresh(plan), evs);
    assert (evs + [Report(group, rank, count)])[..|evs|] == evs;
    TidyAlways(plan, evs);
    ReportReaches(u.ledger, group, rank, count);
    MarkCounts(u.ledger, HitIndex(u.ledger, group, rank, count));
  }

  // ------------------------------------------------------------- publication

  function NetTotal(p: seq<(int, int)>): int {
    if p == [] then 0 else NetTotal(p[..|p| - 1]) + p[|p| - 1].1
  }

  lemma {:induction false} NetTotalIs(l: seq<Record>)
    ensures NetTotal(NetPairs(l)) == Sends(l) - Fails(l)
  {
    if l == [] {
    } else {
      assert NetPairs(l)[..|l| - 1] == NetPairs(l[..|l| - 1]);
      NetTotalIs(l[..|l| - 1]);
    }
  }

  /** The published sequence and the money counter differ only by reports and lists that missed the ledger. */
  lemma PublishedTotal(plan: seq<real>, evs: seq<Event>)
    ensures var u := Run(Fresh(plan), evs);
            && NetTotal(NetPairs(u.ledger)) == u.money + Unmatched(Fresh(plan), evs) - Unrecorded(Fresh(plan), evs)
            && |NetPairs(u.ledger)| == |u.ledger|
            && forall i | 0 <= i < |u.ledger| :: NetPairs(u.ledger)[i].0 == u.ledger[i].time
  {
    NetTotalIs(Run(Fresh(plan), evs).ledger);
    Conservation(plan, evs);
  }
}
