/**
 What stays true of a client thread over every run of replies, idle ticks,
 indications and restarts.
 */
module ClientRuns {
  import opened Ledger
  import opened RunLength
  import opened UserModel
  import opened Window
  import opened Client

  datatype Event =
    | Batch(plan: seq<int>)   // a reply with transfers: `handle_res`, then the clock
    | Idle                    // a skipped or failed reply: the clock only
    | Indicate                // `calculate_indication`
    | Restart                 // a caught thread that goes on

  function Step(c: Thread, e: Event): Thread {
    match e
    case Batch(plan) => Ticked(Received(c, plan))
    case Idle => Ticked(c)
    case Indicate => Indicated(c)
    case Restart => Restarted(c)
  }

  function Run(evs: seq<Event>): Thread {
    if evs == [] then START else Step(Run(evs[..|evs| - 1]), evs[|evs| - 1])
  }

  /** A reply as the server writes it: ascending minutes in 0..9. */
  ghost predicate WellTimed(e: Event) {
    e.Batch? ==> e.plan != [] && Ascending(e.plan) && forall i | 0 <= i < |e.plan| :: 0 <= e.plan[i] < STEP
  }

  ghost predicate AllWellTimed(evs: seq<Event>) { forall i | 0 <= i < |evs| :: WellTimed(evs[i]) }

  // ------------------------------------------------------------ ledger order

  /** Strictly increasing, all before the clock, and the clock ticks in tens. */
  ghost predicate Tidy(c: Thread) {
    && c.time >= 0 && c.time % STEP == 0
    && Increasing(c.ledger)
    && forall i | 0 <= i < |c.ledger| :: c.ledger[i].time < c.time
  }

  lemma BatchTidy(c: Thread, plan: seq<int>)
    requires Tidy(c) && WellTimed(Batch(plan))
    ensures Tidy(Ticked(Received(c, plan)))
  {
    EncodeIncreasing(plan, 0, STEP - 1);
    var runs, l := Encode(plan), Received(c, plan).ledger;
    assert forall i | 0 <= i < |l| ::
        l[i] == if i < |c.ledger| then c.ledger[i]
                else Entry(runs[i - |c.ledger|].time + c.time, runs[i - |c.ledger|].count);
  }

  /** Every ledger a thread can build is strictly increasing and lies before the thread's clock. */
  lemma {:induction false} TidyAlways(evs: seq<Event>)
    requires AllWellTimed(evs)
    ensures Tidy(Run(evs))
  {
    if evs == [] {
    } else {
      var evs0, e := evs[..|evs| - 1], evs[|evs| - 1];
      TidyAlways(evs0);
      if e.Batch? { BatchTidy(Run(evs0), e.plan); }
    }
  }

  // ---------------------------------------------------------------- averages

  lemma SortTidy(l: seq<Entry>)
    requires Increasing(l)
    ensures Sort(l, TimeOf) == l
  {
    assert SortedBy(l, TimeOf) by {
      forall i, j | 0 <= i < j < |l| ensures TimeOf(l[i]) <= TimeOf(l[j]) { assert l[i].time < l[j].time; }
    }
    SortIdentity(l, TimeOf);
  }

  lemma WindowsTidy(c: Thread)
    requires Increasing(c.ledger) && FullWindows(c) > 0
    ensures var l, n := c.ledger, FullWindows(c);
            && n == l[|l| - 1].time - SPAN + 1 - l[c.loc].time + 1
            && Average(c) == SumTens(l, l[c.loc].time, n) as real / n as real
  {
    SortTidy(c.ledger);
  }

  /** There is a full window exactly if the last entry is nine minutes or more after the one at `loc`. */
  lemma WindowsIff(c: Thread)
    requires Increasing(c.ledger)
    ensures FullWindows(c) > 0 <==>
            c.loc < |c.ledger| && c.ledger[|c.ledger| - 1].time >= c.ledger[c.loc].time + 9
  {
    SortTidy(c.ledger);
  }

  /**
   An average is stored exactly if the last entry is nine minutes or more after
   the one at `loc`.  It is the double count of exactly the entries from `loc`
   on, each with a weight between 1 and 10; otherwise nothing changes.
   */
  lemma AverageExact(c: Thread)
    requires Increasing(c.ledger)
    ensures var l := c.ledger;
            if c.loc < |l| && l[|l| - 1].time >= l[c.loc].time + 9 then
              var start, end := l[c.loc].time, l[|l| - 1].time;
              Indicated(c) == c.(loc := |l|, indications := c.indications +
                                   [Weighted(l[c.loc..], start, end) as real / (end - start - 8) as real])
            else Indicated(c) == c
    ensures FullWindows(c) == 0 ==> Indicated(c) == c
    ensures FullWindows(c) > 0 ==>
              var l, start, end := c.ledger, c.ledger[c.loc].time, c.ledger[|c.ledger| - 1].time;
              && FullWindows(c) == end - SPAN + 1 - start + 1
              && Average(c) == Weighted(l[c.loc..], start, end) as real / FullWindows(c) as real
              && (forall i | c.loc <= i < |l| :: 1 <= Weight(l[i].time, start, end) <= SPAN)
              && (forall i | 0 <= i < c.loc :: Weight(l[i].time, start, end) == 0)
  {
    WindowsIff(c);
    if FullWindows(c) > 0 {
      WindowsTidy(c);
      SlidingSum(c.ledger, c.loc, FullWindows(c));
    }
  }

  lemma DivideBack(x: real, y: real)
    requires y > 0.0
    ensures x / y * y == x
  {
  }

  /** If the detector can never strike, no average it stores exceeds a hundred. */
  lemma SafeAverage(c: Thread)
    requires Increasing(c.ledger) && FullWindows(c) > 0
    requires forall draws: seq<real> | Draws(draws, |c.ledger|) :: !Rejected(c.ledger, draws)
    ensures Average(c) <= 100.0
  {
    SafeIff(c.ledger);
    WindowsTidy(c);
    var n := FullWindows(c);
    SumTensBound(c.ledger, c.ledger[c.loc].time, n);
    Quotient(SumTens(c.ledger, c.ledger[c.loc].time, n), n);
  }

  lemma Quotient(s: nat, n: nat)
    requires n > 0 && s <= 100 * n
    ensures s as real / n as real <= 100.0
  {
    var x, y := s as real, n as real;
    assert x <= 100.0 * y;
    DivideBack(x, y);
  }

  // ------------------------------------- which entries an average takes in

  /** First and last minute an average looks at, whatever the order of the ledger. */
  function StartOf(c: Thread): int
    requires c.loc < |c.ledger|
  {
    Sort(c.ledger, TimeOf)[c.loc].time
  }

  function EndOf(c: Thread): int
    requires c.ledger != []
  {
    Sort(c.ledger, TimeOf)[|c.ledger| - 1].time
  }

  lemma {:induction false} WeightedInsert(s: seq<Entry>, x: Entry, start: int, end: int)
    ensures Weighted(Insert(s, x, TimeOf), start, end) == Weighted(s + [x], start, end)
  {
    if s == [] || TimeOf(s[|s| - 1]) <= TimeOf(x) {
    } else {
      var s0, y := s[..|s| - 1], s[|s| - 1];
      WeightedInsert(s0, x, start, end);
      WeightedConcat(Insert(s0, x, TimeOf), [y], start, end);
      WeightedConcat(s0, [x], start, end);
      WeightedConcat(s0, [y], start, end);
      WeightedConcat(s, [x], start, end);
      assert s == s0 + [y];
    }
  }

  lemma {:induction false} WeightedSort(l: seq<Entry>, start: int, end: int)
    ensures Weighted(Sort(l, TimeOf), start, end) == Weighted(l, start, end)
  {
    if l == [] {
    } else {
      var l0, x := l[..|l| - 1], l[|l| - 1];
      WeightedSort(l0, start, end);
      WeightedInsert(Sort(l0, TimeOf), x, start, end);
      WeightedConcat(Sort(l0, TimeOf), [x], start, end);
      WeightedConcat(l0, [x], start, end);
      assert l == l0 + [x];
    }
  }

  lemma EndIsLast(c: Thread, k: nat)
    requires k < |c.ledger|
    ensures c.ledger[k].time <= EndOf(c)
  {
    var s := Sort(c.ledger, TimeOf);
    SortSorts(c.ledger, TimeOf);
    assert c.ledger[k] in multiset(s);
    var i :| 0 <= i < |s| && s[i] == c.ledger[k];
    assert i == |s| - 1 || TimeOf(s[i]) <= TimeOf(s[|s| - 1]);
  }

  /** Whatever the order: exactly if nine minutes or more lie between those two. */
  lemma WindowsAnyIff(c: Thread)
    ensures FullWindows(c) > 0 <==> c.loc < |c.ledger| && EndOf(c) >= StartOf(c) + 9
    ensures FullWindows(c) > 0 ==> FullWindows(c) == EndOf(c) - StartOf(c) - 8
  {
  }

  lemma AverageAnyIs(c: Thread)
    requires c.loc < |c.ledger| && EndOf(c) >= StartOf(c) + 9
    ensures FullWindows(c) == EndOf(c) - StartOf(c) - 8
    ensures Average(c) == Weighted(c.ledger, StartOf(c), EndOf(c)) as real / FullWindows(c) as real
  {
    WindowsAnyIff(c);
    SlidUpTo(Sort(c.ledger, TimeOf), StartOf(c), FullWindows(c), EndOf(c));
    WeightedSort(c.ledger, StartOf(c), EndOf(c));
  }

  lemma SlidUpTo(s: seq<Entry>, start: int, n: nat, end: int)
    requires n >= 1 && end == start + n + 8
    ensures SumTens(s, start, n) == Weighted(s, start, end)
  {
    DoubleCount(s, start, n);
    assert start + n - 1 + SPAN - 1 == end;
  }

  /**
   For every ledger, in order or not: an average weighs each entry by the
   windows over it, and an entry takes part exactly if its minute is not before
   that of the `loc`-th entry in time order.  Its place before or after `loc`
   does not matter.
   */
  lemma AverageAny(c: Thread)
    requires c.loc < |c.ledger| && EndOf(c) >= StartOf(c) + 9
    ensures Indicated(c) ==
            c.(loc := |c.ledger|, indications := c.indications +
                 [Weighted(c.ledger, StartOf(c), EndOf(c)) as real / (EndOf(c) - StartOf(c) - 8) as real])
    ensures forall k | 0 <= k < |c.ledger| ::
              && 0 <= Weight(c.ledger[k].time, StartOf(c), EndOf(c)) <= SPAN
              && (Weight(c.ledger[k].time, StartOf(c), EndOf(c)) > 0 <==> c.ledger[k].time >= StartOf(c))
  {
    var start, end := StartOf(c), EndOf(c);
    AverageAnyIs(c);
    forall k | 0 <= k < |c.ledger|
      ensures var w := Weight(c.ledger[k].time, start, end); 0 <= w <= SPAN && (w > 0 <==> c.ledger[k].time >= start)
    {
      EndIsLast(c, k);
    }
  }

  lemma EncodePair(a: int, b: int)
    requires a != b
    ensures Encode([a, b]) == [Entry(a, 1), Entry(b, 1)]
  {
    assert [a, b][..1] == [a] && [a][..0] == [];
    assert Encode([a]) == [Entry(a, 1)];
  }

  lemma SortTwo(x: Entry, y: Entry)
    requires x.time < y.time
    ensures Sort([x, y], TimeOf) == [x, y]
  {
    assert [x, y][..1] == [x] && [x][..0] == [];
    assert Sort([x], TimeOf) == [x];
  }

  lemma RunSnoc(evs: seq<Event>, e: Event)
    ensures Run(evs + [e]) == Step(Run(evs), e)
  {
    assert (evs + [e])[..|evs|] == evs;
  }

  /** A run of two replies with an indication after each, state by state. */
  lemma RunFour(p: seq<int>, q: seq<int>)
    ensures Run([Batch(p)]) == Step(START, Batch(p))
    ensures Run([Batch(p), Indicate, Batch(q)]) == Step(Indicated(Run([Batch(p)])), Batch(q))
    ensures Run([Batch(p), Indicate, Batch(q), Indicate]) == Indicated(Run([Batch(p), Indicate, Batch(q)]))
  {
    var a, i, b := Batch(p), Indicate, Batch(q);
    RunSnoc([], a);
    RunSnoc([a], i);
    RunSnoc([a, i], b);
    RunSnoc([a, i, b], i);
    assert [] + [a] == [a] && [a] + [i] == [a, i] && [a, i] + [b] == [a, i, b] && [a, i, b] + [i] == [a, i, b, i];
  }

  lemma BatchPair(c: Thread, plan: seq<int>, a: int, b: int)
    requires plan == [a, b] && a != b
    ensures var d := Step(c, Batch(plan));
            && d.ledger == c.ledger + [Entry(c.time + a, 1), Entry(c.time + b, 1)]
            && d.loc == c.loc && d.time == c.time + STEP && d.indications == c.indications
  {
    EncodePair(a, b);
    assert Shift([Entry(a, 1), Entry(b, 1)], c.time) == [Entry(c.time + a, 1), Entry(c.time + b, 1)];
  }

  /**
   With minutes the server does not ask for, an entry can go into two averages:
   minute 20 takes part in the first and, though it lies before `loc`, again in
   the second.
   */
  lemma CountedTwice()
    ensures var first := Run([Batch([0, 20])]);
            var second := Run([Batch([0, 20]), Indicate, Batch([0, 30])]);
            && first.ledger == [Entry(0, 1), Entry(20, 1)] && first.loc == 0
            && second.ledger == [Entry(0, 1), Entry(20, 1), Entry(10, 1), Entry(40, 1)] && second.loc == 2
            && FullWindows(first) > 0 && Weight(20, StartOf(first), EndOf(first)) > 0
            && FullWindows(second) > 0 && Weight(20, StartOf(second), EndOf(second)) > 0
            && Run([Batch([0, 20]), Indicate, Batch([0, 30]), Indicate]).indications == [Average(first), Average(second)]
  {
    var first, second := Run([Batch([0, 20])]), Run([Batch([0, 20]), Indicate, Batch([0, 30])]);
    RunFour([0, 20], [0, 30]);
    FirstReply(START, [0, 20], first);
    SecondReply(Indicated(first), [0, 30], second);
  }

  lemma FirstReply(c: Thread, plan: seq<int>, d: Thread)
    requires c.ledger == [] && c.loc == 0 && c.time == 0 && plan == [0, 20] && d == Step(c, Batch(plan))
    ensures d.ledger == [Entry(0, 1), Entry(20, 1)] && d.loc == 0 && d.time == STEP
    ensures d.indications == c.indications && FullWindows(d) > 0 && Weight(20, StartOf(d), EndOf(d)) > 0
    ensures Indicated(d) == d.(loc := 2, indications := d.indications + [Average(d)])
  {
    BatchPair(c, plan, 0, 20);
    TwentyInFirst(d);
  }

  lemma SecondReply(c: Thread, plan: seq<int>, d: Thread)
    requires c.ledger == [Entry(0, 1), Entry(20, 1)] && c.loc == 2 && c.time == STEP
    requires plan == [0, 30] && d == Step(c, Batch(plan))
    ensures d.ledger == [Entry(0, 1), Entry(20, 1), Entry(10, 1), Entry(40, 1)] && d.loc == 2
    ensures d.indications == c.indications && FullWindows(d) > 0 && Weight(20, StartOf(d), EndOf(d)) > 0
  {
    BatchPair(c, plan, 0, 30);
    TwentyInSecond(d);
    assert FullWindows(d) > 0;
  }

  lemma TwentyInFirst(c: Thread)
    requires c.ledger == [Entry(0, 1), Entry(20, 1)] && c.loc == 0
    ensures FullWindows(c) > 0 && Weight(20, StartOf(c), EndOf(c)) > 0
  {
    SortTwo(c.ledger[0], c.ledger[1]);
  }

  lemma TwentyInSecond(c: Thread)
    requires c.ledger == [Entry(0, 1), Entry(20, 1), Entry(10, 1), Entry(40, 1)] && c.loc == 2
    ensures FullWindows(c) > 0 && Weight(20, StartOf(c), EndOf(c)) > 0
  {
    SortFour(c.ledger);
  }

  lemma SortFour(l: seq<Entry>)
    requires |l| == 4 && l[0].time < l[2].time < l[1].time < l[3].time
    ensures Sort(l, TimeOf) == [l[0], l[2], l[1], l[3]]
  {
    assert l[..3][..2] == [l[0], l[1]] && l[..3][2] == l[2];
    SortTwo(l[0], l[1]);
    assert [l[0], l[1]][..1] == [l[0]];
    assert Insert([l[0]], l[2], TimeOf) == [l[0], l[2]];
    assert Insert([l[0], l[1]], l[2], TimeOf) == [l[0], l[2], l[1]];
    assert Sort(l[..3], TimeOf) == [l[0], l[2], l[1]];
  }

  // -------------------------------------------------------------- completion

  function Batches(evs: seq<Event>): nat {
    if evs == [] then 0 else Batches(evs[..|evs| - 1]) + if evs[|evs| - 1].Batch? then 1 else 0
  }

  ghost predicate NeverCaught(evs: seq<Event>) {
    forall i | 0 <= i < |evs| :: !evs[i].Restart? && (evs[i].Batch? ==> evs[i].plan != [])
  }

  lemma {:induction false} BatchesPay(evs: seq<Event>)
    requires NeverCaught(evs)
    ensures Batches(evs) <= Run(evs).money
  {
    if evs == [] {
    } else {
      BatchesPay(evs[..|evs| - 1]);
    }
  }

  /**
   A thread that is never caught stops after at most as many replies with
   transfers as its target has units, and stops within one reply of it.
   */
  lemma {:induction false} Completion(evs: seq<Event>, total: nat)
    requires NeverCaught(evs) && evs != []
    requires Run(evs[..|evs| - 1]).money < total     // the thread had not stopped before its last event
    ensures Batches(evs) <= total
    ensures Run(evs).money >= total ==>
              && evs[|evs| - 1].Batch?
              && total <= Run(evs).money < total + |evs[|evs| - 1].plan|
  {
    BatchesPay(evs[..|evs| - 1]);
  }

  // ------------------------------------------------- the thread's own passes

  /** Events played from a given state. */
  function Steps(c: Thread, evs: seq<Event>): Thread
    decreases |evs|
  {
    if evs == [] then c else Steps(Step(c, evs[0]), evs[1..])
  }

  lemma StepsTwo(c: Thread, a: Event, b: Event)
    ensures Steps(c, []) == c && Steps(c, [a]) == Step(c, a) && Steps(c, [a, b]) == Step(Step(c, a), b)
  {
    assert [a][1..] == [] && [a, b][1..] == [b] && [b][1..] == [];
    assert Steps(Step(c, a), [b]) == Step(Step(c, a), b);
  }

  lemma {:induction false} RunSteps(evs: seq<Event>, more: seq<Event>)
    ensures Run(evs + more) == Steps(Run(evs), more)
    decreases |more|
  {
    if more == [] {
      assert evs + more == evs;
    } else {
      var evs1 := evs + [more[0]];
      assert evs1[..|evs|] == evs;
      assert evs1 + more[1..] == evs + more;
      RunSteps(evs1, more[1..]);
    }
  }

  /** The event that ends a pass, if one does. */
  function Ending(outcome: Outcome, struck: bool, final: bool): seq<Event> {
    if outcome.Caught? || outcome.Completed? then [Indicate] else if struck && !final then [Restart] else []
  }

  /** The events behind a reply with transfers, in the order of the thread's loop. */
  function Pass(outcome: Outcome, struck: bool, final: bool, triggered: bool): seq<Event> {
    if triggered then [Indicate] + Ending(outcome, struck, final) else Ending(outcome, struck, final)
  }

  lemma StepsPass(c: Thread, outcome: Outcome, struck: bool, final: bool, triggered: bool)
    ensures Steps(c, Pass(outcome, struck, final, triggered)) ==
            Steps(if triggered then Indicated(c) else c, Ending(outcome, struck, final))
  {
    if triggered {
      assert Pass(outcome, struck, final, triggered)[1..] == Ending(outcome, struck, final);
    }
  }

  lemma SettledEnding(c: Thread, total: int, final: bool, struck: bool, triggered: bool)
    requires c.ledger != [] && total > 0
    ensures var (e, outcome) := Settled(c, total, final, struck, triggered);
            && e == Steps(if triggered then Indicated(c) else c, Ending(outcome, struck, final))
            && (outcome.Continue? ==> e.money < total)
            && (outcome.Completed? ==> e.money >= total)
  {
    var d := if triggered then Indicated(c) else c;
    StepsTwo(d, Indicate, Restart);
    StepsTwo(d, Restart, Indicate);
  }

  /**
   Whatever a pass of the thread's loop does after a reply with transfers is
   such a run, and the thread goes on only below its target.
   */
  lemma {:induction false} PassIsRun(evs: seq<Event>, plan: seq<int>, total: int, final: bool, struck: bool,
                                     triggered: bool)
    requires plan != [] && total > 0
    ensures Ticked(Received(Run(evs), plan)).ledger != []
    ensures var (c, outcome) := Settled(Ticked(Received(Run(evs), plan)), total, final, struck, triggered);
            && Run(evs + [Batch(plan)] + Pass(outcome, struck, final, triggered)) == c
            && (outcome.Continue? ==> c.money < total)
            && (outcome.Completed? ==> c.money >= total)
  {
    var c1 := Ticked(Received(Run(evs), plan));
    ReceivedNonEmpty(Run(evs), plan);
    var (_, outcome) := Settled(c1, total, final, struck, triggered);
    RunSteps(evs, [Batch(plan)]);
    RunSteps(evs + [Batch(plan)], Pass(outcome, struck, final, triggered));
    StepsPass(c1, outcome, struck, final, triggered);
    SettledEnding(c1, total, final, struck, triggered);
    StepsTwo(Run(evs), Batch(plan), Idle);
  }

  // -------------------------------------------------------------- ways a pass ends

  /** What a pass comes to and leaves, by the verdict, the money and the last minute. */
  ghost predicate Ends(c: Thread, total: int, final: bool, struck: bool, last: int, d: Thread, outcome: Outcome) {
    && (outcome.Caught? <==> struck && final && last != -1)
    && (outcome.Completed? <==> !struck && c.money >= total && last != 0)
    && (outcome.Crashed? <==> (struck && final && last == -1) || (!struck && c.money >= total && last == 0))
    && (if struck && !final then d.money == 0 && d.ledger == [] && d.time == 0
        else d.money == c.money && d.ledger == c.ledger && d.time == c.time)
  }

  lemma SettledEnds(c: Thread, total: int, final: bool, struck: bool, triggered: bool)
    requires c.ledger != []
    ensures var (d, outcome) := Settled(c, total, final, struck, triggered);
            Ends(c, total, final, struck, c.ledger[|c.ledger| - 1].time, d, outcome)
  {
  }

  /**
   For every run and every reply: a final thread is caught exactly if it is
   struck, any other then starts over with nothing; otherwise it completes
   exactly if it has reached the target.
   */
  lemma PassEnds(evs: seq<Event>, plan: seq<int>, total: int, final: bool, struck: bool, triggered: bool)
    requires plan != []
    ensures Ticked(Received(Run(evs), plan)).ledger != []
    ensures var c := Ticked(Received(Run(evs), plan));
            var (d, outcome) := Settled(c, total, final, struck, triggered);
            && c.money == Run(evs).money + |plan| && c.time == Run(evs).time + 10
            && Ends(c, total, final, struck, Run(evs).time + plan[|plan| - 1], d, outcome)
  {
    LastMinute(Run(evs), plan);
    SettledEnds(Ticked(Received(Run(evs), plan)), total, final, struck, triggered);
  }

  /**
   The police: never before fifty hours are over, always once the clock is past
   ten thousand minutes, and in between below the clock's share of them.
   */
  lemma ArrestExact(c: Thread, draws: seq<real>, arrestDraw: real)
    requires |draws| >= |c.ledger| && 0.3 <= arrestDraw <= 1.0
    ensures Strikes(c, draws, arrestDraw) <==> Rejected(c.ledger, draws) || arrestDraw * 10000.0 < c.time as real
    ensures c.time <= 3000 ==> (Strikes(c, draws, arrestDraw) <==> Rejected(c.ledger, draws))
    ensures c.time > 10000 ==> Strikes(c, draws, arrestDraw)
  {
  }

  // ---------------------------------------------------------- division by zero

  ghost predicate EmptyAtZero(c: Thread) {
    c.time >= 0 && (c.time == 0 ==> c.money == 0 && c.ledger == [])
  }

  lemma StepAtZero(c: Thread, e: Event)
    requires EmptyAtZero(c)
    ensures EmptyAtZero(Step(c, e))
  {
  }

  /** A thread at time zero has recorded nothing since it started or restarted. */
  lemma {:induction false} NothingAtZero(evs: seq<Event>)
    ensures EmptyAtZero(Run(evs))
  {
    if evs == [] {
    } else {
      NothingAtZero(evs[..|evs| - 1]);
      StepAtZero(Run(evs[..|evs| - 1]), evs[|evs| - 1]);
    }
  }

  /** The last entry is that of the reply's last minute, in order or not. */
  lemma LastMinute(c: Thread, plan: seq<int>)
    requires plan != []
    ensures var l := Ticked(Received(c, plan)).ledger; l != [] && l[|l| - 1].time == c.time + plan[|plan| - 1]
  {
    var runs := Encode(plan);
    EncodeExact(plan);
    ReceivedNonEmpty(c, plan);
    ExpandLast(runs);
    assert Shift(runs, c.time)[|runs| - 1].time == runs[|runs| - 1].time + c.time;
  }

  /** When the bookkeeping of a pass divides by zero, on either of its ways out. */
  lemma SettledCrash(c: Thread, total: int, final: bool, struck: bool, triggered: bool)
    requires c.ledger != []
    ensures var last := c.ledger[|c.ledger| - 1].time;
            Settled(c, total, final, struck, triggered).1.Crashed? <==>
            (struck && final && last == -1) || (!struck && c.money >= total && last == 0)
  {
  }

  /**
   For every run and every reply: a pass divides by zero exactly if it ends the
   thread and the last minute recorded is 0 on completion, or -1 when caught.
   */
  lemma CrashAnyIff(evs: seq<Event>, plan: seq<int>, total: int, final: bool, struck: bool, triggered: bool)
    requires plan != []
    ensures Ticked(Received(Run(evs), plan)).ledger != []
    ensures var last := Run(evs).time + plan[|plan| - 1];
            Settled(Ticked(Received(Run(evs), plan)), total, final, struck, triggered).1.Crashed? <==>
            (struck && final && last == -1) || (!struck && last == 0 && Run(evs).money + |plan| >= total)
  {
    LastMinute(Run(evs), plan);
    SettledCrash(Ticked(Received(Run(evs), plan)), total, final, struck, triggered);
  }

  /**
   With minutes 0 to 9 only: exactly if the thread is not struck and its very
   first reply since it started puts everything into minute 0 and reaches the
   target at once.
   */
  lemma CrashIff(evs: seq<Event>, plan: seq<int>, total: int, final: bool, struck: bool, triggered: bool)
    requires AllWellTimed(evs) && WellTimed(Batch(plan)) && total > 0
    ensures Ticked(Received(Run(evs), plan)).ledger != []
    ensures Settled(Ticked(Received(Run(evs), plan)), total, final, struck, triggered).1.Crashed? <==>
            !struck && Run(evs).time == 0 && plan[|plan| - 1] == 0 && |plan| >= total
  {
    NothingAtZero(evs);
    CrashAnyIff(evs, plan, total, final, struck, triggered);
  }

  lemma RepeatEncode(v: int, n: nat)
    requires n > 0
    ensures Encode(Repeat(v, n)) == [Entry(v, n)]
  {
    assert Expand([Entry(v, n)]) == Repeat(v, n) by {
      assert [Entry(v, n)][..0] == [];
      assert Expand([]) + Repeat(v, n) == Repeat(v, n);
    }
    EncodeExpand([Entry(v, n)]);
  }

  /** For every target: a first reply of that many zeros, a lucky draw, and the thread dies on completing. */
  lemma CrashExample(total: nat, final: bool, triggered: bool)
    requires total > 0
    ensures var c := Ticked(Received(START, Repeat(0, total)));
            && c.ledger == [Entry(0, total)]
            && Draws([0.95], 1) && !Strikes(c, [0.95], 0.5)
            && Settled(c, total, final, false, triggered).1.Crashed?
  {
    RepeatEncode(0, total);
    CrashIff([], Repeat(0, total), total, final, false, triggered);
  }

  /**
   And caught: more than a hundred zeros from the server are recorded one minute
   before the start; if the detector strikes a thread in its last try, it dies.
   */
  lemma CaughtCrash(n: nat, total: int, triggered: bool)
    requires n > 100
    ensures var c := Ticked(Received(START, Repeat(-1, n)));
            && c.ledger == [Entry(-1, n)]
            && Draws([0.5], 1) && Strikes(c, [0.5], 0.99)
            && Settled(c, total, true, true, triggered).1.Crashed?
  {
    RepeatEncode(-1, n);
    var c := Ticked(Received(START, Repeat(-1, n)));
    assert c.ledger == [Entry(-1, n)];
    assert Tested(c.ledger, 0) == n by { assert Scan(c.ledger, 0, -1) == 0; }
    CrashAnyIff([], Repeat(-1, n), total, true, true, triggered);
  }
}
