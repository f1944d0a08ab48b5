/**
 The client thread that mirrors a user's ledger from the server's replies:
 first as a value with its transitions, then as the object the program
 updates in place.
 */
module Client {
  import opened Ledger
  import opened RunLength
  import opened Wire
  import opened UserModel
  import opened Window

  datatype Thread = Thread(
    time: int,
    money: int,                 // units transferred
    ledger: seq<Entry>,
    loc: nat,                   // first entry not yet averaged
    indications: seq<real>)

  /** How a thread leaves the handling of one response. */
  datatype Outcome = Continue | Caught | Completed | Crashed

  const START := Thread(0, 0, [], 0, [])

  // ------------------------------------------------------------ transitions

  function Ticked(c: Thread): Thread { c.(time := c.time + STEP) }

  function Added(c: Thread, runs: seq<Entry>): Thread { c.(ledger := c.ledger + Shift(runs, c.time)) }

  /** `handle_res`. */
  function Received(c: Thread, plan: seq<int>): Thread { Added(c, Encode(plan)).(money := c.money + |plan|) }

  /** How many full ten-minute windows lie between entry `loc` and the last entry. */
  function FullWindows(c: Thread): nat {
    if c.loc >= |c.ledger| then 0
    else
      var s := Sort(c.ledger, TimeOf);
      Max(0, s[|s| - 1].time - SPAN + 1 - s[c.loc].time + 1)
  }

  function Average(c: Thread): real
    requires FullWindows(c) > 0
  {
    var s := Sort(c.ledger, TimeOf);
    SumTens(s, s[c.loc].time, FullWindows(c)) as real / FullWindows(c) as real
  }

  /** `calculate_indication`. */
  function Indicated(c: Thread): Thread {
    if FullWindows(c) == 0 then c
    else c.(loc := |c.ledger|, indications := c.indications + [Average(c)])
  }

  /** What a caught thread that goes on clears; its place in the averages survives. */
  function Restarted(c: Thread): Thread { c.(money := 0, ledger := [], time := 0) }

  predicate Skipped(text: string) { text == SKIP || text == "" }

  /** Taking in one response; `None` where `int` raises. */
  function Absorbed(c: Thread, r: Response): Option<Thread> {
    match r
    case Error => Some(Ticked(c))
    case Message(text) =>
      if Skipped(text) then Some(Ticked(c))
      else match ParseList(text)
        case None => None
        case Some(plan) => Some(Ticked(Received(c, plan)))
  }

  /** The detector or the police strike. */
  ghost predicate Strikes(c: Thread, draws: seq<real>, arrestDraw: real)
    requires |draws| >= |c.ledger|
  {
    Rejected(c.ledger, draws) || arrestDraw < c.time as real / 10000.0
  }

  /** The bookkeeping behind a response with transfers in it, from the verdict on. */
  function Settled(c: Thread, total: int, final: bool, struck: bool, triggered: bool): (Thread, Outcome)
    requires c.ledger != []
  {
    var d := if triggered then Indicated(c) else c;
    var last := c.ledger[|c.ledger| - 1].time;
    if struck && final then
      if last == -1 then (d, Crashed) else (Indicated(d), Caught)
    else if struck then (Restarted(d), Continue)
    else if d.money < total then (d, Continue)
    else if last == 0 then (d, Crashed) else (Indicated(d), Completed)
  }

  // ------------------------------------------------------------- the object

  class MyThread {
    const totalMoney: int       // units
    const final: bool           // the thread stops for good when caught
    var time: int
    var moneyTransferred: int
    var transactionList: seq<Entry>
    var loc: nat
    var indicationList: seq<real>

    function View(): Thread
      reads this
    {
      Thread(time, moneyTransferred, transactionList, loc, indicationList)
    }

    constructor (total: int, stops: bool)
      ensures View() == START && totalMoney == total && final == stops
    {
      totalMoney, final := total, stops;
      time, moneyTransferred, loc := 0, 0, 0;
      transactionList, indicationList := [], [];
    }

    /** The client's copy of the run-length loop. */
    method HandleRes(plan: seq<int>)
      requires plan != []
      modifies this
      ensures View() == Received(old(View()), plan)
    {
      var count := 1;
      ghost var runs := [];
      EncodeOne(plan);
      AddNothing(View());
      for i := 1 to |plan|
        invariant 1 <= count
        invariant runs + [Entry(plan[i - 1], count)] == Encode(plan[..i])
        invariant View() == Added(old(View()), runs)
      {
        EncodeNext(plan, i, runs, count);
        if plan[i] == plan[i - 1] {
          count := count + 1;
          continue;
        } else {
          AddOne(old(View()), runs, Entry(plan[i - 1], count));
          transactionList := transactionList + [Entry(time + plan[i - 1], count)];
          runs := runs + [Entry(plan[i - 1], count)];
          count := 1;
        }
      }
      assert plan[..|plan|] == plan;
      AddOne(old(View()), runs, Entry(plan[|plan| - 1], count));
      transactionList := transactionList + [Entry(time + plan[|plan| - 1], count)];
      moneyTransferred := moneyTransferred + |plan|;
    }

    /** The inner loop of `check`. */
    method CountBack(i: nat) returns (count: nat)
      requires i < |transactionList|
      ensures count == Scan(transactionList, i, i)
    {
      count := 0;
      var j := i;
      while j >= 0
        invariant -1 <= j <= i
        invariant count + Scan(transactionList, i, j) == Scan(transactionList, i, i)
      {
        if transactionList[i].time - transactionList[j].time > 9 { break; }
        count := count + transactionList[j].count;
        j := j - 1;
      }
    }

    /**
     `check`: false exactly if some test from the end draws below its bar.
     One number is drawn per entry until the verdict falls.
     */
    method Check(draws: seq<real>) returns (ok: bool, used: nat)
      requires Draws(draws, |transactionList|)
      ensures ok <==> !Rejected(transactionList, draws)
      ensures used <= |transactionList| && (ok ==> used == |transactionList|)
      ensures !ok ==> used > 0 && draws[used - 1] < Bar(Tested(transactionList, used - 1))
      ensures forall k | 0 <= k < if ok then used else used - 1 :: draws[k] >= Bar(Tested(transactionList, k))
    {
      used := 0;
      var i := |transactionList| - 1;
      while i >= 0
        invariant i == |transactionList| - 1 - used && -1 <= i
        invariant forall k | 0 <= k < used :: draws[k] >= Bar(Tested(transactionList, k))
      {
        var count := CountBack(i);
        var pos := draws[used];
        used := used + 1;
        assert count == Tested(transactionList, used - 1);
        if count > 250 {
          if pos < 0.9 { return false, used; }
        } else if count > 200 {
          if pos < 0.8 { return false, used; }
        } else if count > 100 {
          if pos < 0.7 { return false, used; }
        }
        i := i - 1;
      }
      ok := true;
    }

    /** The sliding loop of `calculate_indication`. */
    method CalculateIndication()
      modifies this`loc, this`indicationList
      ensures View() == Indicated(old(View()))
    {
      if transactionList == [] { return; }
      var sorted := Sort(transactionList, TimeOf);
      if loc >= |sorted| { return; }
      var startTime, endTime := sorted[loc].time, sorted[|sorted| - 1].time;
      var currentStart, windows, sum := startTime, 0, 0;
      while currentStart + 9 <= endTime
        invariant View() == old(View())
        invariant windows == currentStart - startTime
        invariant windows > 0 ==> currentStart + 8 <= endTime
        invariant sum == SumTens(sorted, startTime, windows)
      {
        var windowSum := SumWindow(sorted, currentStart, currentStart + 9);
        sum := sum + windowSum;
        windows := windows + 1;
        currentStart := currentStart + 1;
      }
      assert windows == FullWindows(View());
      if windows == 0 { return; }
      var average := sum as real / windows as real;
      loc := |transactionList|;
      indicationList := indicationList + [average];
    }

    /**
     One pass of the thread's loop after a response came in.  The draws, and
     whether the cross-thread trigger asks for an indication, are inputs.
     */
    method HandleResponse(r: Response, draws: seq<real>, arrestDraw: real, triggered: bool) returns (outcome: Outcome)
      requires totalMoney > 0
      requires Absorbed(View(), r).Some? ==> Draws(draws, |Absorbed(View(), r).value.ledger|)
      modifies this
      ensures Absorbed(old(View()), r).None? ==> outcome == Crashed && View() == old(View())
      ensures Absorbed(old(View()), r).Some? && (r.Error? || Skipped(r.text)) ==>
                outcome == Continue && View() == Ticked(old(View()))
      ensures Absorbed(old(View()), r).Some? && r.Message? && !Skipped(r.text) ==>
                var c := Absorbed(old(View()), r).value;
                c.ledger != [] &&
                (View(), outcome) == Settled(c, totalMoney, final, Strikes(c, draws, arrestDraw), triggered)
    {
      if r.Error? || r.text == "-1" || r.text == "" {
        time := time + 10;
        return Continue;
      }
      var parsed := ParseList(r.text);
      if parsed.None? { return Crashed; }
      var plan := parsed.value;
      ParsedNonEmpty(r.text);
      HandleRes(plan);
      time := time + 10;
      ReceivedNonEmpty(old(View()), plan);
      var ok, _ := Check(draws);
      var caught := !ok || arrestDraw < time as real / 10000.0;
      outcome := Settle(caught, triggered);
    }

    method Settle(caught: bool, triggered: bool) returns (outcome: Outcome)
      requires transactionList != [] && totalMoney > 0
      modifies this
      ensures (View(), outcome) == Settled(old(View()), totalMoney, final, caught, triggered)
    {
      var last := transactionList[|transactionList| - 1].time;
      if triggered { CalculateIndication(); }
      if caught {
        if final {
          if last + 1 == 0 { return Crashed; }
          CalculateIndication();
          return Caught;
        }
        moneyTransferred := 0;
        transactionList := [];
        time := 0;
      }
      if moneyTransferred >= totalMoney {
        if last == 0 { return Crashed; }
        CalculateIndication();
        return Completed;
      }
      outcome := Continue;
    }
  }

  /** The list comprehension and `sum` over one window. */
  method SumWindow(l: seq<Entry>, a: int, b: int) returns (sum: nat)
    ensures sum == WindowSum(l, a, b)
  {
    sum := 0;
    for i := 0 to |l|
      invariant sum == WindowSum(l[..i], a, b)
    {
      assert l[..i + 1][..i] == l[..i];
      if a <= l[i].time <= b { sum := sum + l[i].count; }
    }
    assert l[..|l|] == l;
  }

  lemma AddNothing(c: Thread)
    ensures Added(c, []) == c
  {
    assert c.ledger + Shift([], c.time) == c.ledger;
  }

  lemma AddOne(c: Thread, runs: seq<Entry>, e: Entry)
    ensures Added(c, runs + [e]).ledger == Added(c, runs).ledger + [Entry(c.time + e.time, e.count)]
  {
    assert Shift(runs + [e], c.time) == Shift(runs, c.time) + [Entry(c.time + e.time, e.count)];
  }

  lemma {:induction false} SplitNonEmpty(s: string)
    ensures Split(s) != []
  {
  }

  lemma {:induction false} ParseAllLength(parts: seq<string>)
    ensures ParseAll(parts).Some? ==> |ParseAll(parts).value| == |parts|
  {
    if parts == [] {
    } else {
      ParseAllLength(parts[..|parts| - 1]);
    }
  }

  lemma ParsedNonEmpty(s: string)
    ensures ParseList(s).Some? ==> ParseList(s).value != []
  {
    SplitNonEmpty(s);
    ParseAllLength(Split(s));
  }

  lemma ReceivedNonEmpty(c: Thread, plan: seq<int>)
    requires plan != []
    ensures Received(c, plan).ledger != []
  {
    EncodeTotal(plan);
  }
}
