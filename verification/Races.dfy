/**
 Requests that an unlocked handler overlaps, in the schedules of `Registry`:
 every interleaving of two handlers comes about, and examples of each kind of
 damage.
 */
module Races {
  import opened Wire
  import opened UserModel
  import opened Statements
  import opened Serial
  import opened Registry
  import S = ServerRuns
  import O = Overlap
  import RO = ResetOverlap

  lemma RunSnoc(m: nat, sched: seq<(nat, Act)>, t: nat, a: Act)
    requires Enabled(Run(m, sched), t, a)
    ensures Run(m, sched + [(t, a)]) == Next(Run(m, sched), t, a)
  {
    assert (sched + [(t, a)])[..|sched|] == sched;
  }

  lemma RunBlocked(m: nat, sched: seq<(nat, Act)>, t: nat, a: Act)
    requires !Enabled(Run(m, sched), t, a)
    ensures Run(m, sched + [(t, a)]) == Run(m, sched)
  {
    assert (sched + [(t, a)])[..|sched|] == sched;
  }

  // ------------------------------------------------------------ two at work on one user

  /** The schedule goes on with statements of the two threads in the given order. */
  function With(sched: seq<(nat, Act)>, order: seq<bool>, t: nat, k: nat): seq<(nat, Act)> {
    if order == [] then sched
    else With(sched, order[..|order| - 1], t, k) + [(if order[|order| - 1] then t else k, Go)]
  }

  /** The hub runs the pair: thread `t` is the request, thread `k` the handler without a lock. */
  ghost predicate InStep(h: Hub, t: nat, k: nat, i: nat, s: O.Pair) {
    && t < |h.pcs| && k < |h.pcs| && t != k && i < |h.users| && i < |h.locks|
    && h.users[i] == s.u
    && (if s.mine == [] then h.pcs[t].Free?
        else h.pcs[t].Writing? && h.pcs[t].i == i && h.pcs[t].todo == s.mine && h.pcs[t].regs == s.regs)
    && (if s.theirs == [] then h.pcs[k].Free? else h.pcs[k] == Loose(i, s.theirs, s.theirRegs))
  }

  function Stepped(h: Hub, t: nat): Hub { if Enabled(h, t, Go) then Next(h, t, Go) else h }

  lemma MyTurn(h: Hub, t: nat, k: nat, i: nat, s: O.Pair)
    requires InStep(h, t, k, i, s)
    ensures InStep(Stepped(h, t), t, k, i, O.Turn(s, true))
  {
  }

  lemma TheirTurn(h: Hub, t: nat, k: nat, i: nat, s: O.Pair)
    requires InStep(h, t, k, i, s)
    ensures InStep(Stepped(h, k), t, k, i, O.Turn(s, false))
  {
  }

  lemma OneMore(m: nat, sched: seq<(nat, Act)>, t: nat, k: nat, i: nat, s: O.Pair, me: bool)
    requires InStep(Run(m, sched), t, k, i, s)
    ensures InStep(Run(m, sched + [(if me then t else k, Go)]), t, k, i, O.Turn(s, me))
  {
    var h, who := Run(m, sched), if me then t else k;
    if me { MyTurn(h, t, k, i, s); } else { TheirTurn(h, t, k, i, s); }
    if Enabled(h, who, Go) { RunSnoc(m, sched, who, Go); } else { RunBlocked(m, sched, who, Go); }
  }

  lemma {:induction false} Interleaved(m: nat, sched: seq<(nat, Act)>, t: nat, k: nat, i: nat, s: O.Pair,
                                       order: seq<bool>)
    requires InStep(Run(m, sched), t, k, i, s)
    ensures InStep(Run(m, With(sched, order, t, k)), t, k, i, O.Play(s, order))
  {
    if order == [] {
    } else {
      var order0, me := order[..|order| - 1], order[|order| - 1];
      Interleaved(m, sched, t, k, i, s, order0);
      OneMore(m, With(sched, order0, t, k), t, k, i, O.Play(s, order0), me);
    }
  }

  /** A request waits for its answer and nothing has disturbed it; thread `k` is free. */
  ghost predicate Waiting(h: Hub, t: nat, k: nat) {
    && t < |h.pcs| && k < |h.pcs| && t != k && h.pcs[k].Free?
    && h.pcs[t].Consulting? && h.pcs[t].base == h.pcs[t].start
  }

  lemma WaitingOpened(h: Hub, t: nat, k: nat)
    requires SectionsOk(h) && Waiting(h, t, k)
    ensures var pc := h.pcs[t];
            Inside(h, pc) && Consults(pc.start) && h.users[pc.i] == Opened(pc.start)
  {
    assert SectionOk(h, t);
    var pc := h.pcs[t];
    KeptHour(pc.start, pc.base, Guarded(h.users[pc.i]));
    SameHourOpened(Guarded(h.users[pc.i]), pc.base);
  }

  function Unlocking(theirs: Act): seq<Op>
    requires theirs.BeginReset? || theirs.BeginReport?
  {
    if theirs.BeginReset? then RESETTING else Reporting(theirs.group, theirs.rank, theirs.carry)
  }

  /** From there, every interleaving of the reply's statements with the other handler's comes about. */
  lemma {:induction false} OverlapReached(m: nat, sched: seq<(nat, Act)>, t: nat, k: nat, reply: Reply, theirs: Act,
                                          order: seq<bool>)
    requires Waiting(Run(m, sched), t, k) && !Silent(reply)
    requires (theirs.BeginReset? || theirs.BeginReport?) && theirs.i == Run(m, sched).pcs[t].i
    ensures var pc := Run(m, sched).pcs[t];
            var h := Run(m, With(sched + [(t, Receive(reply))] + [(k, theirs)], order, t, k));
            && Consults(pc.start) && pc.i < |h.users|
            && h.users[pc.i] == O.Play(O.Begun(Opened(pc.start), reply, Unlocking(theirs)), order).u
  {
    var h := Run(m, sched);
    SectionsHold(m, sched);
    WaitingOpened(h, t, k);
    var i, s := h.pcs[t].i, O.Begun(Opened(h.pcs[t].start), reply, Unlocking(theirs));
    RunSnoc(m, sched, t, Receive(reply));
    RunSnoc(m, sched + [(t, Receive(reply))], k, theirs);
    var sched2 := sched + [(t, Receive(reply))] + [(k, theirs)];
    assert InStep(Run(m, sched2), t, k, i, s);
    Interleaved(m, sched2, t, k, i, s, order);
  }

  // -------------------------------------------------------------- clocks never go below zero

  ghost predicate ClockOk(h: Hub, k: nat)
    requires k < |h.pcs|
  {
    var pc := h.pcs[k];
    && (Requesting(pc) ==> pc.start.timePast >= 0)
    && (pc.Writing? || pc.Loose? ==> pc.regs.clock >= 0)
  }

  ghost predicate ClocksOk(h: Hub) {
    (forall i | 0 <= i < |h.users| :: h.users[i].timePast >= 0) && (forall k | 0 <= k < |h.pcs| :: ClockOk(h, k))
  }

  lemma GoClocks(h: Hub, t: nat)
    requires ClocksOk(h) && Enabled(h, t, Go)
    ensures ClocksOk(Next(h, t, Go))
  {
    var h' := Next(h, t, Go);
    assert ClockOk(h, t);
    forall k | 0 <= k < |h.pcs| ensures ClockOk(h', k) { assert ClockOk(h, k); }
  }

  lemma StepClocks(h: Hub, t: nat, a: Act)
    requires ClocksOk(h) && Enabled(h, t, a) && !a.Go?
    ensures ClocksOk(Next(h, t, a))
  {
    var h' := Next(h, t, a);
    assert ClockOk(h, t);
    forall k | 0 <= k < |h.pcs| ensures ClockOk(h', k) { assert ClockOk(h, k); }
  }

  lemma {:induction false} ClocksAlways(m: nat, sched: seq<(nat, Act)>)
    ensures ClocksOk(Run(m, sched))
  {
    if sched == [] {
    } else {
      var h := Run(m, sched[..|sched| - 1]);
      var (t, a) := sched[|sched| - 1];
      ClocksAlways(m, sched[..|sched| - 1]);
      if Enabled(h, t, a) {
        if a.Go? { GoClocks(h, t); } else { StepClocks(h, t, a); }
      }
    }
  }

  // ------------------------------------------------------------------ the two theorems

  /** Any schedule, then a reply and a report in any interleaving. */
  lemma ReportRace(m: nat, sched: seq<(nat, Act)>, t: nat, k: nat, reply: Reply, report: Act, order: seq<bool>)
    requires Waiting(Run(m, sched), t, k) && !Silent(reply) && O.Finished(reply, order)
    requires report.BeginReport? && report.i == Run(m, sched).pcs[t].i
    ensures var pc := Run(m, sched).pcs[t];
            var h := Run(m, With(sched + [(t, Receive(reply))] + [(k, report)], order, t, k));
            && pc.i < |h.users|
            && O.ReportOutcome(reply, O.Track(|Applying(reply)|, 3, order).at,
                               Requested(Reported(pc.start, report.group, report.rank, report.carry), reply),
                               Reported(Requested(pc.start, reply), report.group, report.rank, report.carry),
                               h.users[pc.i])
  {
    OverlapReached(m, sched, t, k, reply, report, order);
    O.ReportOverlapIff(Run(m, sched).pcs[t].start, reply, Mark(report.group, report.rank, report.carry), order);
  }

  /** Any schedule, then a reply and a reset in any interleaving. */
  lemma ResetRace(m: nat, sched: seq<(nat, Act)>, t: nat, k: nat, reply: Reply, order: seq<bool>)
    requires Waiting(Run(m, sched), t, k) && !Silent(reply) && O.Finished(reply, order)
    ensures var pc := Run(m, sched).pcs[t];
            var h := Run(m, With(sched + [(t, Receive(reply))] + [(k, BeginReset(pc.i))], order, t, k));
            && Consults(pc.start) && pc.i < |h.users|
            && RO.ResetOutcome(pc.start, reply, O.Track(|Applying(reply)|, 3, order).at, h.users[pc.i])
  {
    var pc := Run(m, sched).pcs[t];
    OverlapReached(m, sched, t, k, reply, BeginReset(pc.i), order);
    ClocksAlways(m, sched);
    assert ClockOk(Run(m, sched), t);
    RO.ResetOverlapIff(pc.start, reply, order);
  }

  // ---------------------------------------------------------------------- examples

  function Mine(n: nat): seq<bool> { seq(n, _ => true) }

  lemma TrackSnoc(n: nat, k: nat, order: seq<bool>, me: bool)
    ensures O.Track(n, k, order + [me]) == O.Next(n, k, O.Track(n, k, order), me)
  {
    assert (order + [me])[..|order|] == order;
  }

  lemma {:induction false} TrackMine(n: nat, order: seq<bool>, c: nat)
    requires O.Track(n, 3, order).a + c <= n
    ensures var p := O.Track(n, 3, order); O.Track(n, 3, order + Mine(c)) == p.(a := p.a + c)
  {
    if c == 0 {
      assert order + Mine(c) == order;
    } else {
      TrackMine(n, order, c - 1);
      assert order + Mine(c) == order + Mine(c - 1) + [true];
      TrackSnoc(n, 3, order + Mine(c - 1), true);
    }
  }

  /** Then a statement of the other handler, and `c` more of the reply. */
  function Then(order: seq<bool>, c: nat): seq<bool> { order + [false] + Mine(c) }

  /** The other handler's statements after `x`, `y` and `z` of the `n` of the reply. */
  function Placed(n: nat, x: nat, y: nat, z: nat): seq<bool>
    requires x <= y <= z <= n
  {
    Then(Then(Then(Mine(x), y - x), z - y), n - z)
  }

  lemma TrackThen(n: nat, order: seq<bool>, p: O.Progress, c: nat, p': O.Progress)
    requires O.Track(n, 3, order) == p && |p.at| < 3 && p.a + c <= n && p' == O.Progress(p.a + c, p.at + [p.a])
    ensures O.Track(n, 3, Then(order, c)) == p'
  {
    TrackSnoc(n, 3, order, false);
    TrackMine(n, order + [false], c);
  }

  lemma TrackStart(n: nat, x: nat)
    requires x <= n
    ensures O.Track(n, 3, Mine(x)) == O.Progress(x, [])
  {
    assert [] + Mine(x) == Mine(x);
    TrackMine(n, [], x);
  }

  /** Every three places in order can be had. */
  lemma PlacedAt(n: nat, x: nat, y: nat, z: nat)
    requires x <= y <= z <= n
    ensures O.Track(n, 3, Placed(n, x, y, z)) == O.Progress(n, [x, y, z])
  {
    var a := Mine(x);
    TrackStart(n, x);
    var b := Then(a, y - x);
    TrackThen(n, a, O.Progress(x, []), y - x, O.Progress(y, [x]));
    var c := Then(b, z - y);
    TrackThen(n, b, O.Progress(y, [x]), z - y, O.Progress(z, [x, y]));
    TrackThen(n, c, O.Progress(z, [x, y]), n - z, O.Progress(n, [x, y, z]));
  }

  /** A user nobody is at, and two threads with nothing to do. */
  ghost predicate Calm(h: Hub, i: nat) {
    |h.pcs| == 2 && h.pcs[0].Free? && h.pcs[1].Free? && i < |h.users| && i < |h.locks| && h.locks[i].None?
  }

  /** A request in the middle of an hour, as far as asking the model. */
  lemma AsksInHour(m: nat, sched: seq<(nat, Act)>, i: nat) returns (asked: seq<(nat, Act)>)
    requires Calm(Run(m, sched), i) && Consults(Run(m, sched).users[i]) && !Boundary(Run(m, sched).users[i])
    ensures asked == sched + [(0, Enter(i))] + [(0, Test)] + [(0, Gate)]
    ensures Waiting(Run(m, asked), 0, 1) && Run(m, asked).pcs[0] ==
            Consulting(i, Run(m, sched).users[i], Run(m, sched).users[i])
  {
    RunSnoc(m, sched, 0, Enter(i));
    RunSnoc(m, sched + [(0, Enter(i))], 0, Test);
    RunSnoc(m, sched + [(0, Enter(i))] + [(0, Test)], 0, Gate);
    asked := sched + [(0, Enter(i))] + [(0, Test)] + [(0, Gate)];
  }

  /** At an hour's start the hour is opened in between. */
  lemma AsksAtStart(m: nat, sched: seq<(nat, Act)>, i: nat) returns (asked: seq<(nat, Act)>)
    requires Calm(Run(m, sched), i) && Consults(Run(m, sched).users[i]) && Boundary(Run(m, sched).users[i])
    ensures var h, h' := Run(m, sched), Run(m, asked);
            && h'.pcs == [Consulting(i, h.users[i], h.users[i]), Free]
            && h'.users == h.users[i := Opened(h.users[i])] && h'.locks == h.locks[i := Some(0)]
  {
    var s1, s2 := sched + [(0, Enter(i))], sched + [(0, Enter(i))] + [(0, Test)];
    RunSnoc(m, sched, 0, Enter(i));
    RunSnoc(m, s1, 0, Test);
    RunSnoc(m, s2, 0, Open);
    OpenedInTime(Run(m, sched).users[i]);
    RunSnoc(m, s2 + [(0, Open)], 0, Gate);
    asked := s2 + [(0, Open)] + [(0, Gate)];
  }

  /** A thread at work on a user and left alone finishes. */
  lemma {:induction false} FinishesAlone(m: nat, sched: seq<(nat, Act)>, i: nat) returns (done: seq<(nat, Act)>)
    requires var h := Run(m, sched);
             && |h.pcs| == 2 && h.pcs[1].Free? && h.pcs[0].Writing? && h.pcs[0].i == i && Inside(h, h.pcs[0])
             && h.pcs[0].todo != []
    ensures var h, h' := Run(m, sched), Run(m, done);
            && h'.pcs == [Free, Free] && h'.locks == h.locks[i := None]
            && h'.users == h.users[i := Finish(h.users[i], h.pcs[0].regs, h.pcs[0].todo)]
    decreases |Run(m, sched).pcs[0].todo|
  {
    RunSnoc(m, sched, 0, Go);
    done := sched + [(0, Go)];
    if |Run(m, sched).pcs[0].todo| == 1 {
    } else {
      done := FinishesAlone(m, done, i);
    }
  }

  lemma Registered(plan: seq<real>) returns (sched: seq<(nat, Act)>)
    ensures Run(2, sched) == Hub([Fresh(plan)], [None], None, 1, [Free, Free])
  {
    var none: seq<(nat, Act)> := [];
    assert Run(2, none).pcs == [Free, Free];
    RunSnoc(2, none, 0, BeginRegister);
    RunSnoc(2, none + [(0, BeginRegister)], 0, AppendUser(plan));
    RunSnoc(2, none + [(0, BeginRegister)] + [(0, AppendUser(plan))], 0, AppendLock);
    RunSnoc(2, none + [(0, BeginRegister)] + [(0, AppendUser(plan))] + [(0, AppendLock)], 0, Count);
    sched := none + [(0, BeginRegister)] + [(0, AppendUser(plan))] + [(0, AppendLock)] + [(0, Count)];
  }

  lemma FirstRequest(budget: real, entries: seq<int>)
    requires budget > 0.0
    ensures Consults(Fresh([budget])) && Boundary(Fresh([budget]))
    ensures var u := Handled(Opened(Fresh([budget])), Ints(entries));
            && u == Requested(Fresh([budget]), Ints(entries))
            && u.timePast == STEP && u.timeRecord == 0 && u.stageMoney == u.money == |entries|
            && u.plan == [budget] && u.stageTotal == budget
  {
  }

  lemma HourUnderWay(u: User)
    requires u.timePast == STEP && u.timeRecord == 0 && u.plan != [] && 0.0 < u.stageMoney as real < u.stageTotal
    ensures Consults(u) && !Boundary(u) && !SameHour(Guarded(Opened(u)), WasReset(u))
  {
    assert !Boundary(u) && Boundary(WasReset(u));
    assert Opened(WasReset(u)).stageMoney == 0;
  }

  /** A registered user whose first request left part of its first hour's budget. */
  lemma BusyReached(budget: real, first: seq<int>) returns (sched: seq<(nat, Act)>, u: User)
    requires 0 < |first| && |first| as real < budget
    ensures u == Requested(Fresh([budget]), Ints(first)) && u.money == |first|
    ensures Run(2, sched).users == [u] && Calm(Run(2, sched), 0)
    ensures Consults(u) && !Boundary(u) && !SameHour(Guarded(Opened(u)), WasReset(u))
  {
    var start := Registered([budget]);
    FirstRequest(budget, first);
    var asked := AsksAtStart(2, start, 0);
    RunSnoc(2, asked, 0, Receive(Ints(first)));
    ApplyingAlone(Opened(Fresh([budget])), Ints(first));
    sched := FinishesAlone(2, asked + [(0, Receive(Ints(first)))], 0);
    u := Run(2, sched).users[0];
    HourUnderWay(u);
  }

  /** The schedule of the examples: a second request is answered while another handler is at work. */
  function Second(before: seq<(nat, Act)>, reply: Reply, theirs: Act, order: seq<bool>): seq<(nat, Act)> {
    With(before + [(0, Enter(0))] + [(0, Test)] + [(0, Gate)] + [(0, Receive(reply))] + [(1, theirs)], order, 0, 1)
  }

  /** A user in the middle of an hour, with nobody at it. */
  ghost predicate Ready(h: Hub, u: User) { Calm(h, 0) && h.users == [u] && Consults(u) && !Boundary(u) }

  lemma SecondReset(before: seq<(nat, Act)>, u: User, reply: Reply, x: nat, y: nat, z: nat)
    requires Ready(Run(2, before), u) && !Silent(reply) && x <= y <= z <= |Applying(reply)|
    ensures var h := Run(2, Second(before, reply, BeginReset(0), Placed(|Applying(reply)|, x, y, z)));
            0 < |h.users| && RO.ResetOutcome(u, reply, [x, y, z], h.users[0])
  {
    var asked := AsksInHour(2, before, 0);
    PlacedAt(|Applying(reply)|, x, y, z);
    ResetRace(2, asked, 0, 1, reply, Placed(|Applying(reply)|, x, y, z));
  }

  lemma SecondReport(before: seq<(nat, Act)>, u: User, reply: Reply, report: Act, x: nat, y: nat, z: nat)
    requires Ready(Run(2, before), u) && !Silent(reply) && x <= y <= z <= |Applying(reply)|
    requires report.BeginReport? && report.i == 0
    ensures var h := Run(2, Second(before, reply, report, Placed(|Applying(reply)|, x, y, z)));
            && 0 < |h.users|
            && O.ReportOutcome(reply, [x, y, z], Requested(Reported(u, report.group, report.rank, report.carry), reply),
                               Reported(Requested(u, reply), report.group, report.rank, report.carry), h.users[0])
  {
    var asked := AsksInHour(2, before, 0);
    PlacedAt(|Applying(reply)|, x, y, z);
    ReportRace(2, asked, 0, 1, reply, report, Placed(|Applying(reply)|, x, y, z));
  }

  lemma OtherHour(u: User, reply: Reply, end: User)
    requires Consults(u) && !SameHour(Guarded(Opened(u)), WasReset(u)) && RO.ResetOutcome(u, reply, [0, 0, 0], end)
    ensures end != Requested(WasReset(u), reply) && end != WasReset(Requested(u, reply))
  {
    assert !RO.Harmless(u, reply, [0, 0, 0]);
  }

  /**
   One user, two threads, for every budget the first reply does not use up and
   every second reply that can be decoded: a reset falls between gate and
   reply, and the outcome is that of neither order.
   */
  lemma RaceExample(budget: real, first: seq<int>, reply: Reply) returns (u: User, before: seq<(nat, Act)>)
    requires 0 < |first| && |first| as real < budget && !Silent(reply)
    ensures Ready(Run(2, before), u)
    ensures var h := Run(2, Second(before, reply, BeginReset(0), Placed(|Applying(reply)|, 0, 0, 0)));
            && 0 < |h.users|
            && h.users[0] != Requested(WasReset(u), reply) && h.users[0] != WasReset(Requested(u, reply))
  {
    before, u := BusyReached(budget, first);
    SecondReset(before, u, reply, 0, 0, 0);
    var order := Placed(|Applying(reply)|, 0, 0, 0);
    OtherHour(u, reply, Run(2, Second(before, reply, BeginReset(0), order)).users[0]);
  }

  lemma InCharge(u: User, second: seq<int>, end: User)
    requires Consults(u) && second != [] && RO.ResetOutcome(u, Ints(second), [3, 3, 3], end)
    ensures S.Excess(end) == u.money
    ensures end != Requested(WasReset(u), Ints(second)) && end != WasReset(Requested(u, Ints(second)))
  {
    var reply := Ints(second);
    S.RunsTotal(reply);
    assert O.Posted(3) == 0 && Runs(reply)[0..] == Runs(reply);
    assert Runs(reply) != [] && !RO.Harmless(u, reply, [3, 3, 3]);
  }

  /**
   The reset falls between load and store of the charge instead: besides, all the
   money of before is back, with nothing in the ledger to show for it.
   */
  lemma ResetInCharge(budget: real, first: seq<int>, second: seq<int>) returns (u: User, before: seq<(nat, Act)>)
    requires 0 < |first| && |first| as real < budget && second != []
    ensures Ready(Run(2, before), u) && u.money == |first|
    ensures var n := |Applying(Ints(second))|;
            n >= 5
            && var h := Run(2, Second(before, Ints(second), BeginReset(0), Placed(n, 3, 3, 3)));
            && 0 < |h.users| && S.Excess(h.users[0]) == u.money
            && h.users[0] != Requested(WasReset(u), Ints(second)) && h.users[0] != WasReset(Requested(u, Ints(second)))
  {
    var reply := Ints(second);
    before, u := BusyReached(budget, first);
    SecondReset(before, u, reply, 3, 3, 3);
    var order := Placed(|Applying(reply)|, 3, 3, 3);
    InCharge(u, second, Run(2, Second(before, reply, BeginReset(0), order)).users[0]);
  }

  lemma BothOrders(u: User, second: seq<int>, group: int, rank: int, carry: int)
    requires Consults(u)
    ensures Requested(Reported(u, group, rank, carry), Ints(second)).money == u.money + |second| - 1
    ensures Reported(Requested(u, Ints(second)), group, rank, carry).money == u.money + |second| - 1
  {
    ReportFirst(u, group, rank, carry, Ints(second));
    O.HandledIs(Reported(Opened(u), group, rank, carry), Ints(second));
    O.HandledIs(Opened(u), Ints(second));
  }

  lemma MoneyOff(reply: Reply, at: seq<nat>, first: User, last: User, end: User)
    requires |at| == 3 && first.money == last.money && O.ReportOutcome(reply, at, first, last, end)
    ensures end.money == first.money + O.ReportOff(reply, at)
  {
  }

  /** The report falls between load and store of the charge and is lost. */
  lemma LostReport(budget: real, first: seq<int>, second: seq<int>, report: Act)
    returns (u: User, before: seq<(nat, Act)>)
    requires 0 < |first| && |first| as real < budget && report.BeginReport? && report.i == 0
    ensures Ready(Run(2, before), u)
    ensures var n := |Applying(Ints(second))|;
            n >= 5
            && var h := Run(2, Second(before, Ints(second), report, Placed(n, 3, 3, 3)));
            && 0 < |h.users| && h.users[0].money == u.money + |second|
            && h.users[0] != Requested(Reported(u, report.group, report.rank, report.carry), Ints(second))
            && h.users[0] != Reported(Requested(u, Ints(second)), report.group, report.rank, report.carry)
  {
    var reply := Ints(second);
    before, u := BusyReached(budget, first);
    SecondReport(before, u, reply, report, 3, 3, 3);
    var order := Placed(|Applying(reply)|, 3, 3, 3);
    BothOrders(u, second, report.group, report.rank, report.carry);
    MoneyOff(reply, [3, 3, 3], Requested(Reported(u, report.group, report.rank, report.carry), reply),
             Reported(Requested(u, reply), report.group, report.rank, report.carry),
             Run(2, Second(before, reply, report, order)).users[0]);
  }

  /** The charge falls between load and store of the report and is lost, all of it. */
  lemma LostCharge(budget: real, first: seq<int>, second: seq<int>, report: Act)
    returns (u: User, before: seq<(nat, Act)>)
    requires 0 < |first| && |first| as real < budget && second != [] && report.BeginReport? && report.i == 0
    ensures Ready(Run(2, before), u)
    ensures var n := |Applying(Ints(second))|;
            n >= 5
            && var h := Run(2, Second(before, Ints(second), report, Placed(n, 0, 0, 4)));
            && 0 < |h.users| && h.users[0].money == u.money - 1
            && h.users[0] != Requested(Reported(u, report.group, report.rank, report.carry), Ints(second))
            && h.users[0] != Reported(Requested(u, Ints(second)), report.group, report.rank, report.carry)
  {
    var reply := Ints(second);
    before, u := BusyReached(budget, first);
    SecondReport(before, u, reply, report, 0, 0, 4);
    var order := Placed(|Applying(reply)|, 0, 0, 4);
    BothOrders(u, second, report.group, report.rank, report.carry);
    MoneyOff(reply, [0, 0, 4], Requested(Reported(u, report.group, report.rank, report.carry), reply),
             Reported(Requested(u, reply), report.group, report.rank, report.carry),
             Run(2, Second(before, reply, report, order)).users[0]);
  }
}
