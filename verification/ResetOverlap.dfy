/**
 A reply being applied, and one reset, in every interleaving of their
 statements.  A reset clears the ledger first, then the money, then the clock.
 */
module ResetOverlap {
  import opened Ledger
  import opened UserModel
  import opened Statements
  import opened Serial
  import opened ServerRuns
  import opened Overlap

  /** The clock once the reply has moved it, if the reset's store of it came after `at` statements. */
  function Cut(c: int, at: nat): int { if at == 0 then STEP else if at == 1 then c + STEP else 0 }

  function ResetClock(c: int, a: nat, at: seq<nat>): int {
    if |at| < 3 then if a >= 2 then c + STEP else c
    else if a >= 2 then Cut(c, at[2])
    else 0
  }

  function ResetLoaded(m: int, at: seq<nat>): int { if |at| >= 2 && at[1] <= 2 then 0 else m }

  function ResetMoney(m: int, n: nat, a: nat, at: seq<nat>): int {
    if |at| >= 2 && (a < 4 || at[1] >= 4) then 0
    else if a >= 4 then ResetLoaded(m, at) + n
    else m
  }

  /** The clock run `j` is stamped with. */
  function StampedAt(c: int, at: seq<nat>, j: nat): int {
    if |at| == 3 && at[2] <= 5 + j then Cut(c, at[2]) else c + STEP
  }

  function Recs(c: int, runs: seq<Entry>, at: seq<nat>): seq<Record> {
    seq(|runs|, j requires 0 <= j < |runs| => Record(StampedAt(c, at, j) + runs[j].time, runs[j].count, 0))
  }

  function HourRecs(c: int, runs: seq<Entry>, at: seq<nat>): seq<Record> {
    seq(|runs|, j requires 0 <= j < |runs| => Record((StampedAt(c, at, j) + runs[j].time) % HOUR, runs[j].count, 0))
  }

  function ResetLedger(l: seq<Record>, recs: seq<Record>, a: nat, at: seq<nat>): seq<Record>
    requires Posted(a) <= |recs| && (at != [] ==> at[0] <= a)
  {
    if at == [] then l + recs[..Posted(a)] else recs[Posted(at[0])..Posted(a)]
  }

  function ResetUser(v: User, n: nat, runs: seq<Entry>, p: Progress): User
    requires Posted(p.a) <= |runs| && (p.at != [] ==> p.at[0] <= p.a)
  {
    v.(timePast := ResetClock(v.timePast, p.a, p.at),
       money := ResetMoney(v.money, n, p.a, p.at),
       stageMoney := v.stageMoney + if p.a >= 5 then n else 0,
       ledger := ResetLedger(v.ledger, Recs(v.timePast, runs, p.at), p.a, p.at),
       stage := v.stage + HourRecs(v.timePast, runs, p.at)[..Posted(p.a)])
  }

  function ResetRegs(v: User, p: Progress): Regs {
    Regs(if p.a == 0 then 0 else if |p.at| == 3 && p.at[2] == 0 then 0 else v.timePast,
         if p.a >= 3 then ResetLoaded(v.money, p.at) else 0)
  }

  function ResetOp(b: nat): Op { if b == 0 then ClearLedger else if b == 1 then ClearMoney else ClearClock }

  // ------------------------------------------------------------------ one statement

  /** Records already posted keep the clock they were posted at. */
  lemma RecsKeep(c: int, runs: seq<Entry>, p: Progress)
    requires Fits(runs, p) && |p.at| < 3
    ensures var at', k := p.at + [p.a], Posted(p.a);
            && Recs(c, runs, at')[..k] == Recs(c, runs, p.at)[..k]
            && HourRecs(c, runs, at')[..k] == HourRecs(c, runs, p.at)[..k]
  {
    forall j | 0 <= j < Posted(p.a) ensures StampedAt(c, p.at + [p.a], j) == StampedAt(c, p.at, j) { }
  }

  lemma ResetLedgerTheirs(l: seq<Record>, c: int, runs: seq<Entry>, p: Progress)
    requires Fits(runs, p) && |p.at| < 3
    ensures ResetLedger(l, Recs(c, runs, p.at + [p.a]), p.a, p.at + [p.a]) ==
            if p.at == [] then [] else ResetLedger(l, Recs(c, runs, p.at), p.a, p.at)
  {
    var k := Posted(p.a);
    RecsKeep(c, runs, p);
    if p.at != [] {
      var q := Posted(p.at[0]);
      assert forall r: seq<Record> | |r| == |runs| :: r[q..k] == r[..k][q..];
    }
  }

  lemma ResetTheirs(v: User, n: nat, runs: seq<Entry>, p: Progress)
    requires Fits(runs, p) && |p.at| < 3
    ensures var u, p', op := ResetUser(v, n, runs, p), p.(at := p.at + [p.a]), ResetOp(|p.at|);
            && Effect(u, BLANK, op) == ResetUser(v, n, runs, p')
            && Loaded(u, BLANK, op) == BLANK
            && ResetRegs(v, p') == ResetRegs(v, p)
  {
    ResetLedgerTheirs(v.ledger, v.timePast, runs, p);
    RecsKeep(v.timePast, runs, p);
  }

  lemma ResetPost(v: User, n: nat, runs: seq<Entry>, p: Progress)
    requires Fits(runs, p) && 5 <= p.a && p.a - 5 < |runs|
    ensures Effect(ResetUser(v, n, runs, p), ResetRegs(v, p), Post(runs[p.a - 5])) ==
            ResetUser(v, n, runs, p.(a := p.a + 1))
  {
    var k, clock := p.a - 5, ResetClock(v.timePast, p.a, p.at);
    assert clock == StampedAt(v.timePast, p.at, k);
    var recs, hours := Recs(v.timePast, runs, p.at), HourRecs(v.timePast, runs, p.at);
    assert Stamp([runs[k]], clock) == [recs[k]];
    assert StampHour([runs[k]], clock) == [hours[k]];
    assert hours[..k] + [hours[k]] == hours[..k + 1];
    if p.at == [] {
      assert recs[..k] + [recs[k]] == recs[..k + 1];
    } else {
      var q := Posted(p.at[0]);
      assert recs[q..k] + [recs[k]] == recs[q..k + 1];
    }
  }

  lemma ResetMine(v: User, n: nat, runs: seq<Entry>, p: Progress)
    requires Fits(runs, p) && (p.a < 5 || p.a - 5 < |runs|)
    ensures var u, p', op := ResetUser(v, n, runs, p), p.(a := p.a + 1), OpFor(n, runs, p.a);
            && Effect(u, ResetRegs(v, p), op) == ResetUser(v, n, runs, p')
            && Loaded(u, ResetRegs(v, p), op) == ResetRegs(v, p')
  {
    if p.a >= 5 { ResetPost(v, n, runs, p); }
  }

  // ------------------------------------------------------------ every interleaving

  function ResetShape(v: User, reply: Reply, p: Progress): Pair
    requires Sane(|Applying(reply)|, 3, p)
  {
    PostedMonotone(reply, p.a, p.a);
    Pair(ResetUser(v, Units(reply), Runs(reply), p), Applying(reply)[p.a..], ResetRegs(v, p),
         RESETTING[|p.at|..], BLANK)
  }

  lemma ResetMyTurn(v: User, reply: Reply, p: Progress)
    requires Sane(|Applying(reply)|, 3, p) && p.a < |Applying(reply)|
    ensures Turn(ResetShape(v, reply, p), true) == ResetShape(v, reply, p.(a := p.a + 1))
  {
    var ops := Applying(reply);
    OpAt(reply, p.a);
    PostedMonotone(reply, p.a, p.a);
    ResetMine(v, Units(reply), Runs(reply), p);
    assert ops[p.a..][0] == ops[p.a] && ops[p.a..][1..] == ops[p.a + 1..];
  }

  lemma ResetTheirTurn(v: User, reply: Reply, p: Progress)
    requires Sane(|Applying(reply)|, 3, p) && |p.at| < 3
    ensures Turn(ResetShape(v, reply, p), false) == ResetShape(v, reply, p.(at := p.at + [p.a]))
  {
    var b := |p.at|;
    PostedMonotone(reply, p.a, p.a);
    ResetTheirs(v, Units(reply), Runs(reply), p);
    assert RESETTING[b..][0] == ResetOp(b) && RESETTING[b..][1..] == RESETTING[b + 1..];
  }

  lemma ResetTurn(v: User, reply: Reply, p: Progress, me: bool)
    requires Sane(|Applying(reply)|, 3, p)
    ensures var p' := Next(|Applying(reply)|, 3, p, me);
            && Sane(|Applying(reply)|, 3, p')
            && Turn(ResetShape(v, reply, p), me) == ResetShape(v, reply, p')
  {
    if me && p.a < |Applying(reply)| {
      ResetMyTurn(v, reply, p);
    } else if !me && |p.at| < 3 {
      ResetTheirTurn(v, reply, p);
    }
  }

  lemma ResetStart(v: User, reply: Reply)
    ensures ResetShape(v, reply, Progress(0, [])) == Begun(v, reply, RESETTING)
  {
    var s := ResetShape(v, reply, Progress(0, []));
    assert s.u.ledger == v.ledger && s.u.stage == v.stage;
    assert s.mine == Applying(reply);
  }

  /** The state of both at every moment of every interleaving. */
  lemma {:induction false} ResetPlay(v: User, reply: Reply, order: seq<bool>)
    ensures var p := Track(|Applying(reply)|, 3, order);
            && Sane(|Applying(reply)|, 3, p)
            && Play(Begun(v, reply, RESETTING), order) == ResetShape(v, reply, p)
  {
    if order == [] {
      ResetStart(v, reply);
    } else {
      var order0, me := order[..|order| - 1], order[|order| - 1];
      ResetPlay(v, reply, order0);
      ResetTurn(v, reply, Track(|Applying(reply)|, 3, order0), me);
    }
  }

  // ------------------------------------------------------------------ serial or not

  /** The money in the end. */
  function MoneyEnd(m: int, reply: Reply, at: seq<nat>): int
    requires |at| == 3
  {
    if !Charges(reply) || at[1] >= 4 then 0 else if at[1] == 3 then m + Units(reply) else Units(reply)
  }

  lemma MoneyEndIs(m: int, reply: Reply, at: seq<nat>)
    requires |at| == 3 && Sane(|Applying(reply)|, 3, Progress(|Applying(reply)|, at))
    ensures ResetMoney(m, Units(reply), |Applying(reply)|, at) == MoneyEnd(m, reply, at)
  {
  }

  /** Nothing the reply wrote to clock, money and ledger is left. */
  predicate Swallowed(m: int, reply: Reply, at: seq<nat>)
    requires |at| == 3
  {
    at[2] >= 2 && Posted(at[0]) == |Runs(reply)| && MoneyEnd(m, reply, at) == 0
  }

  /** The reset comes before the clock is loaded and opens no other hour, or it finds the clock at zero, or it wins. */
  ghost predicate Harmless(u: User, reply: Reply, at: seq<nat>)
    requires Consults(u) && |at| == 3
  {
    || (at[2] == 0 && SameHour(Guarded(Opened(u)), WasReset(u)))
    || (at[2] == 1 && u.timePast == 0)
    || Swallowed(u.money, reply, at)
  }

  /** The end of an interleaving with `at`. */
  function ResetEnd(v: User, reply: Reply, at: seq<nat>): User
    requires Sane(|Applying(reply)|, 3, Progress(|Applying(reply)|, at))
  {
    ResetShape(v, reply, Progress(|Applying(reply)|, at)).u
  }

  /** The same, field by field. */
  function EndOf(v: User, reply: Reply, at: seq<nat>): User
    requires |at| == 3 && Posted(at[0]) <= |Runs(reply)|
  {
    v.(timePast := Cut(v.timePast, at[2]), money := MoneyEnd(v.money, reply, at),
       stageMoney := v.stageMoney + Units(reply),
       ledger := Recs(v.timePast, Runs(reply), at)[Posted(at[0])..],
       stage := v.stage + HourRecs(v.timePast, Runs(reply), at))
  }

  lemma EndIs(v: User, reply: Reply, at: seq<nat>)
    requires !Silent(reply) && |at| == 3 && Sane(|Applying(reply)|, 3, Progress(|Applying(reply)|, at))
    ensures Posted(at[0]) <= |Runs(reply)|
    ensures ResetEnd(v, reply, at) == EndOf(v, reply, at)
  {
    var n, runs := |Applying(reply)|, Runs(reply);
    MoneyEndIs(v.money, reply, at);
    PostedMonotone(reply, at[0], n);
    assert Posted(n) == |runs|;
    var recs, hours := Recs(v.timePast, runs, at), HourRecs(v.timePast, runs, at);
    assert recs[Posted(at[0])..|runs|] == recs[Posted(at[0])..] && hours[..|runs|] == hours;
  }

  lemma StampsEqual(c: int, runs: seq<Entry>, at: seq<nat>, clock: int)
    requires forall j | 0 <= j < |runs| :: StampedAt(c, at, j) == clock
    ensures Recs(c, runs, at) == Stamp(runs, clock) && HourRecs(c, runs, at) == StampHour(runs, clock)
  {
  }

  /** The reset's last statement comes before the reply's clock is stored. */
  lemma EarlyEnd(v: User, reply: Reply, at: seq<nat>)
    requires !Silent(reply) && |at| == 3 && at[0] <= at[1] <= at[2] && at[2] <= 1
    ensures EndOf(v, reply, at) == Handled(WasReset(v).(timePast := Cut(v.timePast, at[2]) - STEP), reply)
  {
    var runs, clock := Runs(reply), Cut(v.timePast, at[2]);
    StampsEqual(v.timePast, runs, at, clock);
    HandledIs(WasReset(v).(timePast := clock - STEP), reply);
    assert Stamp(runs, clock)[0..] == Stamp(runs, clock) == [] + Stamp(runs, clock);
  }

  lemma SameClock(u: User)
    requires Consults(u) && u.timePast == 0
    ensures SameHour(Guarded(Opened(u)), WasReset(u))
  {
  }

  /** A request after a reset ends at minute ten, or is stuck and leaves nothing. */
  lemma AfterReset(u: User, reply: Reply)
    requires !Silent(reply)
    ensures var v := Requested(WasReset(u), reply);
            v.timePast == STEP || (v.timePast == 0 && v.money == 0 && v.ledger == [])
  {
  }

  lemma EarlyIff(u: User, reply: Reply, at: seq<nat>)
    requires Consults(u) && u.timePast >= 0 && !Silent(reply) && |at| == 3 && at[0] <= at[1] <= at[2] <= 1
    ensures var end := EndOf(Opened(u), reply, at);
            end == Requested(WasReset(u), reply) || end == WasReset(Requested(u, reply)) <==> Harmless(u, reply, at)
  {
    EarlyEnd(Opened(u), reply, at);
    AfterReset(u, reply);
    if at[2] == 0 || u.timePast == 0 {
      if u.timePast == 0 { SameClock(u); }
      assert WasReset(Opened(u)).(timePast := 0) == WasReset(Opened(u));
      ResetRaceIff(u, reply);
    } else {
      assert EndOf(Opened(u), reply, at).timePast == u.timePast + STEP;
    }
  }

  /** All records were posted before the reset began. */
  lemma AllBefore(c: int, runs: seq<Entry>, at: seq<nat>)
    requires |at| == 3 && at[0] <= at[2] && Posted(at[0]) == |runs|
    ensures HourRecs(c, runs, at) == StampHour(runs, c + STEP)
  {
    forall j | 0 <= j < |runs| ensures StampedAt(c, at, j) == c + STEP { assert at[0] == 5 + |runs|; }
    StampsEqual(c, runs, at, c + STEP);
  }

  lemma ResetHandled(v: User, reply: Reply)
    requires !Silent(reply)
    ensures WasReset(Handled(v, reply)) ==
            v.(timePast := 0, money := 0, stageMoney := v.stageMoney + Units(reply), ledger := [],
               stage := v.stage + StampHour(Runs(reply), v.timePast + STEP))
  {
    HandledIs(v, reply);
  }

  /** The reset's last statement comes after it: what is left of the ledger are the records posted since. */
  lemma LateLedger(v: User, reply: Reply, at: seq<nat>)
    requires |at| == 3 && Posted(at[0]) <= |Runs(reply)|
    ensures EndOf(v, reply, at).ledger == [] <==> Posted(at[0]) == |Runs(reply)|
  {
    assert |Recs(v.timePast, Runs(reply), at)[Posted(at[0])..]| == |Runs(reply)| - Posted(at[0]);
  }

  lemma LateSame(v: User, reply: Reply, at: seq<nat>)
    requires !Silent(reply) && |at| == 3 && at[0] <= at[2] && Swallowed(v.money, reply, at)
    ensures EndOf(v, reply, at) == WasReset(Handled(v, reply))
  {
    AllBefore(v.timePast, Runs(reply), at);
    LateLedger(v, reply, at);
    ResetHandled(v, reply);
  }

  lemma LateIff(u: User, reply: Reply, at: seq<nat>)
    requires Consults(u) && !Silent(reply)
    requires |at| == 3 && at[0] <= at[2] && at[2] >= 2 && Posted(at[0]) <= |Runs(reply)|
    ensures var end := EndOf(Opened(u), reply, at);
            end == Requested(WasReset(u), reply) || end == WasReset(Requested(u, reply)) <==> Harmless(u, reply, at)
  {
    var end := EndOf(Opened(u), reply, at);
    LateLedger(Opened(u), reply, at);
    AfterReset(u, reply);
    assert end.timePast == 0 && end.money == MoneyEnd(u.money, reply, at);
    if Swallowed(u.money, reply, at) { LateSame(Opened(u), reply, at); }
  }

  lemma {:induction false} RecSends(l: seq<Record>, runs: seq<Entry>)
    requires |l| == |runs| && forall j | 0 <= j < |l| :: l[j].send == runs[j].count && l[j].failed == 0
    ensures Sends(l) == Total(runs) && Fails(l) == 0
  {
    if l == [] {
    } else {
      RecSends(l[..|l| - 1], runs[..|l| - 1]);
    }
  }

  /** Money against ledger in the end: a charge without its records, or records without their charge. */
  lemma ResetExcess(v: User, reply: Reply, at: seq<nat>)
    requires |at| == 3 && Posted(at[0]) <= |Runs(reply)|
    ensures Excess(EndOf(v, reply, at)) == MoneyEnd(v.money, reply, at) - Total(Runs(reply)[Posted(at[0])..])
  {
    RecSends(EndOf(v, reply, at).ledger, Runs(reply)[Posted(at[0])..]);
  }

  /** One of the two orders or not, and how far money and ledger are apart. */
  ghost predicate ResetOutcome(u: User, reply: Reply, at: seq<nat>, end: User)
    requires Consults(u) && |at| == 3
  {
    && (end == Requested(WasReset(u), reply) || end == WasReset(Requested(u, reply)) <==> Harmless(u, reply, at))
    && Posted(at[0]) <= |Runs(reply)|
    && Excess(end) == MoneyEnd(u.money, reply, at) - Total(Runs(reply)[Posted(at[0])..])
  }

  /**
   A reply and a reset in every interleaving of their statements: exactly when
   the outcome is that of one of the two orders, and how far money and ledger
   are apart in the end.
   */
  lemma ResetOverlapIff(u: User, reply: Reply, order: seq<bool>)
    requires Consults(u) && u.timePast >= 0 && !Silent(reply) && Finished(reply, order)
    ensures ResetOutcome(u, reply, Track(|Applying(reply)|, 3, order).at,
                         Play(Begun(Opened(u), reply, RESETTING), order).u)
  {
    var p, v := Track(|Applying(reply)|, 3, order), Opened(u);
    ResetPlay(v, reply, order);
    assert p == Progress(|Applying(reply)|, p.at);
    EndIs(v, reply, p.at);
    assert Play(Begun(v, reply, RESETTING), order).u == EndOf(v, reply, p.at);
    ResetExcess(v, reply, p.at);
    if p.at[2] <= 1 { EarlyIff(u, reply, p.at); } else { LateIff(u, reply, p.at); }
  }
}
