/**
 A reply being applied under the user's lock, and one unlocked handler, in
 every interleaving of their statements: exactly when the outcome is that of
 one of the two orders, and what is off when it is not.
 */
module Overlap {
  import opened Ledger
  import opened UserModel
  import opened Statements
  import opened Serial
  import opened ServerRuns

  /** Two handlers at work on one user: the request, and the one without the lock. */
  datatype Pair = Pair(u: User, mine: seq<Op>, regs: Regs, theirs: seq<Op>, theirRegs: Regs)

  function Turn(s: Pair, me: bool): Pair {
    if me then
      if s.mine == [] then s
      else s.(u := Effect(s.u, s.regs, s.mine[0]), regs := Loaded(s.u, s.regs, s.mine[0]), mine := s.mine[1..])
    else
      if s.theirs == [] then s
      else s.(u := Effect(s.u, s.theirRegs, s.theirs[0]), theirRegs := Loaded(s.u, s.theirRegs, s.theirs[0]),
              theirs := s.theirs[1..])
  }

  /** `true` is a statement of the request. */
  function Play(s: Pair, order: seq<bool>): Pair {
    if order == [] then s else Turn(Play(s, order[..|order| - 1]), order[|order| - 1])
  }

  function Begun(v: User, reply: Reply, theirs: seq<Op>): Pair { Pair(v, Applying(reply), BLANK, theirs, BLANK) }

  /** How many statements the request has done, and how many it had done at each statement of the other. */
  datatype Progress = Progress(a: nat, at: seq<nat>)

  function Track(n: nat, k: nat, order: seq<bool>): Progress {
    if order == [] then Progress(0, [])
    else Next(n, k, Track(n, k, order[..|order| - 1]), order[|order| - 1])
  }

  /** One more turn; a handler that has finished stays as it is. */
  function Next(n: nat, k: nat, p: Progress, me: bool): Progress {
    if me then if p.a < n then p.(a := p.a + 1) else p
    else if |p.at| < k then p.(at := p.at + [p.a]) else p
  }

  ghost predicate Sane(n: nat, k: nat, p: Progress) {
    p.a <= n && |p.at| <= k && (forall i | 0 <= i < |p.at| :: p.at[i] <= p.a)
    && (forall i, j | 0 <= i < j < |p.at| :: p.at[i] <= p.at[j])
  }

  /** Both handlers have finished. */
  predicate Finished(reply: Reply, order: seq<bool>) {
    var p := Track(|Applying(reply)|, 3, order);
    p.a == |Applying(reply)| && |p.at| == 3
  }

  /** Records posted once `a` statements are done. */
  function Posted(a: nat): nat { if a <= 5 then 0 else a - 5 }

  lemma PostedMonotone(reply: Reply, b: nat, a: nat)
    requires b <= a <= |Applying(reply)|
    ensures Posted(b) <= Posted(a) <= |Runs(reply)|
  {
  }

  // ------------------------------------------------------------------- a report

  /** Money and registers of both, as a function of the progress. */
  function ReportSeen(m: int, n: nat, at: seq<nat>): int { if |at| >= 2 && at[1] >= 4 then m + n else m }

  function ReportLoaded(m: int, at: seq<nat>): int { if |at| == 3 && at[2] <= 2 then m - 1 else m }

  function ReportMoney(m: int, n: nat, a: nat, at: seq<nat>): int {
    if |at| == 3 && (a < 4 || at[2] >= 4) then ReportSeen(m, n, at) - 1
    else if a >= 4 then ReportLoaded(m, at) + n
    else m
  }

  function ReportLedger(l: seq<Record>, recs: seq<Record>, mark: Op, a: nat, at: seq<nat>): seq<Record>
    requires mark.Mark? && Posted(a) <= |recs| && (at != [] ==> at[0] <= a)
  {
    if at == [] then l + recs[..Posted(a)]
    else
      var p := Posted(at[0]);
      Marked(l + recs[..p], mark.group, mark.rank, mark.carry) + recs[p..Posted(a)]
  }

  function ReportUser(v: User, n: nat, runs: seq<Entry>, mark: Op, p: Progress): User
    requires mark.Mark? && Posted(p.a) <= |runs| && (p.at != [] ==> p.at[0] <= p.a)
  {
    var clock := v.timePast + STEP;
    v.(timePast := if p.a >= 2 then clock else v.timePast,
       money := ReportMoney(v.money, n, p.a, p.at),
       stageMoney := v.stageMoney + if p.a >= 5 then n else 0,
       ledger := ReportLedger(v.ledger, Stamp(runs, clock), mark, p.a, p.at),
       stage := v.stage + StampHour(runs, clock)[..Posted(p.a)])
  }

  function ReportRegs(v: User, p: Progress): Regs {
    Regs(if p.a >= 1 then v.timePast else 0, if p.a >= 3 then ReportLoaded(v.money, p.at) else 0)
  }

  function ReportTheirRegs(v: User, n: nat, p: Progress): Regs {
    Regs(0, if |p.at| >= 2 then ReportSeen(v.money, n, p.at) else 0)
  }

  function ReportOp(mark: Op, b: nat): Op { if b == 0 then mark else if b == 1 then LoadMoney else StoreMoney(-1) }

  ghost predicate Fits(runs: seq<Entry>, p: Progress) { Posted(p.a) <= |runs| && Sane(p.a, 3, p) }

  lemma ReportMark(v: User, n: nat, runs: seq<Entry>, mark: Op, p: Progress)
    requires mark.Mark? && Fits(runs, p) && p.at == []
    ensures Effect(ReportUser(v, n, runs, mark, p), ReportTheirRegs(v, n, p), mark) ==
            ReportUser(v, n, runs, mark, p.(at := [p.a]))
  {
    var k := Posted(p.a);
    assert Stamp(runs, v.timePast + STEP)[k..k] == [];
  }

  lemma ReportTheirs(v: User, n: nat, runs: seq<Entry>, mark: Op, p: Progress)
    requires mark.Mark? && Fits(runs, p) && |p.at| < 3
    ensures var u, p', op := ReportUser(v, n, runs, mark, p), p.(at := p.at + [p.a]), ReportOp(mark, |p.at|);
            && Effect(u, ReportTheirRegs(v, n, p), op) == ReportUser(v, n, runs, mark, p')
            && Loaded(u, ReportTheirRegs(v, n, p), op) == ReportTheirRegs(v, n, p')
            && ReportRegs(v, p') == ReportRegs(v, p)
  {
    if p.at == [] {
      ReportMark(v, n, runs, mark, p);
    } else {
      assert (p.at + [p.a])[0] == p.at[0];
    }
  }

  lemma PostStep(l: seq<Record>, clock: int, runs: seq<Entry>, k: nat, p: nat)
    requires p <= k < |runs|
    ensures l + Stamp(runs, clock)[p..k] + Stamp([runs[k]], clock) == l + Stamp(runs, clock)[p..k + 1]
  {
  }

  lemma PostHour(l: seq<Record>, clock: int, runs: seq<Entry>, k: nat)
    requires k < |runs|
    ensures l + StampHour(runs, clock)[..k] + StampHour([runs[k]], clock) == l + StampHour(runs, clock)[..k + 1]
  {
  }

  lemma ReportLedgerStep(l: seq<Record>, clock: int, runs: seq<Entry>, mark: Op, p: Progress)
    requires mark.Mark? && Fits(runs, p) && 5 <= p.a && p.a - 5 < |runs|
    ensures ReportLedger(l, Stamp(runs, clock), mark, p.a, p.at) + Stamp([runs[p.a - 5]], clock) ==
            ReportLedger(l, Stamp(runs, clock), mark, p.a + 1, p.at)
  {
    var recs, k := Stamp(runs, clock), p.a - 5;
    if p.at == [] {
      PostStep(l, clock, runs, k, 0);
      assert recs[0..k] == recs[..k] && recs[0..k + 1] == recs[..k + 1];
    } else {
      var q := Posted(p.at[0]);
      PostStep(Marked(l + recs[..q], mark.group, mark.rank, mark.carry), clock, runs, k, q);
    }
  }

  lemma ReportPost(v: User, n: nat, runs: seq<Entry>, mark: Op, p: Progress)
    requires mark.Mark? && Fits(runs, p) && 5 <= p.a && p.a - 5 < |runs|
    ensures Effect(ReportUser(v, n, runs, mark, p), ReportRegs(v, p), Post(runs[p.a - 5])) ==
            ReportUser(v, n, runs, mark, p.(a := p.a + 1))
  {
    ReportLedgerStep(v.ledger, v.timePast + STEP, runs, mark, p);
    PostHour(v.stage, v.timePast + STEP, runs, p.a - 5);
  }

  lemma ReportMine(v: User, n: nat, runs: seq<Entry>, mark: Op, p: Progress)
    requires mark.Mark? && Fits(runs, p) && (p.a < 5 || p.a - 5 < |runs|)
    ensures var u, p', op := ReportUser(v, n, runs, mark, p), p.(a := p.a + 1), OpFor(n, runs, p.a);
            && Effect(u, ReportRegs(v, p), op) == ReportUser(v, n, runs, mark, p')
            && Loaded(u, ReportRegs(v, p), op) == ReportRegs(v, p')
            && ReportTheirRegs(v, n, p') == ReportTheirRegs(v, n, p)
  {
    if p.a >= 5 { ReportPost(v, n, runs, mark, p); }
  }

  function ReportShape(v: User, reply: Reply, mark: Op, p: Progress): Pair
    requires mark.Mark? && Sane(|Applying(reply)|, 3, p)
  {
    PostedMonotone(reply, p.a, p.a);
    Pair(ReportUser(v, Units(reply), Runs(reply), mark, p),
         Applying(reply)[p.a..], ReportRegs(v, p),
         Reporting(mark.group, mark.rank, mark.carry)[|p.at|..], ReportTheirRegs(v, Units(reply), p))
  }

  lemma ReportMyTurn(v: User, reply: Reply, mark: Op, p: Progress)
    requires mark.Mark? && Sane(|Applying(reply)|, 3, p) && p.a < |Applying(reply)|
    ensures Turn(ReportShape(v, reply, mark, p), true) == ReportShape(v, reply, mark, p.(a := p.a + 1))
  {
    var ops := Applying(reply);
    OpAt(reply, p.a);
    PostedMonotone(reply, p.a, p.a);
    ReportMine(v, Units(reply), Runs(reply), mark, p);
    assert ops[p.a..][0] == ops[p.a] && ops[p.a..][1..] == ops[p.a + 1..];
  }

  lemma ReportTheirTurn(v: User, reply: Reply, mark: Op, p: Progress)
    requires mark.Mark? && Sane(|Applying(reply)|, 3, p) && |p.at| < 3
    ensures Turn(ReportShape(v, reply, mark, p), false) == ReportShape(v, reply, mark, p.(at := p.at + [p.a]))
  {
    var theirs, b := Reporting(mark.group, mark.rank, mark.carry), |p.at|;
    PostedMonotone(reply, p.a, p.a);
    ReportTheirs(v, Units(reply), Runs(reply), mark, p);
    assert theirs[b..][0] == ReportOp(mark, b) && theirs[b..][1..] == theirs[b + 1..];
  }

  lemma ReportTurn(v: User, reply: Reply, mark: Op, p: Progress, me: bool)
    requires mark.Mark? && Sane(|Applying(reply)|, 3, p)
    ensures var p' := Next(|Applying(reply)|, 3, p, me);
            && Sane(|Applying(reply)|, 3, p')
            && Turn(ReportShape(v, reply, mark, p), me) == ReportShape(v, reply, mark, p')
  {
    if me && p.a < |Applying(reply)| {
      ReportMyTurn(v, reply, mark, p);
    } else if !me && |p.at| < 3 {
      ReportTheirTurn(v, reply, mark, p);
    }
  }

  lemma ReportStart(v: User, reply: Reply, mark: Op)
    requires mark.Mark?
    ensures ReportShape(v, reply, mark, Progress(0, [])) ==
            Begun(v, reply, Reporting(mark.group, mark.rank, mark.carry))
  {
    var s := ReportShape(v, reply, mark, Progress(0, []));
    assert s.u.ledger == v.ledger && s.u.stage == v.stage;
    assert s.mine == Applying(reply);
  }

  /** The state of both at every moment of every interleaving. */
  lemma {:induction false} ReportPlay(v: User, reply: Reply, mark: Op, order: seq<bool>)
    requires mark.Mark?
    ensures var p := Track(|Applying(reply)|, 3, order);
            && Sane(|Applying(reply)|, 3, p)
            && Play(Begun(v, reply, Reporting(mark.group, mark.rank, mark.carry)), order) ==
               ReportShape(v, reply, mark, p)
  {
    if order == [] {
      ReportStart(v, reply, mark);
    } else {
      var order0, me := order[..|order| - 1], order[|order| - 1];
      ReportPlay(v, reply, mark, order0);
      ReportTurn(v, reply, mark, Track(|Applying(reply)|, 3, order0), me);
    }
  }

  lemma {:induction false} HitPrefix(l: seq<Record>, m: seq<Record>, group: int, rank: int, carry: int)
    requires Reaches(l, group, rank, carry)
    ensures HitIndex(l + m, group, rank, carry) == HitIndex(l, group, rank, carry)
  {
    assert (l + m)[0] == l[0] && (l + m)[1..] == l[1..] + m;
    var c := carry + Match(l[0], group);
    if c >= rank {
    } else {
      HitPrefix(l[1..], m, group, rank, c);
    }
  }

  /** A scan over what has been posted so far marks what it would mark before it all or after it all. */
  lemma MarkEither(l: seq<Record>, recs: seq<Record>, q: nat, group: int, rank: int, carry: int)
    requires q <= |recs|
    ensures var mixed := Marked(l + recs[..q], group, rank, carry) + recs[q..];
            mixed == Marked(l, group, rank, carry) + recs || mixed == Marked(l + recs, group, rank, carry)
  {
    var l' := l + recs[..q];
    assert l' + recs[q..] == l + recs;
    if Reaches(l', group, rank, carry) {
      HitPrefix(l', recs[q..], group, rank, carry);
    } else {
      if Reaches(l, group, rank, carry) { HitPrefix(l, recs[..q], group, rank, carry); }
    }
  }

  /** The report's store falls between the load and the store of the charge, and is overwritten. */
  predicate ReportLost(reply: Reply, at: seq<nat>)
    requires |at| == 3
  {
    Charges(reply) && at[2] == 3
  }

  /** The charge is stored between the load and the store of the report, and is overwritten. */
  predicate ChargeLost(reply: Reply, at: seq<nat>)
    requires |at| == 3
  {
    Charges(reply) && at[1] <= 3 < at[2] && Units(reply) > 0
  }

  function ReportOff(reply: Reply, at: seq<nat>): int
    requires |at| == 3
  {
    var n: int := Units(reply);
    if ReportLost(reply, at) then 1 else if ChargeLost(reply, at) then -n else 0
  }

  lemma ReportMoneyEnd(m: int, reply: Reply, at: seq<nat>)
    requires |at| == 3 && Sane(|Applying(reply)|, 3, Progress(|Applying(reply)|, at))
    ensures ReportMoney(m, Units(reply), |Applying(reply)|, at) == m + Units(reply) - 1 + ReportOff(reply, at)
  {
  }

  /** Whatever is in the money, everything else is that of one order or the other. */
  lemma ReportRest(v: User, n: nat, runs: seq<Entry>, mark: Op, a: nat, at: seq<nat>)
    requires mark.Mark? && |at| == 3 && at[0] <= a && Posted(a) == |runs|
    requires a >= 5 || (a >= 2 && n == 0)
    ensures var serial := ReportUser(v, n, runs, mark, Progress(a, at)).(money := v.money + n - 1);
            || serial == Append(Charge(Advance(Reported(v, mark.group, mark.rank, mark.carry)), n), runs)
            || serial == Reported(Append(Charge(Advance(v), n), runs), mark.group, mark.rank, mark.carry)
  {
    var recs, q := Stamp(runs, v.timePast + STEP), Posted(at[0]);
    MarkEither(v.ledger, recs, q, mark.group, mark.rank, mark.carry);
    assert recs[q..|recs|] == recs[q..];
    var hours := StampHour(runs, v.timePast + STEP);
    assert hours[..|hours|] == hours;
  }

  lemma HandledIs(v: User, reply: Reply)
    requires !Silent(reply)
    ensures Handled(v, reply) == Append(Charge(Advance(v), Units(reply)), Runs(reply))
  {
  }

  /** With the money put right, the end is that of one order or the other. */
  lemma ReportEnd(v: User, reply: Reply, mark: Op, at: seq<nat>, end: User)
    requires mark.Mark? && |at| == 3 && Sane(|Applying(reply)|, 3, Progress(|Applying(reply)|, at))
    requires Posted(|Applying(reply)|) == |Runs(reply)|
    requires end == ReportUser(v, Units(reply), Runs(reply), mark, Progress(|Applying(reply)|, at))
    ensures var serial := end.(money := end.money - ReportOff(reply, at));
            var n, runs := Units(reply), Runs(reply);
            || serial == Append(Charge(Advance(Reported(v, mark.group, mark.rank, mark.carry)), n), runs)
            || serial == Reported(Append(Charge(Advance(v), n), runs), mark.group, mark.rank, mark.carry)
  {
    ReportMoneyEnd(v.money, reply, at);
    assert end.money - ReportOff(reply, at) == v.money + Units(reply) - 1;
    ReportRest(v, Units(reply), Runs(reply), mark, |Applying(reply)|, at);
  }

  /** One of the two orders, but for a lost update. */
  ghost predicate ReportOutcome(reply: Reply, at: seq<nat>, first: User, last: User, end: User)
    requires |at| == 3
  {
    var serial := end.(money := end.money - ReportOff(reply, at));
    && (serial == first || serial == last)
    && (end == first || end == last <==> !ReportLost(reply, at) && !ChargeLost(reply, at))
    && Excess(end) == Excess(serial) + ReportOff(reply, at)
  }

  lemma SerialMoney(reply: Reply, at: seq<nat>, first: User, last: User, end: User)
    requires |at| == 3 && first.money == last.money
    requires var serial := end.(money := end.money - ReportOff(reply, at)); serial == first || serial == last
    ensures ReportOutcome(reply, at, first, last, end)
  {
  }

  lemma ReportVerdict(u: User, reply: Reply, mark: Op, at: seq<nat>)
    requires Consults(u) && !Silent(reply) && mark.Mark?
    requires |at| == 3 && Sane(|Applying(reply)|, 3, Progress(|Applying(reply)|, at))
    ensures ReportOutcome(reply, at, Requested(Reported(u, mark.group, mark.rank, mark.carry), reply),
                          Reported(Requested(u, reply), mark.group, mark.rank, mark.carry),
                          ReportShape(Opened(u), reply, mark, Progress(|Applying(reply)|, at)).u)
  {
    var v := Opened(u);
    var first, last := Requested(Reported(u, mark.group, mark.rank, mark.carry), reply),
        Reported(Requested(u, reply), mark.group, mark.rank, mark.carry);
    assert first == Handled(Reported(v, mark.group, mark.rank, mark.carry), reply) && first.money == last.money by {
      ReportFirst(u, mark.group, mark.rank, mark.carry, reply);
    }
    HandledIs(v, reply);
    HandledIs(Reported(v, mark.group, mark.rank, mark.carry), reply);
    var n, end := |Applying(reply)|, ReportShape(v, reply, mark, Progress(|Applying(reply)|, at)).u;
    PostedMonotone(reply, n, n);
    ReportEnd(v, reply, mark, at, end);
    SerialMoney(reply, at, first, last, end);
  }

  /**
   A reply and a report in every interleaving of their statements.  Apart from
   the money the outcome is always that of one of the two orders; the money is
   too, exactly if neither store falls between the other's load and store.
   Otherwise it is too high by the report or too low by the whole charge.
   */
  lemma ReportOverlapIff(u: User, reply: Reply, mark: Op, order: seq<bool>)
    requires Consults(u) && !Silent(reply) && mark.Mark? && Finished(reply, order)
    ensures ReportOutcome(reply, Track(|Applying(reply)|, 3, order).at,
                          Requested(Reported(u, mark.group, mark.rank, mark.carry), reply),
                          Reported(Requested(u, reply), mark.group, mark.rank, mark.carry),
                          Play(Begun(Opened(u), reply, Reporting(mark.group, mark.rank, mark.carry)), order).u)
  {
    var p := Track(|Applying(reply)|, 3, order);
    ReportPlay(Opened(u), reply, mark, order);
    assert p == Progress(|Applying(reply)|, p.at);
    ReportVerdict(u, reply, mark, p.at);
  }
}
