/**
 The server's view of one user as a value, and what each operation does to
 it.  The class `BadUser` is proved against these functions; the run-level
 theorems are about them.
 */
module UserModel {
  import opened Ledger
  import opened RunLength
  import opened Wire

  /** A `Transactions` object.  The two ledgers hold separate objects. */
  datatype Record = Record(time: int, send: nat, failed: nat)

  datatype User = User(
    timePast: int,            // minutes on the user's clock
    timeRecord: int,          // clock value when the current plan was made
    money: int,               // units believed transferred; reports can push it below zero
    stageMoney: int,          // units charged to the current hour
    stageTotal: real,         // budget of the current hour, in units
    plan: seq<real>,          // hourly budgets, in units
    ledger: seq<Record>,
    stage: seq<Record>)

  /** What a model's answer turns out to be when it is decoded. */
  datatype Reply =
    | Raised                  // the call to the model itself fails
    | Unparseable             // the outer text is not JSON
    | Short                   // "res" holds fewer than three characters
    | Malformed               // no "res", or its text is not a sortable list
    | Opaque(size: nat)       // a sortable list of values that are not numbers
    | Ints(entries: seq<int>)

  /** What the HTTP handler sends back. */
  datatype Response = Message(text: string) | Error

  const STEP := 10
  const HOUR := 60

  function Sends(l: seq<Record>): nat {
    if l == [] then 0 else Sends(l[..|l| - 1]) + l[|l| - 1].send
  }

  function Fails(l: seq<Record>): nat {
    if l == [] then 0 else Fails(l[..|l| - 1]) + l[|l| - 1].failed
  }

  /** Times and counts of a ledger. */
  function Entries(l: seq<Record>): seq<Entry> {
    seq(|l|, i requires 0 <= i < |l| => Entry(l[i].time, l[i].send))
  }

  /** Times within the hour, and counts. */
  function HourEntries(l: seq<Record>): seq<Entry> {
    seq(|l|, i requires 0 <= i < |l| => Entry(l[i].time % HOUR, l[i].send))
  }

  /** Fresh ledger records for runs played from `clock`. */
  function Stamp(runs: seq<Entry>, clock: int): seq<Record> {
    seq(|runs|, i requires 0 <= i < |runs| => Record(clock + runs[i].time, runs[i].count, 0))
  }

  /** Their counterparts in the hour's list. */
  function StampHour(runs: seq<Entry>, clock: int): seq<Record> {
    seq(|runs|, i requires 0 <= i < |runs| => Record((clock + runs[i].time) % HOUR, runs[i].count, 0))
  }

  // ------------------------------------------------------------ transitions

  /** A user just registered, with the plan its first planning call produced. */
  function Fresh(plan: seq<real>): User { User(0, 0, 0, 0, 0.0, plan, [], []) }

  function Advance(u: User): User { u.(timePast := u.timePast + STEP) }

  function Charge(u: User, units: nat): User {
    u.(money := u.money + units, stageMoney := u.stageMoney + units)
  }

  function Append(u: User, runs: seq<Entry>): User {
    u.(ledger := u.ledger + Stamp(runs, u.timePast), stage := u.stage + StampHour(runs, u.timePast))
  }

  /** The runs a reply adds to the ledgers. */
  function Runs(reply: Reply): seq<Entry> {
    if reply.Ints? then Encode(SortInts(reply.entries)) else []
  }

  /** The units a reply charges once it is reached. */
  function Units(reply: Reply): nat {
    match reply
    case Opaque(n) => n
    case Ints(entries) => |entries|
    case _ => 0
  }

  /** There is no decoded answer, and nothing of the user changes on its account. */
  predicate Silent(reply: Reply) { reply.Raised? || reply.Unparseable? }

  /** `handle_result`: the clock stands still only without a decoded answer. */
  function Handled(u: User, reply: Reply): User {
    if Silent(reply) then u
    else Append(Charge(Advance(u), Units(reply)), Runs(reply))
  }

  function MinusOne(p: seq<int>): seq<int> { seq(|p|, i requires 0 <= i < |p| => p[i] - 1) }

  function PlusOne(p: seq<int>): seq<int> { seq(|p|, i requires 0 <= i < |p| => p[i] + 1) }

  /** The text `handle_result` returns, or `None` where it reports failure. */
  function ReplyText(reply: Reply): Option<string> {
    match reply
    case Short => Some("")
    case Ints(entries) => if entries == [] then None else Some(ListText(MinusOne(SortInts(entries))))
    case _ => None
  }

  /** What an interception publishes: time and net transfers of each record. */
  function NetPairs(l: seq<Record>): seq<(int, int)> {
    seq(|l|, i requires 0 <= i < |l| => (l[i].time, l[i].send - l[i].failed))
  }

  /** A new hour starts, counted from the moment of planning. */
  predicate Boundary(u: User) { (u.timePast - u.timeRecord) % HOUR == 0 }

  /** Only used where the difference is a multiple of an hour, so truncation does not show. */
  function Hour(u: User): int { (u.timePast - u.timeRecord) / HOUR }

  /** The request dies while opening the hour: an empty plan has no budget to look up. */
  predicate Stuck(u: User) { Boundary(u) && u.plan == [] }

  /** The state after the boundary test of a request that is not stuck. */
  function Opened(u: User): User
    requires !Stuck(u)
  {
    if Boundary(u)
    then u.(stageMoney := 0, stageTotal := u.plan[Hour(u) % |u.plan|], stage := [])
    else u
  }

  /** The hour's budget is spent. */
  predicate Closed(u: User) { u.stageMoney as real >= u.stageTotal }

  /** The reply of the model is consulted at all. */
  predicate Consults(u: User) { !Stuck(u) && !Closed(Opened(u)) }

  /** `request_for_plan` of a user that plans. */
  function Requested(u: User, reply: Reply): User {
    if Stuck(u) then u.(stageMoney := 0)
    else if Closed(Opened(u)) then Advance(Opened(u))
    else Handled(Opened(u), reply)
  }

  function Answer(u: User, reply: Reply): Response {
    if Stuck(u) then Error
    else if Closed(Opened(u)) then Message(SKIP)
    else if reply.Raised? then Error
    else match ReplyText(reply) case None => Message(SKIP) case Some(t) => Message(t)
  }

  /** `reset`: the plan's time stamp and the hour's fields survive. */
  function WasReset(u: User): User { u.(ledger := [], money := 0, timePast := 0) }

  function Replanned(u: User, plan: seq<real>): User { u.(timeRecord := u.timePast, plan := plan) }

  // -------------------------------------------------------- failure reports

  /** Transfers a record offers to a report about ten-minute group `group`. */
  function Match(r: Record, group: int): nat {
    if r.time == STEP * (group - 1) then r.send else 0
  }

  /** First index where the running count reaches `rank`, or the length if none does. */
  function HitIndex(l: seq<Record>, group: int, rank: int, count: int): (k: nat)
    ensures k <= |l|
  {
    if l == [] then 0
    else if count + Match(l[0], group) >= rank then 0
    else 1 + HitIndex(l[1..], group, rank, count + Match(l[0], group))
  }

  /** The running count when the scan of one user's ledger stops. */
  function ScanCount(l: seq<Record>, group: int, rank: int, count: int): int {
    if l == [] then count
    else if count + Match(l[0], group) >= rank then count + Match(l[0], group)
    else ScanCount(l[1..], group, rank, count + Match(l[0], group))
  }

  predicate Reaches(l: seq<Record>, group: int, rank: int, count: int) {
    HitIndex(l, group, rank, count) < |l|
  }

  function MarkFailed(l: seq<Record>, k: nat): seq<Record> {
    if k < |l| then l[k := l[k].(failed := l[k].failed + 1)] else l
  }

  /** One user's part of `failedTransactions`: the money goes down whether or not a record is found. */
  function Reported(u: User, group: int, rank: int, count: int): User {
    u.(ledger := MarkFailed(u.ledger, HitIndex(u.ledger, group, rank, count)), money := u.money - 1)
  }

  /** Of the records exactly the `k`-th has one more failure. */
  ghost predicate OneMarked(l: seq<Record>, after: seq<Record>, k: int) {
    && |after| == |l|
    && forall i | 0 <= i < |l| :: after[i] == if i == k then l[i].(failed := l[i].failed + 1) else l[i]
  }

  /** A report marks the record its scan stops at, and no other. */
  lemma ReportedExact(u: User, group: int, rank: int, count: int)
    ensures var v := Reported(u, group, rank, count);
            && OneMarked(u.ledger, v.ledger, HitIndex(u.ledger, group, rank, count))
            && v == u.(ledger := v.ledger, money := u.money - 1)
  {
  }

  // ------------------------------------------------------- rule-driven users

  /** Minutes 0, 1, ... each repeated as often as its draw says. */
  function Minutes(counts: seq<nat>): seq<int> {
    if counts == [] then []
    else Minutes(counts[..|counts| - 1]) + Repeat(|counts| - 1, counts[|counts| - 1])
  }

  lemma {:induction false} MinutesAscend(counts: seq<nat>)
    ensures Ascending(Minutes(counts))
    ensures forall i | 0 <= i < |Minutes(counts)| :: 0 <= Minutes(counts)[i] < |counts|
  {
    if counts == [] {
    } else {
      MinutesAscend(counts[..|counts| - 1]);
    }
  }

  function DrawTotal(counts: seq<nat>): nat {
    if counts == [] then 0 else DrawTotal(counts[..|counts| - 1]) + counts[|counts| - 1]
  }

  lemma {:induction false} RepeatCount(v: int, n: nat, i: int)
    ensures multiset(Repeat(v, n))[i] == if i == v then n else 0
  {
    if n == 0 {
    } else {
      RepeatCount(v, n - 1, i);
      assert Repeat(v, n) == Repeat(v, n - 1) + [v];
    }
  }

  /** Each minute is there as often as its draw says, and there are no others. */
  lemma {:induction false} MinutesExact(counts: seq<nat>, i: int)
    ensures multiset(Minutes(counts))[i] == if 0 <= i < |counts| then counts[i] else 0
    ensures |Minutes(counts)| == DrawTotal(counts)
  {
    if counts == [] {
    } else {
      var n := |counts| - 1;
      var xs, ys := Minutes(counts[..n]), Repeat(n, counts[n]);
      MinutesExact(counts[..n], i);
      RepeatCount(n, counts[n], i);
      assert Minutes(counts) == xs + ys;
      assert multiset(xs + ys)[i] == multiset(xs)[i] + multiset(ys)[i];
      assert 0 <= i < n ==> counts[..n][i] == counts[i];
    }
  }

  /** The reply a rule-driven user hands to its own `handle_result`. */
  function DecisionReply(counts: seq<nat>): Reply {
    if Minutes(counts) == [] then Short else Ints(PlusOne(Minutes(counts)))
  }

  function Decided(u: User, counts: seq<nat>): User { Handled(u, DecisionReply(counts)) }
}
