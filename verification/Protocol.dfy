/**
 Server and client together.  Replies are delivered or lost; the client
 rebuilds the ledger from the texts that arrive.
 */
module Protocol {
  import opened Ledger
  import opened RunLength
  import opened Wire
  import opened UserModel
  import opened Client
  import opened Window
  import S = ServerRuns
  import C = ClientRuns
  import opened Server

  datatype State = State(server: User, client: Thread)

  datatype Event =
    | Exchange(ask: S.Event, delivered: bool)   // the client asks, the server answers
    | Aside(e: S.Event)                         // a failure report or a replan, server only
    | Caught                                    // the server resets the user, the thread restarts

  ghost predicate Legal(e: Event) {
    match e
    case Exchange(ask, _) => ask.Request? || ask.Decide?
    case Aside(e) => e.Report? || e.Replan?
    case Caught => true
  }

  ghost predicate AllLegal(evs: seq<Event>) { forall i | 0 <= i < |evs| :: Legal(evs[i]) }

  /** What the HTTP handler returns for a request of a planning or a rule-driven user. */
  function Reply(u: User, ask: S.Event): Response {
    match ask
    case Request(reply) => Answer(u, reply)
    case Decide(counts) => Message(ListText(Minutes(counts)))
    case _ => Error
  }

  function ServerAfter(u: User, e: Event): User {
    match e
    case Exchange(ask, _) => S.Step(u, ask)
    case Aside(a) => S.Step(u, a)
    case Caught => WasReset(u)
  }

  /** A lost answer leaves the thread as it was; so would a text it cannot read, which never comes. */
  function ClientAfter(c: Thread, u: User, e: Event): Thread {
    match e
    case Exchange(ask, delivered) =>
      var r := Absorbed(c, Reply(u, ask));
      if delivered && r.Some? then r.value else c
    case Aside(_) => c
    case Caught => Restarted(c)
  }

  function Step(s: State, e: Event): State {
    State(ServerAfter(s.server, e), ClientAfter(s.client, s.server, e))
  }

  function Run(plan: seq<real>, evs: seq<Event>): State {
    if evs == [] then State(Fresh(plan), START)
    else Step(Run(plan, evs[..|evs| - 1]), evs[|evs| - 1])
  }

  // ------------------------------------------------------- what one text does

  /** The sorted list of minutes the server records for this request, empty if none. */
  function Recorded(u: User, ask: S.Event): seq<int> {
    match S.Reached(u, ask)
    case Some(Ints(entries)) => SortInts(entries)
    case _ => []
  }

  /** The entries the request adds to the server's ledger. */
  function BatchOf(u: User, ask: S.Event): seq<Entry> { Shift(Encode(Recorded(u, ask)), u.timePast + STEP) }

  /** The client records the reply: there is something in it, and it is not the list that spells "-1". */
  predicate Mirrored(u: User, ask: S.Event) {
    Recorded(u, ask) != [] && Recorded(u, ask) != [0]
  }

  /** Every answer is an error, a sentinel, or the recorded minutes less one. */
  lemma ReplyIs(u: User, ask: S.Event)
    requires ask.Request? || ask.Decide?
    ensures Reply(u, ask) == Error || Reply(u, ask) == Message(SKIP) || Reply(u, ask) == Message("")
            || Reply(u, ask) == Message(ListText(MinusOne(Recorded(u, ask))))
    ensures Recorded(u, ask) != [] ==> Reply(u, ask) == Message(ListText(MinusOne(Recorded(u, ask))))
  {
    if ask.Decide? { DecisionAgrees(ask.counts); }
  }

  /** The thread that has taken in a delivered answer. */
  function Copied(c: Thread, u: User, ask: S.Event): Thread {
    Ticked(if Mirrored(u, ask) then Received(c, MinusOne(Recorded(u, ask))) else c)
  }

  /** The client takes every answer of the server without crashing, and records it exactly if it is mirrored. */
  lemma AbsorbedIs(c: Thread, u: User, ask: S.Event)
    requires ask.Request? || ask.Decide?
    ensures Absorbed(c, Reply(u, ask)) == Some(Copied(c, u, ask))
  {
    var xs := MinusOne(Recorded(u, ask));
    ReplyIs(u, ask);
    SentinelExact(xs);
    assert xs == [-1] <==> Recorded(u, ask) == [0] by {
      if xs == [-1] { assert Recorded(u, ask)[0] == xs[0] + 1; }
    }
    if Mirrored(u, ask) {
      WireRoundTrip(xs);
    } else {
      assert Recorded(u, ask) == [] ==> MinusOne(Recorded(u, ask)) == [];
    }
  }

  lemma SortOfOne(es: seq<int>)
    ensures SortInts(es) == [0] <==> es == [0]
  {
    SortIntsSorts(es);
    if |es| == 1 {
      assert es == [es[0]] && Ascending(es);
    }
  }

  /**
   The wire, end to end: for every non-empty list of integers the client reads
   back the sorted list less one; it skips the text for the list [0] and no other.
   */
  lemma PlanTravels(entries: seq<int>)
    requires entries != []
    ensures ReplyText(Ints(entries)).Some?
    ensures ParseList(ReplyText(Ints(entries)).value) == Some(MinusOne(SortInts(entries)))
    ensures Skipped(ReplyText(Ints(entries)).value) <==> entries == [0]
  {
    var p := SortInts(entries);
    var xs := MinusOne(p);
    WireRoundTrip(xs);
    SentinelExact(xs);
    SortOfOne(entries);
    assert xs == [-1] <==> p == [0] by {
      if xs == [-1] { assert p[0] == xs[0] + 1; }
    }
  }

  /** What a planning user answers, case by case. */
  lemma AnswerExact(u: User, reply: UserModel.Reply)
    ensures Answer(u, reply).Error? <==> Stuck(u) || (Consults(u) && reply.Raised?)
    ensures !Stuck(u) && !Consults(u) ==> Answer(u, reply) == Message("-1")
    ensures Consults(u) && (reply.Unparseable? || reply.Malformed? || reply.Opaque? || reply == Ints([])) ==>
              Answer(u, reply) == Message("-1")
    ensures Consults(u) && reply.Short? ==> Answer(u, reply) == Message("")
    ensures Consults(u) && reply.Ints? && reply.entries != [] ==>
              && Answer(u, reply).Message?
              && ParseList(Answer(u, reply).text) == Some(MinusOne(SortInts(reply.entries)))
  {
    if reply.Ints? && reply.entries != [] { PlanTravels(reply.entries); }
  }

  lemma {:induction false} EncodeMinusOne(p: seq<int>)
    ensures Encode(MinusOne(p)) == Shift(Encode(p), -1)
  {
    if p == [] {
    } else {
      var p0, v := p[..|p| - 1], p[|p| - 1];
      EncodeMinusOne(p0);
      assert p == p0 + [v];
      EncodeBoth(p0, v);
      GrowShift(Encode(p0), v);
    }
  }

  lemma EncodeBoth(p: seq<int>, v: int)
    ensures Encode(p + [v]) == Grow(Encode(p), v)
    ensures Encode(MinusOne(p + [v])) == Grow(Encode(MinusOne(p)), v - 1)
  {
    EncodeSnoc(p, v);
    MinusSnoc(p, v);
    EncodeSnoc(MinusOne(p), v - 1);
  }

  lemma MinusSnoc(p: seq<int>, v: int)
    ensures MinusOne(p + [v]) == MinusOne(p) + [v - 1]
  {
  }

  lemma GrowShift(runs: seq<Entry>, v: int)
    ensures Grow(Shift(runs, -1), v - 1) == Shift(Grow(runs, v), -1)
  {
  }

  lemma ShiftShift(l: seq<Entry>, d: int, f: int)
    ensures Shift(Shift(l, d), f) == Shift(l, d + f)
  {
  }

  /** The client's copy of a batch: same counts, times moved by the clock gap less eleven. */
  lemma BatchShifted(c: Thread, u: User, ask: S.Event)
    ensures Received(c, MinusOne(Recorded(u, ask))).ledger ==
            c.ledger + Shift(BatchOf(u, ask), c.time - u.timePast - STEP - 1)
  {
    var p := Recorded(u, ask);
    EncodeMinusOne(p);
    ShiftShift(Encode(p), -1, c.time);
    ShiftShift(Encode(p), u.timePast + STEP, c.time - u.timePast - STEP - 1);
  }

  // -------------------------------------------------------------- clock drift

  function Gap(s: State): int { s.client.time - s.server.timePast }

  /** Delivered answers, since the thread last restarted, on which the server's clock stood still. */
  function Ahead(plan: seq<real>, evs: seq<Event>): nat {
    if evs == [] then 0
    else
      var evs0, e := evs[..|evs| - 1], evs[|evs| - 1];
      match e
      case Caught => 0
      case Aside(_) => Ahead(plan, evs0)
      case Exchange(ask, delivered) =>
        Ahead(plan, evs0) + if delivered && !S.Advances(Run(plan, evs0).server, ask) then 1 else 0
  }

  /** Lost answers since then on which the server's clock moved. */
  function Behind(plan: seq<real>, evs: seq<Event>): nat {
    if evs == [] then 0
    else
      var evs0, e := evs[..|evs| - 1], evs[|evs| - 1];
      match e
      case Caught => 0
      case Aside(_) => Behind(plan, evs0)
      case Exchange(ask, delivered) =>
        Behind(plan, evs0) + if !delivered && S.Advances(Run(plan, evs0).server, ask) then 1 else 0
  }

  lemma StepGap(s: State, e: Event)
    requires Legal(e)
    ensures Gap(Step(s, e)) ==
            match e
            case Caught => 0
            case Aside(_) => Gap(s)
            case Exchange(ask, delivered) =>
              Gap(s) + (if delivered then STEP else 0) - (if S.Advances(s.server, ask) then STEP else 0)
  {
    match e
    case Caught =>
    case Aside(_) =>
    case Exchange(ask, delivered) =>
      AbsorbedIs(s.client, s.server, ask);
      S.StepClock(s.server, ask);
  }

  /**
   Drift: the client's clock leads the server's by ten minutes for every
   delivered answer that did not move the server, and trails by ten for every
   lost answer that did.
   */
  lemma {:induction false} Drift(plan: seq<real>, evs: seq<Event>)
    requires AllLegal(evs)
    ensures Gap(Run(plan, evs)) == STEP * Ahead(plan, evs) - STEP * Behind(plan, evs)
  {
    if evs == [] {
    } else {
      Drift(plan, evs[..|evs| - 1]);
      StepGap(Run(plan, evs[..|evs| - 1]), evs[|evs| - 1]);
    }
  }

  /**
   A request leaves the server's clock where it was exactly if the plan is empty
   at an hour's start or the model gave no decodable answer; a rule-driven
   decision never does.
   */
  lemma StandsStill(u: User, reply: UserModel.Reply, counts: seq<nat>)
    ensures Requested(u, reply).timePast == u.timePast <==> Stuck(u) || (Consults(u) && Silent(reply))
    ensures Decided(u, counts).timePast != u.timePast
  {
  }

  // ------------------------------------------------------------- the mirror

  /** What an event makes of the server's list of entries. */
  function ServerNext(l: seq<Entry>, s: State, e: Event): seq<Entry> {
    match e
    case Caught => []
    case Aside(_) => l
    case Exchange(ask, _) => l + BatchOf(s.server, ask)
  }

  /** The client's list after a delivered answer: a mirrored batch is moved by the clock gap less eleven. */
  function CopiedLedger(l: seq<Entry>, gap: int, u: User, ask: S.Event): seq<Entry> {
    if Mirrored(u, ask) then l + Shift(BatchOf(u, ask), gap - STEP - 1) else l
  }

  /** What an event makes of the client's list. */
  function ClientNext(l: seq<Entry>, s: State, e: Event): seq<Entry> {
    match e
    case Caught => []
    case Aside(_) => l
    case Exchange(ask, delivered) => if delivered then CopiedLedger(l, Gap(s), s.server, ask) else l
  }

  /** All batches since the last restart, as the server recorded them. */
  function ServerLog(plan: seq<real>, evs: seq<Event>): seq<Entry> {
    if evs == [] then []
    else ServerNext(ServerLog(plan, evs[..|evs| - 1]), Run(plan, evs[..|evs| - 1]), evs[|evs| - 1])
  }

  /** The delivered ones among them, each moved by the gap at its own time. */
  function ClientLog(plan: seq<real>, evs: seq<Event>): seq<Entry> {
    if evs == [] then []
    else ClientNext(ClientLog(plan, evs[..|evs| - 1]), Run(plan, evs[..|evs| - 1]), evs[|evs| - 1])
  }

  lemma EntriesStamp(l: seq<Record>, runs: seq<Entry>, clock: int)
    ensures Entries(l + Stamp(runs, clock)) == Entries(l) + Shift(runs, clock)
  {
    var a, b := Entries(l + Stamp(runs, clock)), Entries(l) + Shift(runs, clock);
    assert |a| == |b|;
    forall i | 0 <= i < |a| ensures a[i] == b[i] {
      if i >= |l| { assert (l + Stamp(runs, clock))[i] == Stamp(runs, clock)[i - |l|]; }
    }
  }

  lemma HandledBatch(u: User, reply: UserModel.Reply)
    ensures !Silent(reply) ==>
              Entries(Handled(u, reply).ledger) == Entries(u.ledger) + Shift(Runs(reply), u.timePast + STEP)
  {
    if !Silent(reply) {
      var clock := u.timePast + STEP;
      assert Handled(u, reply).ledger == u.ledger + Stamp(Runs(reply), clock);
      EntriesStamp(u.ledger, Runs(reply), clock);
    }
  }

  lemma ReplyBatch(u: User, reply: UserModel.Reply, p: seq<int>)
    requires p == if reply.Ints? then SortInts(reply.entries) else []
    ensures Entries(Handled(u, reply).ledger) == Entries(u.ledger) + Shift(Encode(p), u.timePast + STEP)
  {
    HandledBatch(u, reply);
    assert Runs(reply) == Encode(p);
    assert Silent(reply) ==> Shift(Encode(p), u.timePast + STEP) == [];
  }

  lemma RequestBatch(u: User, reply: UserModel.Reply)
    ensures Entries(Requested(u, reply).ledger) == Entries(u.ledger) + BatchOf(u, S.Request(reply))
  {
    var p := Recorded(u, S.Request(reply));
    if Consults(u) {
      ReplyBatch(Opened(u), reply, p);
    } else {
      assert p == [] && BatchOf(u, S.Request(reply)) == [];
    }
  }

  lemma ServerBatch(u: User, ask: S.Event)
    requires ask.Request? || ask.Decide?
    ensures Entries(S.Step(u, ask).ledger) == Entries(u.ledger) + BatchOf(u, ask)
  {
    match ask
    case Request(reply) => RequestBatch(u, reply);
    case Decide(counts) => ReplyBatch(u, DecisionReply(counts), Recorded(u, ask));
  }

  lemma CopiedNext(s: State, ask: S.Event, after: Thread)
    requires after == Copied(s.client, s.server, ask)
    ensures after.ledger == ClientNext(s.client.ledger, s, Exchange(ask, true))
  {
    BatchShifted(s.client, s.server, ask);
  }

  lemma DeliveredIs(c: Thread, u: User, ask: S.Event)
    requires ask.Request? || ask.Decide?
    ensures ClientAfter(c, u, Exchange(ask, true)) == Copied(c, u, ask)
  {
    AbsorbedIs(c, u, ask);
  }

  lemma LostIs(s: State, ask: S.Event)
    ensures ClientAfter(s.client, s.server, Exchange(ask, false)) == s.client
  {
  }

  lemma AsideKeeps(u: User, a: S.Event)
    requires a.Report? || a.Replan?
    ensures Entries(S.Step(u, a).ledger) == Entries(u.ledger)
  {
  }

  lemma ServerLedger(s: State, e: Event)
    requires Legal(e)
    ensures Entries(ServerAfter(s.server, e).ledger) == ServerNext(Entries(s.server.ledger), s, e)
  {
    match e
    case Caught =>
    case Aside(a) => AsideKeeps(s.server, a);
    case Exchange(ask, _) => ServerBatch(s.server, ask);
  }

  lemma ClientLedger(s: State, e: Event)
    requires Legal(e)
    ensures ClientAfter(s.client, s.server, e).ledger == ClientNext(s.client.ledger, s, e)
  {
    match e
    case Caught =>
    case Aside(_) =>
    case Exchange(ask, true) =>
      DeliveredIs(s.client, s.server, ask);
      CopiedNext(s, ask, ClientAfter(s.client, s.server, e));
    case Exchange(ask, false) => LostIs(s, ask);
  }

  lemma LedgersStep(s: State, e: Event)
    requires Legal(e)
    ensures Entries(Step(s, e).server.ledger) == ServerNext(Entries(s.server.ledger), s, e)
    ensures Step(s, e).client.ledger == ClientNext(s.client.ledger, s, e)
  {
    ServerLedger(s, e);
    ClientLedger(s, e);
  }

  /**
   Mirror: over every run, the server's ledger is every recorded batch in
   order, and the client's is the delivered ones in order, with the same
   counts and each batch's times moved by the gap at its time less eleven.
   */
  lemma {:induction false} Mirror(plan: seq<real>, evs: seq<Event>)
    requires AllLegal(evs)
    ensures Entries(Run(plan, evs).server.ledger) == ServerLog(plan, evs)
    ensures Run(plan, evs).client.ledger == ClientLog(plan, evs)
  {
    if evs == [] {
    } else {
      var s, e := Run(plan, evs[..|evs| - 1]), evs[|evs| - 1];
      Mirror(plan, evs[..|evs| - 1]);
      LedgersStep(s, e);
      assert Run(plan, evs) == Step(s, e);
    }
  }

  // --------------------------------------------------------- a faithful link

  /** Every answer arrives, moves the server's clock, and does not spell the sentinel. */
  ghost predicate Faithful(plan: seq<real>, evs: seq<Event>) {
    forall k | 0 <= k < |evs| && evs[k].Exchange? ::
      && evs[k].delivered
      && S.Advances(Run(plan, evs[..k]).server, evs[k].ask)
      && Recorded(Run(plan, evs[..k]).server, evs[k].ask) != [0]
  }

  /** Over a faithful link the clocks agree and the client's ledger is the server's, eleven minutes earlier. */
  lemma {:induction false} FaithfulMirror(plan: seq<real>, evs: seq<Event>)
    requires AllLegal(evs) && Faithful(plan, evs)
    ensures var s := Run(plan, evs); Gap(s) == 0 && s.client.ledger == Shift(Entries(s.server.ledger), -11)
  {
    if evs == [] {
    } else {
      var n, evs0 := |evs| - 1, evs[..|evs| - 1];
      assert forall k | 0 <= k < n :: evs0[..k] == evs[..k];
      FaithfulMirror(plan, evs0);
      FaithfulStep(Run(plan, evs0), evs[n]);
    }
  }

  /** And nothing is missing from it. */
  lemma FaithfulTotal(plan: seq<real>, evs: seq<Event>)
    requires AllLegal(evs) && Faithful(plan, evs)
    ensures Total(Run(plan, evs).client.ledger) == Sends(Run(plan, evs).server.ledger)
  {
    var l := Run(plan, evs).server.ledger;
    FaithfulMirror(plan, evs);
    ShiftTotal(Entries(l), -11);
    EntriesTotal(l);
  }

  lemma FaithfulStep(s: State, e: Event)
    requires Legal(e) && Gap(s) == 0 && s.client.ledger == Shift(Entries(s.server.ledger), -11)
    requires e.Exchange? ==> e.delivered && S.Advances(s.server, e.ask) && Recorded(s.server, e.ask) != [0]
    ensures var t := Step(s, e); Gap(t) == 0 && t.client.ledger == Shift(Entries(t.server.ledger), -11)
  {
    StepGap(s, e);
    LedgersStep(s, e);
    if e.Exchange? { FaithfulBatch(Entries(s.server.ledger), s, e.ask); }
  }

  lemma FaithfulBatch(l: seq<Entry>, s: State, ask: S.Event)
    requires Gap(s) == 0 && Recorded(s.server, ask) != [0]
    ensures ClientNext(Shift(l, -11), s, Exchange(ask, true)) == Shift(ServerNext(l, s, Exchange(ask, true)), -11)
  {
    var b := BatchOf(s.server, ask);
    ShiftConcat(l, b, -11);
    assert !Mirrored(s.server, ask) ==> Shift(b, -11) == [];
  }

  lemma ShiftConcat(a: seq<Entry>, b: seq<Entry>, d: int)
    ensures Shift(a + b, d) == Shift(a, d) + Shift(b, d)
  {
  }

  lemma {:induction false} EntriesTotal(l: seq<Record>)
    ensures Total(Entries(l)) == Sends(l)
  {
    if l == [] {
    } else {
      EntriesTotal(l[..|l| - 1]);
      assert Entries(l)[..|l| - 1] == Entries(l[..|l| - 1]);
    }
  }

  // ------------------------------------------------------------- both ledgers

  ghost predicate Ranged(evs: seq<Event>) {
    forall i | 0 <= i < |evs| :: match evs[i] case Exchange(ask, _) => S.InRange(ask) case _ => true
  }

  lemma MirroredWellTimed(u: User, ask: S.Event)
    requires S.InRange(ask) && Mirrored(u, ask)
    ensures C.WellTimed(C.Batch(MinusOne(Recorded(u, ask))))
  {
    if ask.Decide? { S.DecisionInRange(ask.counts); }
    S.SortedInRange(S.Reached(u, ask).value.entries);
  }

  lemma StepTidy(s: State, e: Event)
    requires Legal(e) && (e.Exchange? ==> S.InRange(e.ask)) && S.Tidy(s.server) && C.Tidy(s.client)
    ensures S.Tidy(Step(s, e).server) && C.Tidy(Step(s, e).client)
  {
    match e
    case Caught => S.StepTidy(s.server, S.Reset);
    case Aside(a) => S.StepTidy(s.server, a);
    case Exchange(ask, delivered) =>
      S.StepTidy(s.server, ask);
      AbsorbedIs(s.client, s.server, ask);
      if Mirrored(s.server, ask) {
        MirroredWellTimed(s.server, ask);
        C.BatchTidy(s.client, MinusOne(Recorded(s.server, ask)));
      }
  }

  /**
   With minutes in 1..10, whatever is lost and however far the clocks drift,
   both ledgers stay strictly increasing, the server's within ten minutes of
   its clock and the client's before its own.
   */
  lemma {:induction false} BothTidy(plan: seq<real>, evs: seq<Event>)
    requires AllLegal(evs) && Ranged(evs)
    ensures S.Tidy(Run(plan, evs).server) && C.Tidy(Run(plan, evs).client)
  {
    if evs == [] {
    } else {
      BothTidy(plan, evs[..|evs| - 1]);
      StepTidy(Run(plan, evs[..|evs| - 1]), evs[|evs| - 1]);
    }
  }

  /** So on every reachable client ledger the detector can strike if and only if some ten minutes exceed 100. */
  lemma DetectorExact(plan: seq<real>, evs: seq<Event>)
    requires AllLegal(evs) && Ranged(evs)
    ensures var l := Run(plan, evs).client.ledger;
            (exists draws: seq<real> :: Draws(draws, |l|) && Rejected(l, draws)) <==> (exists a :: Ten(l, a) > 100)
  {
    BothTidy(plan, evs);
    SafeIff(Run(plan, evs).client.ledger);
  }
}
