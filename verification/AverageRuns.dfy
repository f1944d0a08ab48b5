/**
 What goes into the averages a thread stores, over every run: no entry twice,
 and which entries never.
 */
module AverageRuns {
  import opened Ledger
  import opened RunLength
  import opened UserModel
  import opened Window
  import opened Client
  import opened ClientRuns

  /** A thread together with its history. */
  datatype Book = Book(
    thread: Thread,
    log: seq<Entry>,              // every entry ever recorded, over all restarts
    dropped: nat,                 // how many of them restarts have given up: entry k of the ledger is log[dropped + k]
    spans: seq<(nat, nat)>,       // for each stored average, the stretch of the log from `loc` to its then end
    inherited: nat)               // `loc` when the current ledger was begun

  function Turn(b: Book, e: Event): Book {
    var c := b.thread;
    var b' := b.(thread := Step(c, e));
    match e
    case Batch(plan) => b'.(log := b.log + Shift(Encode(plan), c.time))
    case Idle => b'
    case Indicate =>
      if FullWindows(c) == 0 then b'
      else b'.(spans := b.spans + [(b.dropped + c.loc, b.dropped + |c.ledger|)])
    case Restart => b'.(dropped := b.dropped + |c.ledger|, inherited := c.loc)
  }

  function History(evs: seq<Event>): Book {
    if evs == [] then Book(START, [], 0, [], 0) else Turn(History(evs[..|evs| - 1]), evs[|evs| - 1])
  }

  lemma {:induction false} HistoryOf(evs: seq<Event>)
    ensures History(evs).thread == Run(evs)
  {
    if evs == [] {
    } else {
      HistoryOf(evs[..|evs| - 1]);
    }
  }

  lemma {:induction false} HistorySnoc(evs: seq<Event>, e: Event)
    ensures History(evs + [e]) == Turn(History(evs), e)
  {
    assert (evs + [e])[..|evs|] == evs;
  }

  // --------------------------------------------------------------- invariants

  ghost predicate Disjoint(spans: seq<(nat, nat)>) {
    forall i, j | 0 <= i < j < |spans| :: spans[i].1 <= spans[j].0
  }

  /** The ledger is the tail of the log; stretches follow one another and end before what is pending. */
  ghost predicate Ordered(b: Book) {
    var c := b.thread;
    && |b.log| == b.dropped + |c.ledger| && c.ledger == b.log[b.dropped..]
    && |b.spans| == |c.indications| && Disjoint(b.spans)
    && (forall i | 0 <= i < |b.spans| ::
          b.spans[i].0 < b.spans[i].1 <= |b.log| && b.spans[i].1 <= b.dropped + c.loc)
  }

  lemma TurnOrdered(b: Book, e: Event)
    requires Ordered(b)
    ensures Ordered(Turn(b, e))
  {
    match e
    case Batch(plan) =>
      assert Turn(b, e).log[b.dropped..] == b.log[b.dropped..] + Shift(Encode(plan), b.thread.time);
    case Idle =>
    case Indicate => IndicateOrdered(b);
    case Restart =>
  }

  lemma IndicateOrdered(b: Book)
    requires Ordered(b)
    ensures Ordered(Turn(b, Indicate))
  {
  }

  /** `x` is the average over exactly these entries, every one of which takes part. */
  ghost predicate Gives(l: seq<Entry>, x: real) {
    && l != []
    && var start, end := l[0].time, l[|l| - 1].time;
       && end >= start + SPAN - 1
       && x == Weighted(l, start, end) as real / (end - SPAN + 1 - start + 1) as real
       && forall k | 0 <= k < |l| :: 1 <= Weight(l[k].time, start, end) <= SPAN
  }

  ghost predicate SpanGives(log: seq<Entry>, span: (nat, nat), x: real) {
    span.0 < span.1 <= |log| && Gives(log[span.0..span.1], x)
  }

  ghost predicate Explains(log: seq<Entry>, spans: seq<(nat, nat)>, averages: seq<real>) {
    |spans| == |averages| && forall i | 0 <= i < |spans| :: SpanGives(log, spans[i], averages[i])
  }

  ghost predicate Explained(b: Book) { Explains(b.log, b.spans, b.thread.indications) }

  lemma ExplainsSnoc(log: seq<Entry>, spans: seq<(nat, nat)>, averages: seq<real>, span: (nat, nat), x: real)
    requires Explains(log, spans, averages) && SpanGives(log, span, x)
    ensures Explains(log, spans + [span], averages + [x])
  {
  }

  lemma ExplainsMore(log: seq<Entry>, more: seq<Entry>, spans: seq<(nat, nat)>, averages: seq<real>)
    requires Explains(log, spans, averages)
    ensures Explains(log + more, spans, averages)
  {
    forall i | 0 <= i < |spans| ensures SpanGives(log + more, spans[i], averages[i]) {
      SpanKeeps(log, more, spans[i], averages[i]);
    }
  }

  lemma SpanKeeps(log: seq<Entry>, more: seq<Entry>, span: (nat, nat), x: real)
    requires SpanGives(log, span, x)
    ensures SpanGives(log + more, span, x)
  {
    assert (log + more)[span.0..span.1] == log[span.0..span.1];
  }

  lemma GivesFrom(l: seq<Entry>, loc: nat, n: nat, x: real)
    requires loc < |l| && n >= 1 && l[|l| - 1].time - SPAN + 1 - l[loc].time + 1 == n
    requires x == Weighted(l[loc..], l[loc].time, l[|l| - 1].time) as real / n as real
    requires forall i | loc <= i < |l| :: 1 <= Weight(l[i].time, l[loc].time, l[|l| - 1].time) <= SPAN
    ensures Gives(l[loc..], x)
  {
    var m := l[loc..];
    assert m[0] == l[loc] && m[|m| - 1] == l[|l| - 1];
    forall k | 0 <= k < |m| ensures 1 <= Weight(m[k].time, m[0].time, m[|m| - 1].time) <= SPAN {
      assert m[k] == l[loc + k];
    }
  }

  lemma GivesPending(c: Thread)
    requires Increasing(c.ledger) && FullWindows(c) > 0
    ensures c.loc < |c.ledger| && Gives(c.ledger[c.loc..], Average(c))
  {
    AverageExact(c);
    GivesFrom(c.ledger, c.loc, FullWindows(c), Average(c));
  }

  /** The average of a tidy thread, read off the log. */
  lemma NextSpan(log: seq<Entry>, d: nat, c: Thread)
    requires d <= |log| && c.ledger == log[d..] && Increasing(c.ledger) && FullWindows(c) > 0
    ensures SpanGives(log, (d + c.loc, d + |c.ledger|), Average(c))
  {
    GivesPending(c);
    assert log[d + c.loc..d + |c.ledger|] == c.ledger[c.loc..];
  }

  lemma TurnExplained(b: Book, e: Event)
    requires Ordered(b) && Explained(b) && Increasing(b.thread.ledger)
    ensures Explained(Turn(b, e))
  {
    if e.Batch? {
      ExplainsMore(b.log, Shift(Encode(e.plan), b.thread.time), b.spans, b.thread.indications);
    } else if e.Indicate? && FullWindows(b.thread) > 0 {
      IndicateExplained(b);
    }
  }

  /** What a stored average changes. */
  lemma TurnIndicate(b: Book)
    requires FullWindows(b.thread) > 0
    ensures var b', c := Turn(b, Indicate), b.thread;
            && b'.log == b.log && b'.dropped == b.dropped && b'.inherited == b.inherited
            && b'.spans == b.spans + [(b.dropped + c.loc, b.dropped + |c.ledger|)]
            && b'.thread == c.(loc := |c.ledger|, indications := c.indications + [Average(c)])
  {
  }

  lemma IndicateExplained(b: Book)
    requires Ordered(b) && Explained(b) && Increasing(b.thread.ledger) && FullWindows(b.thread) > 0
    ensures Explained(Turn(b, Indicate))
  {
    var b', c, span, x :=
      Turn(b, Indicate), b.thread, (b.dropped + b.thread.loc, b.dropped + |b.thread.ledger|), Average(b.thread);
    assert SpanGives(b.log, span, x) by { NextSpan(b.log, b.dropped, c); }
    ExplainsSnoc(b.log, b.spans, c.indications, span, x);
    assert b'.log == b.log && b'.spans == b.spans + [span] && b'.thread.indications == c.indications + [x] by {
      TurnIndicate(b);
    }
  }

  lemma {:induction false} AlwaysOrdered(evs: seq<Event>)
    ensures Ordered(History(evs))
  {
    if evs == [] {
    } else {
      AlwaysOrdered(evs[..|evs| - 1]);
      TurnOrdered(History(evs[..|evs| - 1]), evs[|evs| - 1]);
    }
  }

  /**
   Over every well-timed run, restarts included, the stored averages are the
   averages of disjoint stretches of the log: each takes in every entry of its
   own stretch, with a weight of 1 to 10, and no other.
   */
  lemma {:induction false} AveragedOnce(evs: seq<Event>)
    requires AllWellTimed(evs)
    ensures var b := History(evs);
            && b.thread == Run(evs)
            && |b.spans| == |b.thread.indications| && Disjoint(b.spans)
            && forall i | 0 <= i < |b.spans| :: SpanGives(b.log, b.spans[i], b.thread.indications[i])
  {
    HistoryOf(evs);
    AlwaysOrdered(evs);
    if evs == [] {
    } else {
      var evs0 := evs[..|evs| - 1];
      AveragedOnce(evs0);
      AlwaysOrdered(evs0);
      TidyAlways(evs0);
      TurnExplained(History(evs0), evs[|evs| - 1]);
    }
  }

  // ------------------------------------------- which entries are never averaged

  ghost predicate Covered(spans: seq<(nat, nat)>, j: int) {
    exists i :: 0 <= i < |spans| && spans[i].0 <= j < spans[i].1
  }

  lemma CoveredSnoc(spans: seq<(nat, nat)>, span: (nat, nat), j: int)
    ensures Covered(spans + [span], j) <==> Covered(spans, j) || span.0 <= j < span.1
  {
    var all := spans + [span];
    if i :| 0 <= i < |spans| && spans[i].0 <= j < spans[i].1 { assert all[i] == spans[i]; }
    assert all[|spans|] == span;
  }

  /** Of the current ledger exactly the entries from the inherited place up to `loc` are in a stored average. */
  ghost predicate Accounted(b: Book) {
    var c := b.thread;
    && b.inherited <= c.loc && (c.loc == b.inherited || c.loc <= |c.ledger|)
    && (forall j | b.dropped <= j < b.dropped + |c.ledger| ::
          Covered(b.spans, j) <==> b.dropped + b.inherited <= j < b.dropped + c.loc)
  }

  lemma TurnAccounted(b: Book, e: Event)
    requires Ordered(b) && Accounted(b)
    ensures Accounted(Turn(b, e))
  {
    if e.Indicate? && FullWindows(b.thread) > 0 { IndicateAccounted(b); }
  }

  lemma IndicateAccounted(b: Book)
    requires Ordered(b) && Accounted(b) && FullWindows(b.thread) > 0
    ensures Accounted(Turn(b, Indicate))
  {
    var c, b' := b.thread, Turn(b, Indicate);
    var span := (b.dropped + c.loc, b.dropped + |c.ledger|);
    assert b'.spans == b.spans + [span] && b'.thread.loc == |c.ledger| && b'.thread.ledger == c.ledger;
    forall j | b.dropped <= j < b.dropped + |c.ledger|
      ensures Covered(b'.spans, j) <==> b.dropped + b.inherited <= j < b.dropped + |c.ledger|
    {
      CoveredSnoc(b.spans, span, j);
    }
  }

  lemma {:induction false} AlwaysAccounted(evs: seq<Event>)
    ensures Accounted(History(evs))
  {
    if evs == [] {
    } else {
      AlwaysAccounted(evs[..|evs| - 1]);
      AlwaysOrdered(evs[..|evs| - 1]);
      TurnAccounted(History(evs[..|evs| - 1]), evs[|evs| - 1]);
    }
  }

  /** Everything before this number is settled. */
  function Frontier(b: Book): nat { b.dropped + b.thread.loc }

  lemma TurnSettled(b: Book, e: Event, j: int)
    requires j < Frontier(b)
    ensures Covered(Turn(b, e).spans, j) <==> Covered(b.spans, j)
    ensures Frontier(b) <= Frontier(Turn(b, e))
  {
    if e.Indicate? && FullWindows(b.thread) > 0 {
      CoveredSnoc(b.spans, (b.dropped + b.thread.loc, b.dropped + |b.thread.ledger|), j);
    }
  }

  /** The history goes on. */
  function Turns(b: Book, more: seq<Event>): Book
    decreases |more|
  {
    if more == [] then b else Turns(Turn(b, more[0]), more[1..])
  }

  lemma {:induction false} HistoryGoesOn(all: seq<Event>, evs: seq<Event>, more: seq<Event>)
    requires all == evs + more
    ensures History(all) == Turns(History(evs), more)
    decreases |more|
  {
    if more == [] {
      assert evs == all;
    } else {
      var e, rest := more[0], more[1..];
      assert all == (evs + [e]) + rest;
      HistoryGoesOn(all, evs + [e], rest);
      HistorySnoc(evs, e);
    }
  }

  /** What lies before the place in the averages is settled for good. */
  lemma {:induction false} SettledForGood(b: Book, more: seq<Event>, j: int)
    requires j < Frontier(b)
    ensures Covered(Turns(b, more).spans, j) <==> Covered(b.spans, j)
    decreases |more|
  {
    if more == [] {
    } else {
      TurnSettled(b, more[0], j);
      SettledForGood(Turn(b, more[0]), more[1..], j);
    }
  }

  /** A quiet tick and one transfer add one entry, ten minutes on. */
  lemma TickAndOne(c: Thread)
    ensures var d := Step(Step(c, Idle), Batch([0]));
            d.loc == c.loc && d.ledger == c.ledger + [Entry(c.time + STEP, 1)]
  {
    EncodeOne([0]);
    assert [0][..1] == [0];
    assert Shift([Entry(0, 1)], c.time + STEP) == [Entry(c.time + STEP, 1)];
  }

  /** An entry ten minutes after everything so far makes a window full. */
  lemma LaterEntry(c: Thread, l: seq<Entry>, e: Entry)
    requires Increasing(l) && c.ledger == l + [e] && c.loc < |l|
    requires forall i | 0 <= i < |l| :: l[i].time + SPAN - 1 <= e.time
    ensures FullWindows(c) > 0
  {
    assert Increasing(c.ledger);
    SortTidy(c.ledger);
    assert c.ledger[c.loc] == l[c.loc];
  }

  /** The thread after a quiet tick and one transfer has a full window over everything pending. */
  lemma WindowOpens(c: Thread)
    requires Tidy(c) && c.loc < |c.ledger|
    ensures var d := Step(Step(c, Idle), Batch([0])); d.loc == c.loc && |d.ledger| > |c.ledger| && FullWindows(d) > 0
  {
    TickAndOne(c);
    LaterEntry(Step(Step(c, Idle), Batch([0])), c.ledger, Entry(c.time + STEP, 1));
  }

  /** So an indication then takes in everything that was pending. */
  lemma PendingAveraged(b: Book, j: int)
    requires Tidy(b.thread) && Frontier(b) <= j < b.dropped + |b.thread.ledger|
    ensures Covered(Turn(Turn(Turn(b, Idle), Batch([0])), Indicate).spans, j)
  {
    WindowOpens(b.thread);
    var b2 := Turn(Turn(b, Idle), Batch([0]));
    assert b2.thread == Step(Step(b.thread, Idle), Batch([0])) && b2.dropped == b.dropped && b2.spans == b.spans;
    CoveredSnoc(b.spans, (b.dropped + b2.thread.loc, b.dropped + |b2.thread.ledger|), j);
  }

  lemma TurnsThree(b: Book, x: Event, y: Event, z: Event)
    ensures Turns(b, [x, y, z]) == Turn(Turn(Turn(b, x), y), z)
  {
    assert [x, y, z][1..] == [y, z] && [y, z][1..] == [z] && [z][1..] == [];
    var b1 := Turn(b, x);
    var b2 := Turn(b1, y);
    assert Turns(b2, [z]) == Turn(b2, z);
    assert Turns(b1, [y, z]) == Turns(b2, [z]);
  }

  /** In some well-timed continuation, log entry `j` is in a stored average. */
  ghost predicate Averagable(b: Book, j: int) {
    exists more :: AllWellTimed(more) && Covered(Turns(b, more).spans, j)
  }

  lemma LostForGood(b: Book, j: int)
    requires j < Frontier(b) && !Covered(b.spans, j)
    ensures !Averagable(b, j)
  {
    forall more ensures !Covered(Turns(b, more).spans, j) { SettledForGood(b, more, j); }
  }

  lemma AlreadyIn(b: Book, j: int)
    requires Covered(b.spans, j)
    ensures Averagable(b, j)
  {
    assert Turns(b, []) == b && AllWellTimed([]);
  }

  lemma StillTo(b: Book, j: int)
    requires Tidy(b.thread) && Frontier(b) <= j < b.dropped + |b.thread.ledger|
    ensures Averagable(b, j)
  {
    var more := [Idle, Batch([0]), Indicate];
    PendingAveraged(b, j);
    TurnsThree(b, Idle, Batch([0]), Indicate);
    assert AllWellTimed(more) && Covered(Turns(b, more).spans, j);
  }

  /**
   `loc` survives a restart.  So an entry of the current ledger is in an average,
   or can still come into one, exactly if it is not among the first `inherited`
   ones; those are lost, however the run goes on.
   */
  lemma {:induction false} AveragableIff(evs: seq<Event>, k: nat)
    requires AllWellTimed(evs) && k < |Run(evs).ledger|
    ensures Averagable(History(evs), History(evs).dropped + k) <==> History(evs).inherited <= k
  {
    var b := History(evs);
    HistoryOf(evs);
    AlwaysAccounted(evs);
    TidyAlways(evs);
    AccountedIff(b, k);
  }

  lemma AccountedIff(b: Book, k: nat)
    requires Accounted(b) && Tidy(b.thread) && k < |b.thread.ledger|
    ensures Averagable(b, b.dropped + k) <==> b.inherited <= k
  {
    if k < b.inherited {
      LostForGood(b, b.dropped + k);
    } else if k < b.thread.loc {
      AlreadyIn(b, b.dropped + k);
    } else {
      StillTo(b, b.dropped + k);
    }
  }

  lemma TurnRestart(b: Book)
    ensures var b' := Turn(b, Restart); b'.spans == b.spans && Frontier(b') == Frontier(b) + |b.thread.ledger|
  {
  }

  lemma RestartIff(b: Book, k: nat)
    requires Accounted(b) && k < |b.thread.ledger|
    ensures Averagable(Turn(b, Restart), b.dropped + k) <==> b.inherited <= k < b.thread.loc
  {
    TurnRestart(b);
    if Covered(b.spans, b.dropped + k) {
      AlreadyIn(Turn(b, Restart), b.dropped + k);
    } else {
      LostForGood(Turn(b, Restart), b.dropped + k);
    }
  }

  /** And what a restart gives up without having averaged it stays out. */
  lemma {:induction false} GivenUp(evs: seq<Event>, k: nat)
    requires k < |Run(evs).ledger|
    ensures Averagable(Turn(History(evs), Restart), History(evs).dropped + k) <==>
            History(evs).inherited <= k < Run(evs).loc
  {
    HistoryOf(evs);
    AlwaysAccounted(evs);
    RestartIff(History(evs), k);
  }
}
