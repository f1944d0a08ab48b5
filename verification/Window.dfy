/**
 Ten-minute windows over a ledger: the detector's backward scan, the sliding
 average, and how both relate to the plain sum of a window.
 */
module Window {
  import opened Ledger

  const SPAN := 10

  /** Transfers made from minute `a` to minute `b`. */
  function WindowSum(l: seq<Entry>, a: int, b: int): nat {
    if l == [] then 0
    else WindowSum(l[..|l| - 1], a, b) + if a <= l[|l| - 1].time <= b then l[|l| - 1].count else 0
  }

  /** Transfers in the ten minutes from `a`. */
  function Ten(l: seq<Entry>, a: int): nat { WindowSum(l, a, a + SPAN - 1) }

  /** The detector's scan: backwards from `j`, stopping at the first entry too old for entry `i`. */
  function Scan(l: seq<Entry>, i: nat, j: int): nat
    requires -1 <= j <= i < |l|
    decreases j + 1
  {
    if j < 0 || l[i].time - l[j].time > SPAN - 1 then 0 else l[j].count + Scan(l, i, j - 1)
  }

  // -------------------------------------------------------- scan = window sum

  lemma {:induction false} WindowBefore(l: seq<Entry>, a: int, b: int)
    requires forall i | 0 <= i < |l| :: l[i].time < a
    ensures WindowSum(l, a, b) == 0
  {
    if l == [] {
    } else {
      WindowBefore(l[..|l| - 1], a, b);
    }
  }

  lemma {:induction false} WindowPrefix(l: seq<Entry>, k: nat, a: int, b: int)
    requires k <= |l| && forall i | k <= i < |l| :: l[i].time > b
    ensures WindowSum(l[..k], a, b) == WindowSum(l, a, b)
  {
    if k < |l| {
      var l0 := l[..|l| - 1];
      WindowPrefix(l0, k, a, b);
      assert l0[..k] == l[..k];
    } else {
      assert l[..k] == l;
    }
  }

  lemma {:induction false} ScanPrefix(l: seq<Entry>, i: nat, j: int)
    requires Increasing(l) && -1 <= j <= i < |l|
    ensures Scan(l, i, j) == WindowSum(l[..j + 1], l[i].time - SPAN + 1, l[i].time)
    decreases j + 1
  {
    if j >= 0 {
      if l[i].time - l[j].time > SPAN - 1 {
        WindowBefore(l[..j + 1], l[i].time - SPAN + 1, l[i].time);
      } else {
        ScanPrefix(l, i, j - 1);
        assert l[..j + 1][..j] == l[..j];
        assert l[..j + 1][j] == l[j];
      }
    }
  }

  /** On a strictly increasing ledger the early break misses nothing, before or after. */
  lemma ScanIsWindow(l: seq<Entry>, i: nat)
    requires Increasing(l) && i < |l|
    ensures Scan(l, i, i) == Ten(l, l[i].time - SPAN + 1)
  {
    ScanPrefix(l, i, i);
    WindowPrefix(l, i + 1, l[i].time - SPAN + 1, l[i].time);
  }

  // -------------------------------------------------------------- domination

  /** The last entry inside the window, or -1. */
  function LastIn(l: seq<Entry>, a: int, b: int): (k: int)
    ensures -1 <= k < |l|
    ensures k >= 0 ==> a <= l[k].time <= b
    ensures forall i | k < i < |l| :: !(a <= l[i].time <= b)
  {
    if l == [] then -1
    else if a <= l[|l| - 1].time <= b then |l| - 1
    else LastIn(l[..|l| - 1], a, b)
  }

  lemma {:induction false} WindowGrows(l: seq<Entry>, a: int, b: int, c: int, d: int)
    requires forall i | 0 <= i < |l| :: a <= l[i].time <= b ==> c <= l[i].time <= d
    ensures WindowSum(l, a, b) <= WindowSum(l, c, d)
  {
    if l == [] {
    } else {
      WindowGrows(l[..|l| - 1], a, b, c, d);
    }
  }

  lemma {:induction false} WindowNone(l: seq<Entry>, a: int, b: int)
    requires forall i | 0 <= i < |l| :: !(a <= l[i].time <= b)
    ensures WindowSum(l, a, b) == 0
  {
    if l == [] {
    } else {
      WindowNone(l[..|l| - 1], a, b);
    }
  }

  /** Every ten-minute window is empty or dominated by a window that ends at an entry. */
  lemma Dominated(l: seq<Entry>, a: int)
    requires Increasing(l)
    ensures Ten(l, a) == 0 || exists i :: 0 <= i < |l| && Ten(l, a) <= Scan(l, i, i)
  {
    var k := LastIn(l, a, a + SPAN - 1);
    if k < 0 {
      WindowNone(l, a, a + SPAN - 1);
    } else {
      ScanIsWindow(l, k);
      WindowGrows(l, a, a + SPAN - 1, l[k].time - SPAN + 1, l[k].time);
    }
  }

  // ---------------------------------------------------------------- detector

  /** The probability with which a count is caught. */
  function Bar(count: nat): real {
    if count > 250 then 0.9 else if count > 200 then 0.8 else if count > 100 then 0.7 else 0.0
  }

  /** The count tested `k`-th, from the end of the ledger. */
  function Tested(l: seq<Entry>, k: nat): nat
    requires k < |l|
  {
    Scan(l, |l| - 1 - k, |l| - 1 - k)
  }

  ghost predicate Draws(draws: seq<real>, n: nat) {
    |draws| >= n && forall i | 0 <= i < |draws| :: 0.0 <= draws[i] < 1.0
  }

  /** Some test from the end draws below its bar. */
  ghost predicate Rejected(l: seq<Entry>, draws: seq<real>)
    requires |draws| >= |l|
  {
    exists k :: 0 <= k < |l| && draws[k] < Bar(Tested(l, k))
  }

  /**
   A strictly increasing ledger passes the detector whatever is drawn exactly
   if no ten minutes anywhere hold more than a hundred transfers.
   */
  lemma SafeIff(l: seq<Entry>)
    requires Increasing(l)
    ensures (forall draws: seq<real> | Draws(draws, |l|) :: !Rejected(l, draws)) <==> (forall a :: Ten(l, a) <= 100)
  {
    if forall a :: Ten(l, a) <= 100 {
      forall draws: seq<real> | Draws(draws, |l|) ensures !Rejected(l, draws) {
        forall k | 0 <= k < |l| ensures draws[k] >= Bar(Tested(l, k)) {
          ScanIsWindow(l, |l| - 1 - k);
          assert Ten(l, l[|l| - 1 - k].time - SPAN + 1) <= 100;
        }
      }
    } else {
      var a :| Ten(l, a) > 100;
      Dominated(l, a);
      var i :| 0 <= i < |l| && Ten(l, a) <= Scan(l, i, i);
      var zeros := seq(|l|, _ => 0.0);
      assert Draws(zeros, |l|);
      assert zeros[|l| - 1 - i] < Bar(Tested(l, |l| - 1 - i));
      assert Rejected(l, zeros);
    }
  }

  /** A draw below the level of a count: seven tenths from 101, eight from 201, nine from 251. */
  predicate Below(count: nat, draw: real) {
    || (count > 250 && draw < 0.9)
    || (200 < count <= 250 && draw < 0.8)
    || (100 < count <= 200 && draw < 0.7)
  }

  /**
   A strictly increasing ledger is rejected exactly if, for some entry, the draw
   of its turn from the end lies below the level of the ten minutes up to it.
   */
  lemma VerdictExact(l: seq<Entry>, draws: seq<real>)
    requires Increasing(l) && Draws(draws, |l|)
    ensures Rejected(l, draws) <==>
            exists i :: 0 <= i < |l| && Below(WindowSum(l, l[i].time - 9, l[i].time), draws[|l| - 1 - i])
  {
    forall i | 0 <= i < |l|
      ensures draws[|l| - 1 - i] < Bar(Tested(l, |l| - 1 - i)) <==>
              Below(WindowSum(l, l[i].time - 9, l[i].time), draws[|l| - 1 - i])
    {
      ScanIsWindow(l, i);
    }
    if Rejected(l, draws) {
      var k :| 0 <= k < |l| && draws[k] < Bar(Tested(l, k));
      assert Below(WindowSum(l, l[|l| - 1 - k].time - 9, l[|l| - 1 - k].time), draws[|l| - 1 - (|l| - 1 - k)]);
    }
  }

  /** Whatever the order: the scan adds up the longest stretch back from `i` whose minutes are not too old. */
  lemma {:induction false} ScanStretch(l: seq<Entry>, i: nat, j: int) returns (k: nat)
    requires -1 <= j <= i < |l|
    ensures k <= j + 1 && Scan(l, i, j) == Total(l[k..j + 1])
    ensures forall m | k <= m <= j :: l[i].time - l[m].time <= 9
    ensures k > 0 ==> l[i].time - l[k - 1].time > 9
    decreases j + 1
  {
    if j < 0 || l[i].time - l[j].time > SPAN - 1 {
      k := j + 1;
    } else {
      k := ScanStretch(l, i, j - 1);
      assert l[k..j + 1][..j - k] == l[k..j];
    }
  }

  /** Same minutes, counts no smaller. */
  ghost predicate Heavier(l: seq<Entry>, m: seq<Entry>) {
    |l| == |m| && forall i | 0 <= i < |l| :: l[i].time == m[i].time && l[i].count <= m[i].count
  }

  lemma {:induction false} ScanMonotone(l: seq<Entry>, m: seq<Entry>, i: nat, j: int)
    requires Heavier(l, m) && -1 <= j <= i < |l|
    ensures Scan(l, i, j) <= Scan(m, i, j)
    decreases j + 1
  {
    if j < 0 {
    } else {
      ScanMonotone(l, m, i, j - 1);
    }
  }

  /** Sending more, or drawing lower, never turns a rejection into a pass. */
  lemma VerdictMonotone(l: seq<Entry>, m: seq<Entry>, draws: seq<real>, lower: seq<real>)
    requires Heavier(l, m) && |lower| == |draws| >= |l|
    requires forall k | 0 <= k < |draws| :: lower[k] <= draws[k]
    requires Rejected(l, draws)
    ensures Rejected(m, lower)
  {
    var k :| 0 <= k < |l| && draws[k] < Bar(Tested(l, k));
    ScanMonotone(l, m, |l| - 1 - k, |l| - 1 - k);
    assert lower[k] < Bar(Tested(m, k));
  }

  // ---------------------------------------------------------- sliding average

  /** Sum of the `n` ten-minute windows starting at `a`, `a + 1`, ... */
  function SumTens(l: seq<Entry>, a: int, n: nat): nat {
    if n == 0 then 0 else SumTens(l, a, n - 1) + Ten(l, a + n - 1)
  }

  /** How many of those windows contain minute `t`. */
  function Covering(t: int, a: int, n: nat): nat {
    if n == 0 then 0
    else Covering(t, a, n - 1) + if a + n - 1 <= t <= a + n - 1 + SPAN - 1 then 1 else 0
  }

  function Min(x: int, y: int): int { if x <= y then x else y }

  function Max(x: int, y: int): int { if x >= y then x else y }

  /** Weight of minute `t` among windows that start at `start` and end by `end`. */
  function Weight(t: int, start: int, end: int): int {
    Max(0, Min(t, end - SPAN + 1) - Max(start, t - SPAN + 1) + 1)
  }

  function Weighted(l: seq<Entry>, start: int, end: int): int {
    if l == [] then 0
    else Weighted(l[..|l| - 1], start, end) + l[|l| - 1].count * Weight(l[|l| - 1].time, start, end)
  }

  lemma {:induction false} CoveringIsWeight(t: int, a: int, n: nat)
    requires n >= 1
    ensures Covering(t, a, n) == Weight(t, a, a + n - 1 + SPAN - 1)
  {
    if n == 1 {
      assert Covering(t, a, 0) == 0;
    } else {
      CoveringIsWeight(t, a, n - 1);
    }
  }

  lemma OneMore(c: nat, k: nat)
    ensures c * (k + 1) == c * k + c
  {
  }

  lemma {:induction false} SumTensSnoc(l: seq<Entry>, e: Entry, a: int, n: nat)
    ensures SumTens(l + [e], a, n) == SumTens(l, a, n) + e.count * Covering(e.time, a, n)
  {
    assert (l + [e])[..|l|] == l;
    if n == 0 {
    } else {
      SumTensSnoc(l, e, a, n - 1);
      OneMore(e.count, Covering(e.time, a, n - 1));
    }
  }

  /** Double counting: window by window, or entry by entry weighted by the windows over it. */
  lemma {:induction false} DoubleCount(l: seq<Entry>, a: int, n: nat)
    requires n >= 1
    ensures SumTens(l, a, n) == Weighted(l, a, a + n - 1 + SPAN - 1)
  {
    if l == [] {
      SumTensEmpty(a, n);
    } else {
      var l0, e := l[..|l| - 1], l[|l| - 1];
      DoubleCount(l0, a, n);
      SumTensSnoc(l0, e, a, n);
      CoveringIsWeight(e.time, a, n);
      assert l == l0 + [e];
    }
  }

  lemma {:induction false} SumTensEmpty(a: int, n: nat)
    ensures SumTens([], a, n) == 0
  {
    if n == 0 {
    } else {
      SumTensEmpty(a, n - 1);
    }
  }

  lemma {:induction false} WeightedConcat(l: seq<Entry>, m: seq<Entry>, start: int, end: int)
    ensures Weighted(l + m, start, end) == Weighted(l, start, end) + Weighted(m, start, end)
  {
    if m == [] {
      assert l + m == l;
    } else {
      var k := |m| - 1;
      assert (l + m)[..|l + m| - 1] == l + m[..k];
      WeightedConcat(l, m[..k], start, end);
    }
  }

  lemma {:induction false} WeightedBefore(l: seq<Entry>, start: int, end: int)
    requires forall i | 0 <= i < |l| :: l[i].time < start
    ensures Weighted(l, start, end) == 0
  {
    if l == [] {
    } else {
      WeightedBefore(l[..|l| - 1], start, end);
    }
  }

  lemma {:induction false} WeightedBounds(l: seq<Entry>, start: int, end: int)
    requires end >= start + SPAN - 1
    requires forall i | 0 <= i < |l| :: start <= l[i].time <= end
    ensures forall i | 0 <= i < |l| :: 1 <= Weight(l[i].time, start, end) <= SPAN
    ensures Total(l) <= Weighted(l, start, end) <= SPAN * Total(l)
  {
    if l == [] {
    } else {
      var n := |l| - 1;
      WeightedBounds(l[..n], start, end);
      assert Total(l) == Total(l[..n]) + l[n].count;
      Scale(l[n].count, Weight(l[n].time, start, end));
    }
  }

  lemma Scale(c: nat, w: int)
    requires 1 <= w <= SPAN
    ensures c <= c * w <= SPAN * c
  {
  }

  lemma WeightedFrom(l: seq<Entry>, loc: nat, start: int, end: int)
    requires loc <= |l| && forall i | 0 <= i < loc :: l[i].time < start
    ensures Weighted(l, start, end) == Weighted(l[loc..], start, end)
  {
    assert l == l[..loc] + l[loc..];
    WeightedConcat(l[..loc], l[loc..], start, end);
    WeightedBefore(l[..loc], start, end);
  }

  /**
   The windows slid over a strictly increasing ledger from entry `loc`: the
   entries from `loc` on count with a weight between 1 and 10 each, the ones
   before not at all.
   */
  lemma SlidingSum(l: seq<Entry>, loc: nat, n: nat)
    requires Increasing(l) && loc < |l| && n >= 1
    requires l[|l| - 1].time == l[loc].time + n - 1 + SPAN - 1
    ensures var start, end := l[loc].time, l[|l| - 1].time;
            && SumTens(l, start, n) == Weighted(l[loc..], start, end)
            && (forall i | loc <= i < |l| :: 1 <= Weight(l[i].time, start, end) <= SPAN)
            && (forall i | 0 <= i < loc :: Weight(l[i].time, start, end) == 0)
            && Total(l[loc..]) <= SumTens(l, start, n) <= SPAN * Total(l[loc..])
  {
    var start, end := l[loc].time, l[|l| - 1].time;
    DoubleCount(l, start, n);
    WeightedFrom(l, loc, start, end);
    assert forall i | loc <= i < |l| :: start <= l[i].time <= end;
    WeightedBounds(l[loc..], start, end);
    forall i | loc <= i < |l| ensures 1 <= Weight(l[i].time, start, end) <= SPAN { assert l[loc..][i - loc] == l[i]; }
  }

  lemma {:induction false} SumTensBound(l: seq<Entry>, a: int, n: nat)
    requires forall c :: Ten(l, c) <= 100
    ensures SumTens(l, a, n) <= 100 * n
  {
    if n == 0 {
    } else {
      SumTensBound(l, a, n - 1);
    }
  }
}
