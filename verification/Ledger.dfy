/**
 Ledger entries and the facts about lists that every component relies on.

 Money is counted in whole units of 0.01 ETH, one unit per transfer, so a
 ledger's total count is also the amount it moves.
 */
module Ledger {

  /** One ledger line: so many transfers in one minute. */
  datatype Entry = Entry(time: int, count: nat)

  function TimeOf(e: Entry): int { e.time }

  /** Times strictly increase, so no minute appears twice. */
  ghost predicate Increasing(l: seq<Entry>) {
    forall i, j | 0 <= i < j < |l| :: l[i].time < l[j].time
  }

  function Total(l: seq<Entry>): nat {
    if l == [] then 0 else Total(l[..|l| - 1]) + l[|l| - 1].count
  }

  /** The same counts, every time moved by `d`. */
  function Shift(l: seq<Entry>, d: int): seq<Entry> {
    seq(|l|, i requires 0 <= i < |l| => Entry(l[i].time + d, l[i].count))
  }

  lemma {:induction false} TotalConcat(a: seq<Entry>, b: seq<Entry>)
    ensures Total(a + b) == Total(a) + Total(b)
  {
    if b == [] {
      assert a + b == a;
    } else {
      assert (a + b)[..|a + b| - 1] == a + b[..|b| - 1];
      TotalConcat(a, b[..|b| - 1]);
    }
  }

  lemma {:induction false} ShiftTotal(l: seq<Entry>, d: int)
    ensures Total(Shift(l, d)) == Total(l)
  {
    if l == [] {
    } else {
      assert Shift(l, d)[..|l| - 1] == Shift(l[..|l| - 1], d);
      ShiftTotal(l[..|l| - 1], d);
    }
  }

  // ---------------------------------------------------------------- sorting

  ghost predicate SortedBy<T>(s: seq<T>, key: T -> int) {
    forall i, j | 0 <= i < j < |s| :: key(s[i]) <= key(s[j])
  }

  /** Places `x` behind every element whose key is not larger. */
  function Insert<T>(s: seq<T>, x: T, key: T -> int): (r: seq<T>)
    ensures |r| == |s| + 1
  {
    if s == [] || key(s[|s| - 1]) <= key(x) then s + [x]
    else Insert(s[..|s| - 1], x, key) + [s[|s| - 1]]
  }

  /** A stable sort by key. */
  function Sort<T>(s: seq<T>, key: T -> int): (r: seq<T>)
    ensures |r| == |s|
  {
    if s == [] then [] else Insert(Sort(s[..|s| - 1], key), s[|s| - 1], key)
  }

  lemma {:induction false} InsertKeeps<T>(s: seq<T>, x: T, key: T -> int)
    ensures multiset(Insert(s, x, key)) == multiset(s) + multiset{x}
  {
    if s == [] {
    } else {
      var s0, y := s[..|s| - 1], s[|s| - 1];
      assert s == s0 + [y];
      if key(y) > key(x) { InsertKeeps(s0, x, key); }
    }
  }

  lemma {:induction false} InsertSorted<T>(s: seq<T>, x: T, key: T -> int, hi: int)
    requires SortedBy(s, key) && key(x) <= hi && (s == [] || key(s[|s| - 1]) <= hi)
    ensures SortedBy(Insert(s, x, key), key)
    ensures var r := Insert(s, x, key); key(r[|r| - 1]) <= hi
  {
    if s == [] || key(s[|s| - 1]) <= key(x) {
    } else {
      InsertSorted(s[..|s| - 1], x, key, key(s[|s| - 1]));
    }
  }

  /** Sorting yields an ascending permutation. */
  lemma {:induction false} SortSorts<T>(s: seq<T>, key: T -> int)
    ensures SortedBy(Sort(s, key), key)
    ensures multiset(Sort(s, key)) == multiset(s)
  {
    if s == [] {
    } else {
      var s0, x := s[..|s| - 1], s[|s| - 1];
      var r := Sort(s0, key);
      SortSorts(s0, key);
      var hi := if r == [] || key(r[|r| - 1]) < key(x) then key(x) else key(r[|r| - 1]);
      InsertSorted(r, x, key, hi);
      InsertKeeps(r, x, key);
      assert s == s0 + [x];
    }
  }

  /** Sorting what is already ascending changes nothing. */
  lemma {:induction false} SortIdentity<T>(s: seq<T>, key: T -> int)
    requires SortedBy(s, key)
    ensures Sort(s, key) == s
  {
    if s == [] {
    } else {
      SortIdentity(s[..|s| - 1], key);
      assert s == s[..|s| - 1] + [s[|s| - 1]];
    }
  }

  // ------------------------------------------------- sorting a list of minutes

  ghost predicate Ascending(p: seq<int>) {
    forall i, j | 0 <= i < j < |p| :: p[i] <= p[j]
  }

  function Self(x: int): int { x }

  function SortInts(p: seq<int>): (r: seq<int>)
    ensures |r| == |p|
  {
    Sort(p, Self)
  }

  lemma SortIntsSorts(p: seq<int>)
    ensures Ascending(SortInts(p)) && multiset(SortInts(p)) == multiset(p) && |SortInts(p)| == |p|
    ensures Ascending(p) ==> SortInts(p) == p
  {
    SortSorts(p, Self);
    var r := SortInts(p);
    forall i, j | 0 <= i < j < |r| ensures r[i] <= r[j] { assert Self(r[i]) <= Self(r[j]); }
    if Ascending(p) { SortIdentity(p, Self); }
  }

  lemma LastIsLargest(a: seq<int>, x: int)
    requires a != [] && Ascending(a) && x in multiset(a)
    ensures x <= a[|a| - 1]
  {
  }

  lemma SameLast(a: seq<int>, x: int, b: seq<int>, y: int)
    requires Ascending(a + [x]) && Ascending(b + [y]) && multiset(a + [x]) == multiset(b + [y])
    ensures x == y
  {
    assert x in multiset(a + [x]) && y in multiset(b + [y]);
    LastIsLargest(a + [x], y);
    LastIsLargest(b + [y], x);
  }

  lemma Cancel(m: multiset<int>, n: multiset<int>, x: int)
    requires m + multiset{x} == n + multiset{x}
    ensures m == n
  {
    forall z ensures m[z] == n[z] { assert (m + multiset{x})[z] == (n + multiset{x})[z]; }
  }

  lemma SameRest(a: seq<int>, x: int, b: seq<int>, y: int)
    requires Ascending(a + [x]) && Ascending(b + [y]) && multiset(a + [x]) == multiset(b + [y])
    ensures x == y && multiset(a) == multiset(b)
  {
    SameLast(a, x, b, y);
    assert multiset(a + [x]) == multiset(a) + multiset{x};
    assert multiset(b + [y]) == multiset(b) + multiset{y};
    Cancel(multiset(a), multiset(b), x);
  }

  /** There is only one ascending arrangement of a multiset of integers. */
  lemma {:induction false} AscendingUnique(a: seq<int>, b: seq<int>)
    requires Ascending(a) && Ascending(b) && multiset(a) == multiset(b)
    ensures a == b
  {
    assert |a| == |b| by { assert |multiset(a)| == |multiset(b)|; }
    if a == [] {
    } else {
      var a0, x, b0, y := a[..|a| - 1], a[|a| - 1], b[..|a| - 1], b[|a| - 1];
      assert a0 + [x] == a && b0 + [y] == b;
      SameRest(a0, x, b0, y);
      AscendingUnique(a0, b0);
    }
  }
}
