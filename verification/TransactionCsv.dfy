/**
 The table of transactions written at the end of a simulation: one row per
 user, built through a dictionary from minute to count.
 */
module TransactionCsv {
  import opened Ledger
  import opened Wire

  /** A dictionary that remembers insertion order; storing under an old key keeps its place. */
  datatype Dict = Dict(order: seq<int>, at: map<int, nat>)

  ghost predicate Distinct(s: seq<int>) { forall i, j | 0 <= i < j < |s| :: s[i] != s[j] }

  ghost predicate Listed(d: Dict) {
    (forall i | 0 <= i < |d.order| :: d.order[i] in d.at) && (forall k | k in d.at :: k in d.order)
  }

  function Put(d: Dict, k: int, v: nat): Dict {
    Dict(if k in d.at then d.order else d.order + [k], d.at[k := v])
  }

  function DictOf(l: seq<Entry>): Dict {
    if l == [] then Dict([], map[]) else Put(DictOf(l[..|l| - 1]), l[|l| - 1].time, l[|l| - 1].count)
  }

  /** `d.get(t, 0)`. */
  function Get(d: Dict, t: int): nat { if t in d.at then d.at[t] else 0 }

  function Values(d: Dict): seq<nat> { seq(|d.order|, i requires 0 <= i < |d.order| => Get(d, d.order[i])) }

  lemma PutListed(d: Dict, k: int, v: nat)
    requires Listed(d) && Distinct(d.order)
    ensures Listed(Put(d, k, v)) && Distinct(Put(d, k, v).order)
  {
  }

  lemma {:induction false} DictListed(l: seq<Entry>)
    ensures Listed(DictOf(l)) && Distinct(DictOf(l).order)
    ensures forall i | 0 <= i < |l| :: l[i].time in DictOf(l).at
    ensures forall t | t in DictOf(l).at :: exists i :: 0 <= i < |l| && l[i].time == t
  {
    if l == [] {
    } else {
      var n, d0 := |l| - 1, DictOf(l[..|l| - 1]);
      DictListed(l[..n]);
      PutListed(d0, l[n].time, l[n].count);
      assert forall i | 0 <= i < n :: l[..n][i] == l[i];
      forall t | t in DictOf(l).at ensures exists i :: 0 <= i < |l| && l[i].time == t {
        if t != l[n].time {
          assert t in d0.at;
          var i :| 0 <= i < n && l[..n][i].time == t;
          assert l[i].time == t;
        }
      }
    }
  }

  /** Under each minute stands the count of its last entry. */
  lemma {:induction false} LastWins(l: seq<Entry>, i: nat)
    requires i < |l| && forall j | i < j < |l| :: l[j].time != l[i].time
    ensures l[i].time in DictOf(l).at && DictOf(l).at[l[i].time] == l[i].count
  {
    var n := |l| - 1;
    if i == n {
    } else {
      LastWins(l[..n], i);
    }
  }

  /** And the minutes stand in the order of their first entries. */
  lemma {:induction false} FirstPlaces(l: seq<Entry>, i: nat, j: nat) returns (a: nat, b: nat)
    requires i < j < |l| && forall k, m | 0 <= k < m < |l| && (m == i || m == j) :: l[k].time != l[m].time
    ensures a < b < |DictOf(l).order| && DictOf(l).order[a] == l[i].time && DictOf(l).order[b] == l[j].time
  {
    var n := |l| - 1;
    var l0 := l[..n];
    if j == n {
      DictListed(l0);
      assert l0[i] == l[i];
      a :| 0 <= a < |DictOf(l0).order| && DictOf(l0).order[a] == l[i].time;
      b := |DictOf(l0).order|;
    } else {
      a, b := FirstPlaces(l0, i, j);
    }
  }

  /** The cells written behind a user's id. */
  function RowOf(l: seq<Entry>): seq<nat> { Values(DictOf(l)) }

  function Sum(s: seq<nat>): nat { if s == [] then 0 else Sum(s[..|s| - 1]) + s[|s| - 1] }

  // ------------------------------------------------------------ what is kept

  lemma FreshMinute(l: seq<Entry>, e: Entry)
    requires e.time !in DictOf(l).at
    ensures RowOf(l + [e]) == RowOf(l) + [e.count]
  {
    assert (l + [e])[..|l|] == l;
    DictListed(l);
  }

  /** A strictly increasing ledger loses nothing: its row is its counts, in order. */
  lemma {:induction false} RowExact(l: seq<Entry>)
    requires Increasing(l)
    ensures |RowOf(l)| == |l| && (forall i | 0 <= i < |l| :: RowOf(l)[i] == l[i].count) && Sum(RowOf(l)) == Total(l)
  {
    if l == [] {
    } else {
      var l0, e := l[..|l| - 1], l[|l| - 1];
      RowExact(l0);
      assert l0 + [e] == l;
      assert e.time !in DictOf(l0).at by { DictListed(l0); }
      FreshMinute(l0, e);
      var r0, r := RowOf(l0), RowOf(l);
      assert r[..|r0|] == r0;
    }
  }

  lemma {:induction false} SumUpdate(s: seq<nat>, k: nat, v: nat)
    requires k < |s|
    ensures Sum(s[k := v]) == Sum(s) - s[k] + v
  {
    var n := |s| - 1;
    if k < n {
      assert s[k := v][..n] == s[..n][k := v];
      SumUpdate(s[..n], k, v);
    } else {
      assert s[k := v][..n] == s[..n];
    }
  }

  lemma KnownMinute(l: seq<Entry>, e: Entry)
    requires e.time in DictOf(l).at
    ensures Sum(RowOf(l + [e])) == Sum(RowOf(l)) - DictOf(l).at[e.time] + e.count
  {
    assert (l + [e])[..|l|] == l;
    DictListed(l);
    var d := DictOf(l);
    assert e.time in d.order;
    var k :| 0 <= k < |d.order| && d.order[k] == e.time;
    assert RowOf(l + [e]) == RowOf(l)[k := e.count];
    SumUpdate(RowOf(l), k, e.count);
  }

  lemma {:induction false} DictPositive(l: seq<Entry>)
    requires forall i | 0 <= i < |l| :: l[i].count >= 1
    ensures forall t | t in DictOf(l).at :: DictOf(l).at[t] >= 1
  {
    if l == [] {
    } else {
      DictPositive(l[..|l| - 1]);
    }
  }

  ghost predicate OneMinuteEach(l: seq<Entry>) { forall i, j | 0 <= i < j < |l| :: l[i].time != l[j].time }

  lemma OneMinuteSnoc(l: seq<Entry>, e: Entry)
    ensures OneMinuteEach(l + [e]) <==> OneMinuteEach(l) && e.time !in DictOf(l).at
  {
    var m := l + [e];
    DictListed(l);
    assert forall i | 0 <= i < |l| :: m[i] == l[i];
    if e.time in DictOf(l).at {
      var i :| 0 <= i < |l| && l[i].time == e.time;
      assert m[i].time == m[|l|].time;
    }
  }

  /** Runs are never empty, so the row's total is the ledger's exactly if no minute occurs twice. */
  lemma {:induction false} RowTotalIff(l: seq<Entry>)
    requires forall i | 0 <= i < |l| :: l[i].count >= 1
    ensures Sum(RowOf(l)) <= Total(l)
    ensures Sum(RowOf(l)) == Total(l) <==> OneMinuteEach(l)
  {
    if l == [] {
    } else {
      var l0, e := l[..|l| - 1], l[|l| - 1];
      RowTotalIff(l0);
      assert l0 + [e] == l;
      OneMinuteSnoc(l0, e);
      if e.time in DictOf(l0).at {
        KnownMinute(l0, e);
        DictPositive(l0);
      } else {
        FreshMinute(l0, e);
        assert RowOf(l)[..|RowOf(l0)|] == RowOf(l0);
      }
    }
  }

  // -------------------------------------------------------------- how it fits

  lemma {:induction false} DistinctFits(s: seq<int>, lo: int, hi: int)
    requires Distinct(s) && forall i | 0 <= i < |s| :: lo <= s[i] <= hi
    requires lo <= hi + 1
    ensures |s| <= hi - lo + 1
    decreases hi - lo
  {
    if s == [] {
    } else if hi in s {
      assert lo <= s[0] <= hi;
      var k :| 0 <= k < |s| && s[k] == hi;
      DistinctFits(s[..k] + s[k + 1..], lo, hi - 1);
    } else {
      assert lo <= s[0] <= hi;
      DistinctFits(s, lo, hi - 1);
    }
  }

  /** No row is longer than the header over the global range of minutes. */
  lemma RowFits(l: seq<Entry>, lo: int, hi: int)
    requires lo <= hi && forall i | 0 <= i < |l| :: lo <= l[i].time <= hi
    ensures |RowOf(l)| <= hi - lo + 1
  {
    DictListed(l);
    var s := DictOf(l).order;
    forall i | 0 <= i < |s| ensures lo <= s[i] <= hi { assert s[i] in DictOf(l).at; }
    DistinctFits(s, lo, hi);
  }

  /** The padded series the program computes and then does not write: one cell per minute of the header. */
  function Series(l: seq<Entry>, lo: int, hi: int): seq<nat>
    requires lo <= hi
  {
    seq<nat>(hi - lo + 1, i requires 0 <= i < hi - lo + 1 => Get(DictOf(l), lo + i))
  }

  lemma {:induction false} SlowestRise(l: seq<Entry>, j: nat, k: nat)
    requires Increasing(l) && j <= k < |l|
    ensures l[k].time >= l[j].time + (k - j)
  {
    if j == k {
    } else {
      SlowestRise(l, j, k - 1);
      assert l[k - 1].time < l[k].time;
    }
  }

  lemma Dense(l: seq<Entry>, lo: int, hi: int)
    requires Increasing(l) && |l| == hi - lo + 1 && forall i | 0 <= i < |l| :: lo <= l[i].time <= hi
    ensures forall i | 0 <= i < |l| :: l[i].time == lo + i
  {
    forall i | 0 <= i < |l| ensures l[i].time == lo + i {
      SlowestRise(l, 0, i);
      SlowestRise(l, i, |l| - 1);
    }
  }

  /** Row and header line up, cell under minute, exactly if the user was active in every minute of the range. */
  lemma AlignedIff(l: seq<Entry>, lo: int, hi: int)
    requires Increasing(l) && lo <= hi && forall i | 0 <= i < |l| :: lo <= l[i].time <= hi
    ensures RowOf(l) == Series(l, lo, hi) <==> |l| == hi - lo + 1
  {
    RowExact(l);
    if |l| == hi - lo + 1 { AlignedDense(l, lo, hi); }
  }

  lemma AlignedDense(l: seq<Entry>, lo: int, hi: int)
    requires Increasing(l) && |l| == hi - lo + 1 && l != [] && |RowOf(l)| == |l|
    requires forall i | 0 <= i < |l| :: lo <= l[i].time <= hi && RowOf(l)[i] == l[i].count
    ensures RowOf(l) == Series(l, lo, hi)
  {
    Dense(l, lo, hi);
    forall i | 0 <= i < |l| ensures RowOf(l)[i] == Series(l, lo, hi)[i] {
      DictAt(l, i);
      assert Get(DictOf(l), lo + i) == l[i].count;
    }
  }

  lemma {:induction false} DictAt(l: seq<Entry>, i: nat)
    requires Increasing(l) && i < |l|
    ensures l[i].time in DictOf(l).at && DictOf(l).at[l[i].time] == l[i].count
  {
    var n := |l| - 1;
    if i == n {
    } else {
      DictAt(l[..n], i);
      assert l[i].time < l[n].time;
    }
  }

  // ---------------------------------------------------------------- the table

  /** Header minutes, then id and cells of each user. */
  datatype Table = Table(minutes: seq<int>, rows: seq<(string, seq<nat>)>)

  function TimesOf(l: seq<Entry>): seq<int> { seq(|l|, i requires 0 <= i < |l| => l[i].time) }

  /** `all_times`. */
  function AllTimes(users: seq<(string, seq<Entry>)>): seq<int> {
    if users == [] then [] else AllTimes(users[..|users| - 1]) + TimesOf(users[|users| - 1].1)
  }

  /** Some user has an entry at this minute. */
  ghost predicate Active(users: seq<(string, seq<Entry>)>, t: int) {
    exists u, i :: 0 <= u < |users| && 0 <= i < |users[u].1| && users[u].1[i].time == t
  }

  lemma {:induction false} TimesAreActive(users: seq<(string, seq<Entry>)>, t: int)
    requires t in AllTimes(users)
    ensures Active(users, t)
  {
    var n := |users| - 1;
    if t in TimesOf(users[n].1) {
      var i :| 0 <= i < |users[n].1| && TimesOf(users[n].1)[i] == t;
      assert users[n].1[i].time == t;
    } else {
      TimesAreActive(users[..n], t);
      var u, i :| 0 <= u < n && 0 <= i < |users[..n][u].1| && users[..n][u].1[i].time == t;
      assert users[u].1[i].time == t;
    }
  }

  lemma {:induction false} ActiveIsListed(users: seq<(string, seq<Entry>)>, u: nat, i: nat)
    requires u < |users| && i < |users[u].1|
    ensures users[u].1[i].time in AllTimes(users)
  {
    var n := |users| - 1;
    if u == n {
      assert TimesOf(users[n].1)[i] == users[n].1[i].time;
    } else {
      ActiveIsListed(users[..n], u, i);
    }
  }

  lemma TimesListed(users: seq<(string, seq<Entry>)>)
    ensures AllTimes(users) == [] <==> forall u | 0 <= u < |users| :: users[u].1 == []
    ensures forall u, i | 0 <= u < |users| && 0 <= i < |users[u].1| :: users[u].1[i].time in AllTimes(users)
  {
    forall u, i | 0 <= u < |users| && 0 <= i < |users[u].1| ensures users[u].1[i].time in AllTimes(users) {
      ActiveIsListed(users, u, i);
    }
    if AllTimes(users) == [] {
      forall u | 0 <= u < |users| ensures users[u].1 == [] {
        if users[u].1 != [] { ActiveIsListed(users, u, 0); }
      }
    } else {
      TimesAreActive(users, AllTimes(users)[0]);
    }
  }

  /** The header runs from the first minute anybody was active in to the last. */
  ghost predicate Spans(users: seq<(string, seq<Entry>)>, lo: int, hi: int) {
    && Active(users, lo) && Active(users, hi)
    && forall u, i | 0 <= u < |users| && 0 <= i < |users[u].1| :: lo <= users[u].1[i].time <= hi
  }

  lemma RowsFit(users: seq<(string, seq<Entry>)>, lo: int, hi: int)
    requires Spans(users, lo, hi) && lo <= hi
    ensures forall u | 0 <= u < |users| :: |RowOf(users[u].1)| <= hi - lo + 1
  {
    forall u | 0 <= u < |users| ensures |RowOf(users[u].1)| <= hi - lo + 1 { RowFits(users[u].1, lo, hi); }
  }

  lemma ExtremesSpan(users: seq<(string, seq<Entry>)>, lo: int, hi: int)
    requires var all := AllTimes(users); lo in all && hi in all && forall t | t in all :: lo <= t <= hi
    ensures Spans(users, lo, hi)
  {
    TimesListed(users);
    TimesAreActive(users, lo);
    TimesAreActive(users, hi);
  }

  /** One dictionary from minute to count, and its values in order. */
  method BuildRow(l: seq<Entry>) returns (row: seq<nat>)
    ensures row == RowOf(l)
  {
    var d: Dict := Dict([], map[]);
    for i := 0 to |l|
      invariant d == DictOf(l[..i])
    {
      assert l[..i + 1][..i] == l[..i];
      d := Put(d, l[i].time, l[i].count);
    }
    assert l[..|l|] == l;
    DictListed(l);
    row := [];
    for i := 0 to |d.order|
      invariant row == RowOf(l)[..i]
    {
      row := row + [Get(d, d.order[i])];
    }
    assert row == RowOf(l);
  }

  /** The loop that collects every minute of every user. */
  method CollectTimes(users: seq<(string, seq<Entry>)>) returns (all: seq<int>)
    ensures all == AllTimes(users)
  {
    all := [];
    for u := 0 to |users|
      invariant all == AllTimes(users[..u])
    {
      assert users[..u + 1][..u] == users[..u];
      var l := users[u].1;
      for i := 0 to |l|
        invariant all == AllTimes(users[..u]) + TimesOf(l)[..i]
      {
        all := all + [l[i].time];
      }
      assert TimesOf(l)[..|l|] == TimesOf(l);
    }
    assert users[..|users|] == users;
  }

  /** `min` and `max`. */
  method Extremes(all: seq<int>) returns (lo: int, hi: int)
    requires all != []
    ensures lo in all && hi in all && forall t | t in all :: lo <= t <= hi
  {
    lo, hi := all[0], all[0];
    for i := 1 to |all|
      invariant lo in all && hi in all && forall j | 0 <= j < i :: lo <= all[j] <= hi
    {
      if all[i] < lo { lo := all[i]; }
      if all[i] > hi { hi := all[i]; }
    }
  }

  method BuildRows(users: seq<(string, seq<Entry>)>) returns (rows: seq<(string, seq<nat>)>)
    ensures |rows| == |users| && forall u | 0 <= u < |users| :: rows[u] == (users[u].0, RowOf(users[u].1))
  {
    rows := [];
    for u := 0 to |users|
      invariant |rows| == u && forall v | 0 <= v < u :: rows[v] == (users[v].0, RowOf(users[v].1))
    {
      var row := BuildRow(users[u].1);
      rows := rows + [(users[u].0, row)];
    }
  }

  /** `time_range`: every minute from the first anybody was active in to the last. */
  method TimeRange(users: seq<(string, seq<Entry>)>, all: seq<int>) returns (minutes: seq<int>)
    requires all == AllTimes(users) && all != []
    ensures minutes != [] && Spans(users, minutes[0], minutes[|minutes| - 1])
    ensures forall k | 0 <= k < |minutes| :: minutes[k] == minutes[0] + k
    ensures minutes[0] in all && minutes[|minutes| - 1] in all
    ensures forall t | t in all :: minutes[0] <= t <= minutes[|minutes| - 1]
  {
    var lo, hi := Extremes(all);
    minutes := seq(hi - lo + 1, k => lo + k);
    assert minutes[0] == lo && minutes[|minutes| - 1] == hi;
    ExtremesSpan(users, lo, hi);
  }

  /** `save_transaction` for users with distinct ids, as the threads number themselves. */
  method SaveTransaction(users: seq<(string, seq<Entry>)>) returns (table: Option<Table>)
    requires forall i, j | 0 <= i < j < |users| :: users[i].0 != users[j].0
    ensures table.None? <==> forall u | 0 <= u < |users| :: users[u].1 == []
    ensures table.Some? ==>
              var minutes, rows := table.value.minutes, table.value.rows;
              && minutes != [] && minutes[0] in AllTimes(users) && minutes[|minutes| - 1] in AllTimes(users)
              && (forall k | 0 <= k < |minutes| :: minutes[k] == minutes[0] + k)
              && (forall t | t in AllTimes(users) :: minutes[0] <= t <= minutes[|minutes| - 1])
              && Spans(users, minutes[0], minutes[|minutes| - 1])
              && |rows| == |users|
              && forall u | 0 <= u < |users| :: rows[u] == (users[u].0, RowOf(users[u].1)) && |rows[u].1| <= |minutes|
  {
    var all := CollectTimes(users);
    TimesListed(users);
    if all == [] { return None; }
    var minutes := TimeRange(users, all);
    var rows := BuildRows(users);
    RowsFit(users, minutes[0], minutes[|minutes| - 1]);
    assert |minutes| == minutes[|minutes| - 1] - minutes[0] + 1;
    table := Some(Table(minutes, rows));
  }
}
