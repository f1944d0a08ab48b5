/**
 Run-length encoding of a plan, the step that turns a list of minutes into
 ledger entries.  The same loop appears three times in the program: in the
 planned and unplanned branches of the server and in the client's copy.
 */
module RunLength {
  import opened Ledger

  /** The list a sequence of runs stands for. */
  function Expand(runs: seq<Entry>): seq<int> {
    if runs == [] then []
    else Expand(runs[..|runs| - 1]) + Repeat(runs[|runs| - 1].time, runs[|runs| - 1].count)
  }

  function Repeat(v: int, n: nat): seq<int> { seq(n, _ => v) }

  /** No empty run, and neighbouring runs differ. */
  ghost predicate Canonical(runs: seq<Entry>) {
    && (forall i | 0 <= i < |runs| :: runs[i].count >= 1)
    && (forall i, j | 0 <= i < j < |runs| && j == i + 1 :: runs[i].time != runs[j].time)
  }

  /** Adds one more transfer in minute `v` at the end. */
  function Grow(runs: seq<Entry>, v: int): seq<Entry> {
    if runs != [] && runs[|runs| - 1].time == v
    then runs[..|runs| - 1] + [Entry(v, runs[|runs| - 1].count + 1)]
    else runs + [Entry(v, 1)]
  }

  function Encode(plan: seq<int>): seq<Entry> {
    if plan == [] then [] else Grow(Encode(plan[..|plan| - 1]), plan[|plan| - 1])
  }

  lemma EncodeSnoc(p: seq<int>, v: int)
    ensures Encode(p + [v]) == Grow(Encode(p), v)
  {
    assert (p + [v])[..|p|] == p;
  }

  /** One more minute, with the open run kept apart. */
  lemma EncodeNext(plan: seq<int>, i: nat, runs: seq<Entry>, count: nat)
    requires 0 < i < |plan| && runs + [Entry(plan[i - 1], count)] == Encode(plan[..i])
    ensures Encode(plan[..i + 1]) ==
            if plan[i] == plan[i - 1] then runs + [Entry(plan[i], count + 1)]
            else runs + [Entry(plan[i - 1], count)] + [Entry(plan[i], 1)]
  {
    assert plan[..i + 1][..i] == plan[..i];
  }

  lemma EncodeOne(plan: seq<int>)
    requires plan != []
    ensures [] + [Entry(plan[0], 1)] == Encode(plan[..1])
  {
    assert plan[..1][..0] == [];
  }

  /** The loop of the program, final flush included. */
  method EncodeLoop(plan: seq<int>) returns (runs: seq<Entry>)
    requires plan != []
    ensures runs == Encode(plan)
  {
    runs := [];
    var count := 1;
    EncodeOne(plan);
    for i := 1 to |plan|
      invariant 1 <= count
      invariant runs + [Entry(plan[i - 1], count)] == Encode(plan[..i])
    {
      EncodeNext(plan, i, runs, count);
      if plan[i] == plan[i - 1] {
        count := count + 1;
        continue;
      } else {
        runs := runs + [Entry(plan[i - 1], count)];
        count := 1;
      }
    }
    assert plan[..|plan|] == plan;
    runs := runs + [Entry(plan[|plan| - 1], count)];
  }

  lemma {:induction false} GrowExact(runs: seq<Entry>, v: int)
    requires Canonical(runs)
    ensures Canonical(Grow(runs, v)) && Expand(Grow(runs, v)) == Expand(runs) + [v]
  {
    var r := Grow(runs, v);
    if runs != [] && runs[|runs| - 1].time == v {
      var r0, c := runs[..|runs| - 1], runs[|runs| - 1].count;
      assert r[..|r0|] == r0;
      assert Repeat(v, c + 1) == Repeat(v, c) + [v];
    } else {
      assert r[..|runs|] == runs;
      assert Repeat(v, 1) == [v];
    }
  }

  lemma GrowIncreasing(runs: seq<Entry>, v: int)
    requires Increasing(runs) && (runs == [] || runs[|runs| - 1].time <= v)
    ensures Increasing(Grow(runs, v))
  {
    var r := Grow(runs, v);
    assert forall i | 0 <= i < |r| - 1 :: r[i] == runs[i];
  }

  ghost predicate Spells(runs: seq<Entry>, p: seq<int>) { Canonical(runs) && Expand(runs) == p }

  lemma GrowSpells(runs: seq<Entry>, p: seq<int>, v: int)
    requires Spells(runs, p)
    ensures Spells(Grow(runs, v), p + [v])
  {
    GrowExact(runs, v);
  }

  lemma {:induction false} EncodeSpells(plan: seq<int>)
    ensures Spells(Encode(plan), plan)
  {
    if plan == [] {
    } else {
      var p, v := plan[..|plan| - 1], plan[|plan| - 1];
      EncodeSpells(p);
      GrowSpells(Encode(p), p, v);
      assert p + [v] == plan;
    }
  }

  /** Encoding loses nothing and is canonical. */
  lemma EncodeExact(plan: seq<int>)
    ensures Canonical(Encode(plan)) && Expand(Encode(plan)) == plan
  {
    EncodeSpells(plan);
  }

  lemma {:induction false} ExpandLast(runs: seq<Entry>)
    requires runs != [] && Canonical(runs)
    ensures Expand(runs) != [] && Expand(runs)[|Expand(runs)| - 1] == runs[|runs| - 1].time
  {
  }

  /** The last run is the maximal block of equal values at the end of the list. */
  lemma {:induction false} LastRunMaximal(runs: seq<Entry>)
    requires runs != [] && Canonical(runs)
    ensures var p, x := Expand(runs), runs[|runs| - 1];
            && x.count <= |p|
            && (forall i | |p| - x.count <= i < |p| :: p[i] == x.time)
            && (x.count < |p| ==> p[|p| - x.count - 1] != x.time)
  {
    var r0 := runs[..|runs| - 1];
    if r0 != [] {
      ExpandLast(r0);
    }
  }

  /** Two canonical encodings of the same list end in the same run. */
  lemma {:induction false} LastRunUnique(a: seq<Entry>, b: seq<Entry>)
    requires a != [] && b != [] && Canonical(a) && Canonical(b) && Expand(a) == Expand(b)
    ensures a[|a| - 1] == b[|b| - 1]
  {
    ExpandLast(a);
    ExpandLast(b);
    LastRunMaximal(a);
    LastRunMaximal(b);
  }

  /** A list has exactly one canonical run-length encoding. */
  lemma {:induction false} EncodingUnique(a: seq<Entry>, b: seq<Entry>)
    requires Canonical(a) && Canonical(b) && Expand(a) == Expand(b)
    ensures a == b
  {
    if a == [] {
      if b != [] { ExpandLast(b); }
    } else if b == [] {
      ExpandLast(a);
    } else {
      LastRunUnique(a, b);
      var a0, b0, x := a[..|a| - 1], b[..|b| - 1], a[|a| - 1];
      var p := Expand(a);
      assert Expand(a0) == p[..|p| - x.count];
      assert Expand(b0) == p[..|p| - x.count];
      EncodingUnique(a0, b0);
      assert a == a0 + [x] && b == b0 + [x];
    }
  }

  /** Encoding inverts expansion on canonical runs. */
  lemma {:induction false} EncodeExpand(runs: seq<Entry>)
    requires Canonical(runs)
    ensures Encode(Expand(runs)) == runs
  {
    EncodeExact(Expand(runs));
    EncodingUnique(Encode(Expand(runs)), runs);
  }

  lemma {:induction false} ExpandSize(runs: seq<Entry>)
    ensures |Expand(runs)| == Total(runs)
  {
    if runs == [] {
    } else {
      ExpandSize(runs[..|runs| - 1]);
    }
  }

  /** The runs of a plan account for every transfer in it. */
  lemma {:induction false} EncodeTotal(plan: seq<int>)
    ensures Total(Encode(plan)) == |plan|
  {
    EncodeExact(plan);
    ExpandSize(Encode(plan));
  }

  /** The runs of an ascending plan have strictly increasing times, within the plan's bounds. */
  lemma {:induction false} EncodeIncreasing(plan: seq<int>, lo: int, hi: int)
    requires Ascending(plan)
    requires forall i | 0 <= i < |plan| :: lo <= plan[i] <= hi
    ensures Increasing(Encode(plan))
    ensures forall i | 0 <= i < |Encode(plan)| :: lo <= Encode(plan)[i].time <= hi
    ensures plan != [] ==> Encode(plan) != [] && Encode(plan)[|Encode(plan)| - 1].time == plan[|plan| - 1]
  {
    if plan == [] {
    } else {
      var n := |plan| - 1;
      var r := Encode(plan[..n]);
      assert Encode(plan) == Grow(r, plan[n]);
      EncodeIncreasing(plan[..n], lo, hi);
      assert n > 0 ==> plan[n - 1] <= plan[n];
      GrowIncreasing(r, plan[n]);
    }
  }
}
