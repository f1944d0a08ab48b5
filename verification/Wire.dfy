/**
 The text a plan travels in: decimal numbers joined by commas, as the server
 writes it and the client splits it apart again.
 */
module Wire {

  datatype Option<+T> = None | Some(value: T)

  /** The message a client skips without recording anything. */
  const SKIP := "-1"

  // ------------------------------------------------------- decimal integers

  function Digit(d: nat): (c: char)
    requires d < 10
    ensures DigitValue(c) == Some(d)
  {
    ('0' as int + d) as char
  }

  function NatText(n: nat): string {
    if n < 10 then [Digit(n)] else NatText(n / 10) + [Digit(n % 10)]
  }

  /** `str(n)`. */
  function IntText(n: int): string {
    if n < 0 then "-" + NatText(-n) else NatText(n)
  }

  function DigitValue(c: char): Option<nat> {
    if '0' <= c <= '9' then Some((c - '0') as nat) else None
  }

  function ParseNat(s: string): Option<int> {
    if s == [] then None
    else match DigitValue(s[|s| - 1])
      case None => None
      case Some(d) =>
        if |s| == 1 then Some(d)
        else match ParseNat(s[..|s| - 1])
          case None => None
          case Some(n) => Some(10 * n + d)
  }

  /** `int(s)` on the texts that can occur here; other texts make Python raise. */
  function ParseInt(s: string): Option<int> {
    if s != [] && s[0] == '-' then Negate(ParseNat(s[1..])) else ParseNat(s)
  }

  function Negate(r: Option<int>): Option<int> {
    match r case None => None case Some(n) => Some(-n)
  }

  ghost predicate IsDigits(s: string) {
    s != [] && forall i | 0 <= i < |s| :: '0' <= s[i] <= '9'
  }

  lemma {:induction false} NatRoundTrip(n: nat)
    ensures IsDigits(NatText(n)) && ParseNat(NatText(n)) == Some(n)
    decreases n
  {
    var d := n % 10;
    if n < 10 {
    } else {
      NatRoundTrip(n / 10);
      var s := NatText(n);
      assert s[..|s| - 1] == NatText(n / 10) && s[|s| - 1] == Digit(d);
      assert n == 10 * (n / 10) + d;
    }
  }

  /** And without leading zeros. */
  lemma {:induction false} NatCanonical(n: nat)
    ensures n > 0 ==> NatText(n)[0] != '0'
    ensures n == 0 ==> NatText(n) == "0"
  {
    if n < 10 {
    } else {
      NatCanonical(n / 10);
    }
  }

  lemma IntRoundTrip(n: int)
    ensures ParseInt(IntText(n)) == Some(n)
    ensures IntText(n) != [] && ',' !in IntText(n)
  {
    NatRoundTrip(if n < 0 then -n else n);
    if n < 0 {
      assert IntText(n)[1..] == NatText(-n);
    }
  }

  // ------------------------------------------------------- comma-joined lists

  function Texts(xs: seq<int>): seq<string> {
    seq(|xs|, i requires 0 <= i < |xs| => IntText(xs[i]))
  }

  /** `','.join(parts)`. */
  function Join(parts: seq<string>): string {
    if parts == [] then ""
    else if |parts| == 1 then parts[0]
    else Join(parts[..|parts| - 1]) + "," + parts[|parts| - 1]
  }

  /** Position of the last comma, or -1. */
  function LastComma(s: string): (k: int)
    ensures -1 <= k < |s|
    ensures k >= 0 ==> s[k] == ','
    ensures forall i | k < i < |s| :: s[i] != ','
  {
    if s == [] then -1
    else if s[|s| - 1] == ',' then |s| - 1
    else LastComma(s[..|s| - 1])
  }

  /** `s.split(',')`: never empty, and a text without commas is one part. */
  function Split(s: string): seq<string>
    decreases |s|
  {
    var k := LastComma(s);
    if k < 0 then [s] else Split(s[..k]) + [s[k + 1..]]
  }

  /** `[int(x) for x in parts]`; `None` where some part raises. */
  function ParseAll(parts: seq<string>): Option<seq<int>> {
    if parts == [] then Some([])
    else match ParseAll(parts[..|parts| - 1])
      case None => None
      case Some(xs) =>
        match ParseInt(parts[|parts| - 1]) case None => None case Some(x) => Some(xs + [x])
  }

  function ListText(xs: seq<int>): string { Join(Texts(xs)) }

  function ParseList(s: string): Option<seq<int>> { ParseAll(Split(s)) }

  lemma SplitSnoc(s: string, t: string)
    requires ',' !in t
    ensures Split(s + "," + t) == Split(s) + [t]
  {
    var u := s + "," + t;
    assert u[|s|] == ',';
    assert forall i | |s| < i < |u| :: u[i] == t[i - |s| - 1];
    assert LastComma(u) == |s|;
    assert u[..|s|] == s && u[|s| + 1..] == t;
  }

  lemma JoinSnoc(parts: seq<string>, t: string)
    ensures Join(parts + [t]) == if parts == [] then t else Join(parts) + "," + t
  {
    assert (parts + [t])[..|parts|] == parts;
  }

  /** Splitting inverts joining whenever there is something to join. */
  lemma {:induction false} SplitJoin(parts: seq<string>)
    requires parts != [] && forall i | 0 <= i < |parts| :: ',' !in parts[i]
    ensures Split(Join(parts)) == parts
  {
    var n := |parts| - 1;
    if n == 0 {
      assert parts == [parts[0]];
    } else {
      var p0, t := parts[..n], parts[n];
      SplitJoin(p0);
      assert parts == p0 + [t];
      JoinSnoc(p0, t);
      SplitSnoc(Join(p0), t);
    }
  }

  lemma {:induction false} ParseTexts(xs: seq<int>)
    ensures ParseAll(Texts(xs)) == Some(xs)
  {
    if xs == [] {
    } else {
      var n := |xs| - 1;
      ParseTexts(xs[..n]);
      IntRoundTrip(xs[n]);
      assert Texts(xs)[..n] == Texts(xs[..n]);
      assert xs == xs[..n] + [xs[n]];
    }
  }

  /** What the client reads is what the server wrote, for every non-empty list of integers. */
  lemma {:induction false} WireRoundTrip(xs: seq<int>)
    requires xs != []
    ensures ParseList(ListText(xs)) == Some(xs)
  {
    forall i | 0 <= i < |xs| ensures ',' !in Texts(xs)[i] { IntRoundTrip(xs[i]); }
    SplitJoin(Texts(xs));
    ParseTexts(xs);
  }

  lemma {:induction false} ListTextEmpty(xs: seq<int>)
    ensures ListText(xs) == "" <==> xs == []
  {
    if xs != [] { IntRoundTrip(xs[|xs| - 1]); }
  }

  /**
   The two texts the client skips: the empty one stands only for the empty
   list, and "-1" only for the list [-1].
   */
  lemma {:induction false} SentinelExact(xs: seq<int>)
    ensures ListText(xs) == "" <==> xs == []
    ensures ListText(xs) == SKIP <==> xs == [-1]
  {
    ListTextEmpty(xs);
    assert NatText(1) == "1";
    assert IntText(-1) == "-" + "1" == SKIP;
    assert Texts([-1]) == [SKIP];
    if ListText(xs) == SKIP {
      assert xs != [];
      WireRoundTrip(xs);
      WireRoundTrip([-1]);
    }
  }
}
