/**
 The server-side user object, with its fields updated in place.  Every method
 is proved to do exactly what `UserModel` says.
 */
module Server {
  import opened Ledger
  import opened RunLength
  import opened Wire
  import opened UserModel

  /** `s[:-1]`. */
  function DropLast(s: string): string { if s == "" then "" else s[..|s| - 1] }

  /** Each number followed by a comma, as `make_decision` builds it. */
  function Trail(xs: seq<int>): string {
    if xs == [] then "" else WithComma(Trail(xs[..|xs| - 1]), xs[|xs| - 1])
  }

  function WithComma(s: string, x: int): string { s + IntText(x) + "," }

  /** Decoding `{"res": text}` for the bracketed texts `make_decision` produces. */
  function ReadBracketed(text: string): Reply {
    if |text| < 3 then Short
    else match ParseList(text[1..|text| - 1])
      case None => Malformed
      case Some(xs) => Ints(xs)
  }

  lemma DropComma(s: string)
    ensures DropLast(s + ",") == s
  {
  }

  lemma ListTextSnoc(xs: seq<int>, x: int)
    ensures ListText(xs + [x]) == if xs == [] then IntText(x) else ListText(xs) + "," + IntText(x)
  {
    assert Texts(xs + [x]) == Texts(xs) + [IntText(x)];
    JoinSnoc(Texts(xs), IntText(x));
  }

  lemma TrailStep(xs: seq<int>, x: int)
    ensures Trail(xs + [x]) == WithComma(Trail(xs), x)
    ensures Trail(PlusOne(xs + [x])) == WithComma(Trail(PlusOne(xs)), x + 1)
  {
    assert (xs + [x])[..|xs|] == xs;
    assert PlusOne(xs + [x])[..|xs|] == PlusOne(xs);
  }

  lemma JoinStep(xs: seq<int>, x: int)
    requires xs != [] ==> Trail(xs) == ListText(xs) + ","
    ensures Trail(xs + [x]) == ListText(xs + [x]) + ","
  {
    TrailStep(xs, x);
    ListTextSnoc(xs, x);
    if xs == [] { assert Trail(xs) + IntText(x) == IntText(x); }
  }

  lemma {:induction false} TrailJoins(xs: seq<int>)
    requires xs != []
    ensures Trail(xs) == ListText(xs) + ","
  {
    var xs0, x := xs[..|xs| - 1], xs[|xs| - 1];
    assert xs0 + [x] == xs;
    if xs0 == [] {
    } else {
      TrailJoins(xs0);
    }
    JoinStep(xs0, x);
  }

  lemma TrailIsJoin(xs: seq<int>)
    ensures DropLast(Trail(xs)) == ListText(xs)
  {
    if xs == [] {
      assert Texts(xs) == [];
    } else {
      TrailJoins(xs);
      DropComma(ListText(xs));
    }
  }

  lemma RepeatStep(xs: seq<int>, v: int, n: nat)
    ensures xs + Repeat(v, 0) == xs
    ensures xs + Repeat(v, n + 1) == xs + Repeat(v, n) + [v]
  {
  }

  lemma ReadBrackets(t: string)
    requires t != ""
    ensures ReadBracketed("[" + t + "]") == match ParseList(t) case None => Malformed case Some(xs) => Ints(xs)
  {
    assert ("[" + t + "]")[1..|t| + 1] == t;
  }

  lemma ReadListText(ys: seq<int>)
    ensures ReadBracketed("[" + ListText(ys) + "]") == if ys == [] then Short else Ints(ys)
    ensures |"[" + ListText(ys) + "]"| < 3 <==> ys == []
  {
    ListTextEmpty(ys);
    if ys == [] {
    } else {
      ReadBrackets(ListText(ys));
      WireRoundTrip(ys);
    }
  }

  /** The plan a rule-driven user submits is already in order. */
  lemma DecisionSorted(counts: seq<nat>)
    ensures SortInts(PlusOne(Minutes(counts))) == PlusOne(Minutes(counts))
    ensures MinusOne(PlusOne(Minutes(counts))) == Minutes(counts)
  {
    MinutesAscend(counts);
    SortIntsSorts(PlusOne(Minutes(counts)));
  }

  /**
   For every draw, the string handed to `handle_result` decodes to the
   ascending list plus one, the length test fires exactly for the empty list,
   and the text `handle_result` computes is the text `make_decision` returns.
   */
  lemma {:induction false} DecisionAgrees(counts: seq<nat>)
    ensures var xs := Minutes(counts);
            && ReadBracketed("[" + DropLast(Trail(PlusOne(xs))) + "]") == DecisionReply(counts)
            && (|"[" + DropLast(Trail(PlusOne(xs))) + "]"| < 3 <==> xs == [])
            && ReplyText(DecisionReply(counts)) == Some(DropLast(Trail(xs)))
            && DropLast(Trail(xs)) == ListText(xs)
  {
    var xs := Minutes(counts);
    var ys := PlusOne(xs);
    TrailIsJoin(xs);
    TrailIsJoin(ys);
    ReadListText(ys);
    ListTextEmpty(xs);
    DecisionSorted(counts);
  }

  /** The text lists, in order, each minute as often as its draw says, and no other. */
  ghost predicate TellsDraws(text: string, counts: seq<nat>) {
    if DrawTotal(counts) == 0 then text == ""
    else match ParseList(text)
      case None => false
      case Some(xs) =>
        && |xs| == DrawTotal(counts) && Ascending(xs)
        && forall i | 0 <= i < |counts| :: multiset(xs)[i] == counts[i]
  }

  lemma DecisionTells(counts: seq<nat>)
    ensures TellsDraws(DropLast(Trail(Minutes(counts))), counts)
  {
    var xs := Minutes(counts);
    TrailIsJoin(xs);
    MinutesExact(counts, 0);
    if xs == [] {
    } else {
      WireRoundTrip(xs);
      MinutesAscend(counts);
      forall i | 0 <= i < |counts| ensures multiset(xs)[i] == counts[i] { MinutesExact(counts, i); }
    }
  }

  /** The inner loop of `make_decision`: minute `i`, `n` times, on both strings. */
  method BuildMinute(i: nat, n: nat, res0: string, resForHandle0: string, ghost done: seq<int>)
    returns (res: string, resForHandle: string)
    requires res0 == Trail(done) && resForHandle0 == Trail(PlusOne(done))
    ensures res == Trail(done + Repeat(i, n)) && resForHandle == Trail(PlusOne(done + Repeat(i, n)))
  {
    res, resForHandle := res0, resForHandle0;
    ghost var sofar := done;
    RepeatStep(done, i, 0);
    for j := 0 to n
      invariant sofar == done + Repeat(i, j)
      invariant res == Trail(sofar) && resForHandle == Trail(PlusOne(sofar))
    {
      TrailStep(sofar, i);
      RepeatStep(done, i, j);
      sofar := sofar + [i];
      res, resForHandle := WithComma(res, i), WithComma(resForHandle, i + 1);
    }
  }

  /** The loops of `make_decision`: minutes from 0 for the client, from 1 for the ledger. */
  method BuildTexts(counts: seq<nat>) returns (res: string, resForHandle: string)
    ensures res == Trail(Minutes(counts)) && resForHandle == Trail(PlusOne(Minutes(counts)))
    ensures TellsDraws(DropLast(res), counts)
  {
    resForHandle, res := "", "";
    for i := 0 to |counts|
      invariant res == Trail(Minutes(counts[..i])) && resForHandle == Trail(PlusOne(Minutes(counts[..i])))
    {
      res, resForHandle := BuildMinute(i, counts[i], res, resForHandle, Minutes(counts[..i]));
      assert counts[..i + 1][..i] == counts[..i];
    }
    assert counts[..|counts|] == counts;
    DecisionTells(counts);
  }

  /** The loop of `handle_result` that writes each minute less one. */
  method WriteTexts(sorted: seq<int>) returns (text: string)
    ensures text == ListText(MinusOne(sorted))
  {
    var parts := [];
    for i := 0 to |sorted|
      invariant parts == Texts(MinusOne(sorted))[..i]
    {
      parts := parts + [IntText(sorted[i] - 1)];
    }
    assert parts == Texts(MinusOne(sorted));
    text := Join(parts);
  }

  class BadUser {
    const userId: string
    const isRule: bool
    var timePast: int
    var timeRecord: int
    var moneyTransferred: int
    var stageMoneyTransferred: int
    var stageTotalMoney: real
    var plan: seq<real>
    var transactionList: seq<Record>
    var stageTransactionList: seq<Record>

    function View(): User
      reads this
    {
      User(timePast, timeRecord, moneyTransferred, stageMoneyTransferred, stageTotalMoney, plan,
           transactionList, stageTransactionList)
    }

    constructor (id: string, rule: bool, firstPlan: seq<real>)
      ensures userId == id && isRule == rule && View() == Fresh(firstPlan)
      ensures timePast == timeRecord == moneyTransferred == stageMoneyTransferred == 0 && stageTotalMoney == 0.0
      ensures transactionList == [] && stageTransactionList == [] && plan == firstPlan
    {
      userId, isRule := id, rule;
      timePast, timeRecord, moneyTransferred := 0, 0, 0;
      stageMoneyTransferred, stageTotalMoney := 0, 0.0;
      transactionList, stageTransactionList := [], [];
      plan := firstPlan;
    }

    /** The run-length loop over a sorted plan, filling both ledgers, with its final flush. */
    method RecordRuns(sorted: seq<int>)
      requires sorted != []
      modifies this
      ensures View() == Append(old(View()), Encode(sorted))
    {
      var count := 1;
      ghost var runs := [];
      EncodeOne(sorted);
      for i := 1 to |sorted|
        invariant 1 <= count
        invariant runs + [Entry(sorted[i - 1], count)] == Encode(sorted[..i])
        invariant View() == Append(old(View()), runs)
      {
        EncodeNext(sorted, i, runs, count);
        if sorted[i] == sorted[i - 1] {
          count := count + 1;
          continue;
        } else {
          RecordRun(sorted[i - 1], count);
          AppendSnoc(old(View()), runs, Entry(sorted[i - 1], count));
          runs := runs + [Entry(sorted[i - 1], count)];
          count := 1;
        }
      }
      assert sorted[..|sorted|] == sorted;
      RecordRun(sorted[|sorted| - 1], count);
      AppendSnoc(old(View()), runs, Entry(sorted[|sorted| - 1], count));
    }

    method RecordRun(minute: int, count: nat)
      modifies this
      ensures View() == Append(old(View()), [Entry(minute, count)])
    {
      var timeInfo := timePast + minute;
      var newTransaction := Record(timeInfo, count, 0);
      var newTransactionForStage := Record(timeInfo % 60, count, 0);
      assert Stamp([Entry(minute, count)], timePast) == [newTransaction];
      assert StampHour([Entry(minute, count)], timePast) == [newTransactionForStage];
      stageTransactionList := stageTransactionList + [newTransactionForStage];
      transactionList := transactionList + [newTransaction];
    }

    /** The tail of `handle_result`, from the sorted list on; an empty list fails at its last element. */
    method HandleList(entries: seq<int>) returns (res: string, ok: bool)
      modifies this
      ensures View() == Append(Charge(old(View()), |entries|), Encode(SortInts(entries)))
      ensures ok <==> entries != []
      ensures ok ==> res == ListText(MinusOne(SortInts(entries)))
    {
      var sorted := SortInts(entries);
      moneyTransferred := moneyTransferred + |sorted|;
      stageMoneyTransferred := stageMoneyTransferred + |sorted|;
      if sorted == [] {
        AppendNothing(View());
        return "", false;
      }
      RecordRuns(sorted);
      res := WriteTexts(sorted);
      ok := true;
    }

    /** `handle_result` of a planning user: the new state, the text, and whether it succeeded. */
    method HandleResult(reply: Reply) returns (res: string, ok: bool)
      modifies this
      ensures View() == Handled(old(View()), reply)
      ensures ok <==> ReplyText(reply).Some?
      ensures ok ==> ReplyText(reply) == Some(res)
    {
      if Silent(reply) { return "", false; }
      timePast := timePast + 10;
      match reply {
        case Short =>
          AppendNothing(View());
          return "", true;
        case Malformed =>
          AppendNothing(View());
          return "", false;
        case Opaque(n) =>
          moneyTransferred := moneyTransferred + n;
          stageMoneyTransferred := stageMoneyTransferred + n;
          AppendNothing(View());
          return "", false;
        case Ints(entries) =>
          res, ok := HandleList(entries);
      }
    }

    /** `request_for_plan` of a planning user, as the HTTP handler sees it. */
    method RequestForPlan(reply: Reply) returns (response: Response)
      modifies this
      ensures View() == Requested(old(View()), reply)
      ensures response == Answer(old(View()), reply)
    {
      if (timePast - timeRecord) % 60 == 0 {
        var rank := (timePast - timeRecord) / 60;
        stageMoneyTransferred := 0;
        var leng := |plan|;
        if leng == 0 { return Error; }
        stageTotalMoney := plan[rank % leng];
        stageTransactionList := [];
      }
      assert !Stuck(old(View())) && View() == Opened(old(View()));
      if stageMoneyTransferred as real >= stageTotalMoney {
        timePast := timePast + 10;
        return Message("-1");
      }
      if reply.Raised? { return Error; }
      var res, ok := HandleResult(reply);
      response := if ok then Message(res) else Message("-1");
    }

    /** `make_decision` of a rule-driven user; `counts` holds the number of sends drawn per minute. */
    method MakeDecision(counts: seq<nat>) returns (text: string)
      modifies this
      ensures View() == Decided(old(View()), counts)
      ensures text == ListText(Minutes(counts))
      ensures ReplyText(DecisionReply(counts)) == Some(text) && TellsDraws(text, counts)
    {
      var res, resForHandle := BuildTexts(counts);
      DecisionAgrees(counts);
      DecisionTells(counts);
      var _, _ := HandleResult(ReadBracketed("[" + DropLast(resForHandle) + "]"));
      text := DropLast(res);
    }

    /** `request_for_plan` with both of its branches; the unused draw is ignored. */
    method Ask(reply: Reply, counts: seq<nat>) returns (response: Response)
      modifies this
      ensures View() == if isRule then Decided(old(View()), counts) else Requested(old(View()), reply)
      ensures response == if isRule then Message(ListText(Minutes(counts))) else Answer(old(View()), reply)
    {
      if isRule {
        var text := MakeDecision(counts);
        response := Message(text);
      } else {
        response := RequestForPlan(reply);
      }
    }

    method Reset()
      modifies this`transactionList, this`moneyTransferred, this`timePast
      ensures View() == WasReset(old(View()))
      ensures transactionList == [] && moneyTransferred == 0 && timePast == 0
    {
      transactionList := [];
      moneyTransferred := 0;
      timePast := 0;
    }

    /** What `plan_overall` stores once the planning call has been decoded. */
    method PlanOverall(newPlan: seq<real>)
      modifies this
      ensures View() == Replanned(old(View()), newPlan)
      ensures timeRecord == timePast == old(timePast) && plan == newPlan
    {
      timeRecord := timePast;
      plan := newPlan;
    }

    /** `illegal_list_append`: publishes the net transfers per record, then resets. */
    method IllegalListAppend() returns (published: seq<(int, int)>)
      modifies this
      ensures View() == WasReset(old(View()))
      ensures published == NetPairs(old(transactionList))
      ensures |published| == |old(transactionList)|
      ensures forall k | 0 <= k < |published| ::
                var r := old(transactionList)[k]; published[k] == (r.time, r.send - r.failed)
    {
      published := [];
      for k := 0 to |transactionList|
        invariant View() == old(View())
        invariant published == NetPairs(transactionList)[..k]
      {
        published := published + [(transactionList[k].time, transactionList[k].send - transactionList[k].failed)];
      }
      Reset();
    }

    /** `arrested_list_append`: notes the time of the arrest, then resets. */
    method ArrestedListAppend() returns (arrestedAt: int)
      modifies this
      ensures arrestedAt == old(timePast) && View() == WasReset(old(View()))
    {
      arrestedAt := timePast;
      Reset();
    }

    /** The inner loop of `failedTransactions`; `count` carries over between users. */
    method ReportFailure(group: int, rank: int, count0: int) returns (count: int)
      modifies this`transactionList, this`moneyTransferred
      ensures View() == Reported(old(View()), group, rank, count0)
      ensures OneMarked(old(transactionList), transactionList, HitIndex(old(transactionList), group, rank, count0))
      ensures count == ScanCount(old(transactionList), group, rank, count0)
    {
      count := count0;
      var k := 0;
      ghost var all := transactionList;
      assert all[0..] == all;
      while k < |transactionList|
        invariant k <= |all| && transactionList == all && View() == old(View())
        invariant HitIndex(all, group, rank, count0) == k + HitIndex(all[k..], group, rank, count)
        invariant ScanCount(all, group, rank, count0) == ScanCount(all[k..], group, rank, count)
      {
        assert all[k..][1..] == all[k + 1..];
        if transactionList[k].time == 10 * (group - 1) {
          count := count + transactionList[k].send;
        }
        if count >= rank {
          transactionList := transactionList[k := transactionList[k].(failed := transactionList[k].failed + 1)];
          break;
        }
        k := k + 1;
      }
      moneyTransferred := moneyTransferred - 1;
    }
  }

  lemma AppendNothing(u: User)
    ensures Append(u, []) == u
  {
    assert u.ledger + Stamp([], u.timePast) == u.ledger;
    assert u.stage + StampHour([], u.timePast) == u.stage;
  }

  lemma AppendSnoc(u: User, runs: seq<Entry>, e: Entry)
    ensures Append(Append(u, runs), [e]) == Append(u, runs + [e])
  {
    assert Append(Append(u, runs), [e]).ledger == Append(u, runs + [e]).ledger;
    assert Append(Append(u, runs), [e]).stage == Append(u, runs + [e]).stage;
  }
}
