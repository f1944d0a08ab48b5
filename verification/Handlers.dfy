/**
 The HTTP handlers that walk over the list of users and update them in place.
 */
module Handlers {
  import opened Ledger
  import opened Wire
  import opened UserModel
  import opened Server
  import opened ServerRuns

  function Views(users: seq<BadUser>): seq<User>
    reads users
  {
    seq(|users|, i requires 0 <= i < |users| reads users => users[i].View())
  }

  function Ids(users: seq<BadUser>): seq<string> {
    seq(|users|, i requires 0 <= i < |users| => users[i].userId)
  }

  /** The running count with which the handler enters the `k`-th user: it is never set back to zero. */
  function CarryIn(ids: seq<string>, views: seq<User>, id: string, group: int, rank: int, k: nat): int
    requires k <= |ids| == |views|
  {
    if k == 0 then 0
    else
      var c := CarryIn(ids, views, id, group, rank, k - 1);
      if ids[k - 1] == id then ScanCount(views[k - 1].ledger, group, rank, c) else c
  }

  /** What the handler leaves of the `k`-th user. */
  function AfterReport(ids: seq<string>, views: seq<User>, id: string, group: int, rank: int, k: nat): User
    requires k < |ids| == |views|
  {
    if ids[k] == id then Reported(views[k], group, rank, CarryIn(ids, views, id, group, rank, k)) else views[k]
  }

  /** `failedTransactions`: every user registered under the id is charged back, the others are untouched. */
  method FailedTransactions(users: seq<BadUser>, id: string, group: int, rank: int)
    requires forall i, j | 0 <= i < j < |users| :: users[i] != users[j]
    modifies users
    ensures forall k | 0 <= k < |users| ::
              users[k].View() == AfterReport(Ids(users), old(Views(users)), id, group, rank, k)
  {
    var count := 0;
    ghost var ids, before := Ids(users), Views(users);
    for k := 0 to |users|
      invariant count == CarryIn(ids, before, id, group, rank, k)
      invariant forall i | k <= i < |users| :: users[i].View() == before[i]
      invariant forall i | 0 <= i < k :: users[i].View() == AfterReport(ids, before, id, group, rank, i)
    {
      if users[k].userId == id {
        count := users[k].ReportFailure(group, rank, count);
      }
    }
  }

  // ------------------------------------------- what the carried count amounts to

  /** A scan ends at or above the rank exactly if it started there or found a record. */
  lemma {:induction false} ScanReaches(l: seq<Record>, group: int, rank: int, count: int)
    ensures ScanCount(l, group, rank, count) >= rank <==> count >= rank || Reaches(l, group, rank, count)
    ensures ScanCount(l, group, rank, count) >= count
    ensures ScanCount(l, group, rank, count) < rank ==>
              ScanCount(l, group, rank, count) == count + MatchedBefore(l, group, |l|)
  {
    if l == [] {
    } else if count + Match(l[0], group) >= rank {
    } else {
      ScanReaches(l[1..], group, rank, count + Match(l[0], group));
      MatchedTail(l, group, |l| - 1);
    }
  }

  /** The `i`-th user is registered under the id, and the report finds a record there. */
  ghost predicate Found(ids: seq<string>, views: seq<User>, id: string, group: int, rank: int, i: int)
    requires |ids| == |views|
  {
    0 <= i < |ids| && ids[i] == id && Reaches(views[i].ledger, group, rank, CarryIn(ids, views, id, group, rank, i))
  }

  /** Transfers the first `k` users offer to the report. */
  function Offered(ids: seq<string>, views: seq<User>, id: string, group: int, k: nat): nat
    requires k <= |ids| == |views|
  {
    if k == 0 then 0
    else
      Offered(ids, views, id, group, k - 1) +
      if ids[k - 1] == id then MatchedBefore(views[k - 1].ledger, group, |views[k - 1].ledger|) else 0
  }

  /**
   The carried count is at the rank exactly if the rank is not positive or an
   earlier user of the id had a record marked; below it, it is everything those
   users offered.
   */
  lemma {:induction false} CarryExact(ids: seq<string>, views: seq<User>, id: string, group: int, rank: int, k: nat)
    requires k <= |ids| == |views|
    ensures CarryIn(ids, views, id, group, rank, k) >= rank <==>
            rank <= 0 || exists i :: i < k && Found(ids, views, id, group, rank, i)
    ensures CarryIn(ids, views, id, group, rank, k) < rank ==>
              CarryIn(ids, views, id, group, rank, k) == Offered(ids, views, id, group, k)
  {
    if k == 0 {
    } else {
      CarryExact(ids, views, id, group, rank, k - 1);
      ScanReaches(views[k - 1].ledger, group, rank, CarryIn(ids, views, id, group, rank, k - 1));
      assert Found(ids, views, id, group, rank, k - 1) <==>
          ids[k - 1] == id && Reaches(views[k - 1].ledger, group, rank, CarryIn(ids, views, id, group, rank, k - 1));
    }
  }

  /** The first user of an id starts from zero; with distinct ids that is the only one. */
  lemma {:induction false} CarryZero(ids: seq<string>, views: seq<User>, id: string, group: int, rank: int, k: nat)
    requires k <= |ids| == |views| && forall i | 0 <= i < k :: ids[i] != id
    ensures CarryIn(ids, views, id, group, rank, k) == 0
  {
    if k == 0 {
    } else {
      CarryZero(ids, views, id, group, rank, k - 1);
    }
  }

  /**
   What one report does to each user of the id with an increasing ledger: once
   an earlier one has been hit, the first record of every later one is marked,
   whatever its minute; until then only the record at minute 10 * (group - 1)
   can be, and it is exactly if it completes what has been offered so far.
   */
  lemma ReportAcrossUsers(ids: seq<string>, views: seq<User>, id: string, group: int, rank: int, k: nat)
    requires k < |ids| == |views| && ids[k] == id && Increasing(Entries(views[k].ledger))
    ensures var l, after := views[k].ledger, AfterReport(ids, views, id, group, rank, k).ledger;
            var offered := Offered(ids, views, id, group, k);
            if rank <= 0 || exists i :: i < k && Found(ids, views, id, group, rank, i) then OneMarked(l, after, 0)
            else
              && (forall m | Answers(l, group, rank, offered, m) :: OneMarked(l, after, m))
              && (!(exists m :: Answers(l, group, rank, offered, m)) ==> after == l)
  {
    var l, c := views[k].ledger, CarryIn(ids, views, id, group, rank, k);
    ReportedExact(views[k], group, rank, c);
    CarryExact(ids, views, id, group, rank, k);
    ReportReaches(l, group, rank, c);
    if c < rank {
      forall m, n | Answers(l, group, rank, c, m) && Answers(l, group, rank, c, n) ensures m == n {
        assert Entries(l)[m].time == Entries(l)[n].time;
      }
    }
  }

  /** Two users under one id: a report about minute 0 ends up on a record of minute 13. */
  lemma CarryExample(u: User, v: User)
    requires u.ledger == [Record(0, 1, 0)] && v.ledger == [Record(13, 5, 0)]
    ensures AfterReport(["a", "a"], [u, v], "a", 1, 1, 1).ledger == [Record(13, 5, 1)]
  {
    assert CarryIn(["a", "a"], [u, v], "a", 1, 1, 0) == 0;
    assert ScanCount(u.ledger, 1, 1, 0) == 1;
  }

  /** The first user registered under the id, or the length of the list. */
  function FirstOf(ids: seq<string>, id: string): (k: nat)
    ensures k <= |ids| && (k < |ids| ==> ids[k] == id) && forall i | 0 <= i < k :: ids[i] != id
  {
    if ids == [] then 0 else if ids[0] == id then 0 else 1 + FirstOf(ids[1..], id)
  }

  /** `getAccountTransactions`: only the first user of that id is asked; an unknown id gets the empty text. */
  method GetAccountTransactions(users: seq<BadUser>, id: string, reply: Reply, counts: seq<nat>)
    returns (response: Response)
    requires forall i, j | 0 <= i < j < |users| :: users[i] != users[j]
    modifies users
    ensures var k := FirstOf(Ids(users), id);
            && (forall i | 0 <= i < |users| && i != k :: users[i].View() == old(users[i].View()))
            && (k == |users| ==> response == Message(""))
            && (k < |users| && users[k].isRule ==>
                  users[k].View() == Decided(old(users[k].View()), counts)
                  && response == Message(ListText(Minutes(counts))))
            && (k < |users| && !users[k].isRule ==>
                  users[k].View() == Requested(old(users[k].View()), reply)
                  && response == Answer(old(users[k].View()), reply))
  {
    var i := 0;
    while i < |users|
      invariant i <= |users| && forall j | 0 <= j < i :: users[j].userId != id
      invariant forall j | 0 <= j < |users| :: users[j].View() == old(users[j].View())
    {
      if users[i].userId == id {
        assert Ids(users)[i] == id && FirstOf(Ids(users), id) == i;
        response := users[i].Ask(reply, counts);
        return;
      }
      i := i + 1;
    }
    assert FirstOf(Ids(users), id) == |users|;
    response := Message("");
  }

  /**
   `intercepted`: the caught user is reset, then every other user plans anew,
   up to the first planning call that fails.
   */
  method Intercepted(users: seq<BadUser>, id: string, plans: seq<Option<seq<real>>>) returns (stop: nat)
    requires |plans| == |users| && forall i, j | 0 <= i < j < |users| :: users[i] != users[j]
    modifies users
    ensures stop <= |users| && (stop < |users| ==> users[stop].userId != id && plans[stop].None?)
    ensures forall k | 0 <= k < |users| ::
              if users[k].userId == id then users[k].View() == WasReset(old(users[k].View()))
              else if k < stop then plans[k].Some? && users[k].View() == Replanned(old(users[k].View()), plans[k].value)
              else users[k].View() == old(users[k].View())
  {
    ResetAll(users, id);
    label afterReset:
    for i := 0 to |users|
      invariant forall k | i <= k < |users| :: users[k].View() == old@afterReset(users[k].View())
      invariant forall k | 0 <= k < i ::
                  if users[k].userId == id then users[k].View() == old@afterReset(users[k].View())
                  else plans[k].Some? && users[k].View() == Replanned(old@afterReset(users[k].View()), plans[k].value)
    {
      if users[i].userId != id {
        if plans[i].None? { return i; }
        users[i].PlanOverall(plans[i].value);
      }
    }
    stop := |users|;
  }

  method ResetAll(users: seq<BadUser>, id: string)
    requires forall i, j | 0 <= i < j < |users| :: users[i] != users[j]
    modifies users
    ensures forall k | 0 <= k < |users| ::
              users[k].View() == if users[k].userId == id then WasReset(old(users[k].View())) else old(users[k].View())
  {
    for i := 0 to |users|
      invariant forall k | i <= k < |users| :: users[k].View() == old(users[k].View())
      invariant forall k | 0 <= k < i ::
                  users[k].View() == if users[k].userId == id then WasReset(old(users[k].View())) else old(users[k].View())
    {
      if users[i].userId == id {
        var _ := users[i].IllegalListAppend();
      }
    }
  }
}
