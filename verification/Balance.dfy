/**
 Money against ledger over every schedule of the handlers, statement by
 statement: nothing is off but what the account says, and updates are lost
 only where two handlers have the money in hand at once.
 */
module Balance {
  import opened Ledger
  import opened Wire
  import opened UserModel
  import S = ServerRuns
  import opened Statements
  import opened Registry

  /** What a statement is meant to add to the money beyond the ledger. */
  function OpWeight(op: Op): int {
    match op
    case StoreMoney(delta) => delta
    case Post(run) => -(run.count as int)
    case Mark(_, _, _) => 1
    case _ => 0
  }

  function Weight(todo: seq<Op>): int
    decreases |todo|
  {
    if todo == [] then 0 else OpWeight(todo[0]) + Weight(todo[1..])
  }

  predicate AtWork(pc: PC, i: nat) { (pc.Writing? || pc.Loose?) && pc.i == i }

  /** What a handler still has to add. */
  function Due(pc: PC, i: nat): int { if AtWork(pc, i) then Weight(pc.todo) else 0 }

  function AllDue(pcs: seq<PC>, i: nat): int {
    if pcs == [] then 0 else AllDue(pcs[..|pcs| - 1], i) + Due(pcs[|pcs| - 1], i)
  }

  /** Why money and ledger of a user may differ. */
  datatype Account = Account(
    lost: int,            // what was loaded less what was overwritten, over all stores of the money
    wiped: int,           // net transfers in ledgers that resets have cleared
    cleared: int,         // money that resets have cleared
    unmatched: int,       // reports that found no record
    unrecorded: int)      // units of replies that are charged but not recorded

  function Sum(b: Account): int { b.lost + b.wiped - b.cleared - b.unmatched + b.unrecorded }

  function Noted(b: Account, u: User, regs: Regs, op: Op): Account {
    match op
    case StoreMoney(_) => b.(lost := b.lost + regs.money - u.money)
    case ClearLedger => b.(wiped := b.wiped + Sends(u.ledger) - Fails(u.ledger))
    case ClearMoney => b.(cleared := b.cleared + u.money)
    case Mark(group, rank, carry) =>
      if Reaches(u.ledger, group, rank, carry) then b else b.(unmatched := b.unmatched + 1)
    case _ => b
  }

  function Book(m: nat, sched: seq<(nat, Act)>, i: nat): Account {
    if sched == [] then Account(0, 0, 0, 0, 0)
    else
      var (t, a) := sched[|sched| - 1];
      Noting(Book(m, sched[..|sched| - 1], i), Run(m, sched[..|sched| - 1]), t, a, i)
  }

  function Noting(b: Account, h: Hub, t: nat, a: Act, i: nat): Account {
    if !Enabled(h, t, a) || i >= |h.users| then b
    else if a.Go? && h.pcs[t].i == i then Noted(b, h.users[i], h.pcs[t].regs, h.pcs[t].todo[0])
    else if a.Receive? && h.pcs[t].i == i then b.(unrecorded := b.unrecorded + S.OpaqueUnits(Some(a.reply)))
    else b
  }

  // ------------------------------------------------------------- one statement

  lemma OpBalance(b: Account, u: User, regs: Regs, op: Op)
    ensures S.Excess(Effect(u, regs, op)) - S.Excess(u) == OpWeight(op) + Sum(Noted(b, u, regs, op)) - Sum(b)
  {
    match op
    case Post(run) => S.AppendSends(u, [run]);
    case Mark(group, rank, carry) => S.MarkCounts(u.ledger, HitIndex(u.ledger, group, rank, carry));
    case _ =>
  }

  lemma {:induction false} WeightConcat(a: seq<Op>, b: seq<Op>)
    ensures Weight(a + b) == Weight(a) + Weight(b)
    decreases |a|
  {
    if a == [] {
      assert a + b == b;
    } else {
      assert (a + b)[1..] == a[1..] + b;
      WeightConcat(a[1..], b);
    }
  }

  lemma {:induction false} PostsWeight(runs: seq<Entry>)
    ensures Weight(Posts(runs)) + Total(runs) == 0
  {
    if runs == [] {
    } else {
      var n := |runs| - 1;
      PostsWeight(runs[..n]);
      assert Posts(runs) == Posts(runs[..n]) + [Post(runs[n])];
      WeightConcat(Posts(runs[..n]), [Post(runs[n])]);
    }
  }

  lemma ThreeWeight(a: Op, b: Op, c: Op)
    ensures Weight([a, b, c]) == OpWeight(a) + OpWeight(b) + OpWeight(c)
    ensures Weight([a, b]) == OpWeight(a) + OpWeight(b)
  {
    assert [a, b, c][1..] == [b, c] && [b, c][1..] == [c] && [c][1..] == [];
    assert [a, b][1..] == [b] && [b][1..] == [];
    assert Weight([b, c]) == OpWeight(b) + Weight([c]);
  }

  /** A list of integers is recorded in full, so applying it is balanced; other lists are only charged. */
  lemma ApplyingWeight(reply: Reply)
    ensures Weight(Applying(reply)) == S.OpaqueUnits(Some(reply))
  {
    ThreeWeight(LoadClock, StoreClock, LoadClock);
    if Charges(reply) {
      var n := Units(reply);
      ThreeWeight(LoadMoney, StoreMoney(n), ChargeHour(n));
      PostsWeight(Runs(reply));
      S.RunsTotal(reply);
      WeightConcat(Charging(n), Posts(Runs(reply)));
      WeightConcat(TICK, Charging(n) + Posts(Runs(reply)));
    } else {
      WeightConcat(TICK, []);
    }
  }

  lemma UnlockedWeight(group: int, rank: int, carry: int)
    ensures Weight(TICK) == Weight(RESETTING) == Weight(Reporting(group, rank, carry)) == 0
  {
    ThreeWeight(LoadClock, StoreClock, LoadClock);
    ThreeWeight(ClearLedger, ClearMoney, ClearClock);
    ThreeWeight(Mark(group, rank, carry), LoadMoney, StoreMoney(-1));
  }

  lemma {:induction false} DueChange(p: seq<PC>, q: seq<PC>, t: nat, i: nat)
    requires t < |p| == |q| && forall k | 0 <= k < |p| && k != t :: Due(p[k], i) == Due(q[k], i)
    ensures AllDue(q, i) - AllDue(p, i) == Due(q[t], i) - Due(p[t], i)
  {
    var n := |p| - 1;
    if t == n {
      DueSame(p[..n], q[..n], i);
    } else {
      DueChange(p[..n], q[..n], t, i);
    }
  }

  lemma {:induction false} DueSame(p: seq<PC>, q: seq<PC>, i: nat)
    requires |p| == |q| && forall k | 0 <= k < |p| :: Due(p[k], i) == Due(q[k], i)
    ensures AllDue(q, i) == AllDue(p, i)
  {
    if p == [] {
    } else {
      DueSame(p[..|p| - 1], q[..|p| - 1], i);
    }
  }

  lemma {:induction false} NothingDue(pcs: seq<PC>, i: nat)
    requires forall k | 0 <= k < |pcs| :: Due(pcs[k], i) == 0
    ensures AllDue(pcs, i) == 0
  {
    if pcs == [] {
    } else {
      NothingDue(pcs[..|pcs| - 1], i);
    }
  }

  // ---------------------------------------------------------------- every schedule

  ghost predicate Balanced(h: Hub, i: nat, b: Account) {
    if i < |h.users| then S.Excess(h.users[i]) + AllDue(h.pcs, i) == Sum(b) else b == Account(0, 0, 0, 0, 0)
  }

  /** A statement moves what it is worth from what is due to the user. */
  lemma GoBalanced(h: Hub, t: nat, i: nat, b: Account)
    requires SectionsOk(h) && Balanced(h, i, b) && Enabled(h, t, Go) && i < |h.users|
    ensures Balanced(Next(h, t, Go), i, Noting(b, h, t, Go, i))
  {
    var pc, h' := h.pcs[t], Next(h, t, Go);
    var op := pc.todo[0];
    assert Due(h'.pcs[t], i) == if pc.i == i then Due(pc, i) - OpWeight(op) else 0 by {
      assert pc.todo[1..] == [] ==> Weight(pc.todo[1..]) == 0;
    }
    DueChange(h.pcs, h'.pcs, t, i);
    if pc.i == i { OpBalance(b, h.users[i], pc.regs, op); }
  }

  /** Any other step leaves money and ledger alone. */
  lemma StepFields(h: Hub, t: nat, a: Act)
    requires SectionsOk(h) && Enabled(h, t, a) && !a.Go?
    ensures var h' := Next(h, t, a);
            && h'.pcs == h.pcs[t := h'.pcs[t]] && |h.users| <= |h'.users|
            && forall i | 0 <= i < |h.users| ::
                 h'.users[i].money == h.users[i].money && h'.users[i].ledger == h.users[i].ledger
  {
    assert SectionOk(h, t);
  }

  lemma StepBalanced(h: Hub, t: nat, a: Act, i: nat, b: Account)
    requires SectionsOk(h) && Balanced(h, i, b) && Enabled(h, t, a) && !a.Go? && i < |h.users|
    ensures Balanced(Next(h, t, a), i, Noting(b, h, t, a, i))
  {
    var h' := Next(h, t, a);
    OtherDue(h, t, a, i);
    StepFields(h, t, a);
    DueChange(h.pcs, h'.pcs, t, i);
    assert S.Excess(h'.users[i]) == S.Excess(h.users[i]);
  }

  lemma OtherDue(h: Hub, t: nat, a: Act, i: nat)
    requires SectionsOk(h) && Enabled(h, t, a) && !a.Go? && i < |h.users|
    ensures var h' := Next(h, t, a);
            && |h'.pcs| == |h.pcs| && Due(h.pcs[t], i) == 0
            && Due(h'.pcs[t], i) == if a.Receive? && h.pcs[t].i == i then S.OpaqueUnits(Some(a.reply)) else 0
  {
    if a.Receive? {
      ApplyingWeight(a.reply);
    } else if a.Decide? {
      ApplyingWeight(DecisionReply(a.counts));
    } else if a.BeginReport? || a.BeginReset? || a.Gate? {
      BeginDue(h, t, a, i);
    }
  }

  lemma BeginDue(h: Hub, t: nat, a: Act, i: nat)
    requires Enabled(h, t, a) && (a.BeginReport? || a.BeginReset? || a.Gate?)
    ensures |Next(h, t, a).pcs| == |h.pcs| && Due(Next(h, t, a).pcs[t], i) == 0
  {
    if a.BeginReport? { UnlockedWeight(a.group, a.rank, a.carry); } else { UnlockedWeight(0, 0, 0); }
  }

  /** A user that has just been listed. */
  lemma NewBalanced(h: Hub, t: nat, a: Act, i: nat, b: Account)
    requires SectionsOk(h) && Balanced(h, i, b) && Enabled(h, t, a) && i >= |h.users|
    ensures Balanced(Next(h, t, a), i, Noting(b, h, t, a, i))
  {
    var h' := Next(h, t, a);
    if a.AppendUser? && i == |h.users| {
      forall k | 0 <= k < |h.pcs| ensures Due(h'.pcs[k], i) == 0 { assert SectionOk(h, k); }
      NothingDue(h'.pcs, i);
    }
  }

  /**
   Over every schedule, at every moment: the money of a user is what its ledger
   accounts for, plus what handlers at work have still to take back, but for
   lost updates, resets, reports that found nothing and unrecorded lists, each
   to the amount noted.
   */
  lemma {:induction false} BalanceAlways(m: nat, sched: seq<(nat, Act)>, i: nat)
    ensures Balanced(Run(m, sched), i, Book(m, sched, i))
  {
    if sched == [] {
    } else {
      var sched0 := sched[..|sched| - 1];
      var (t, a) := sched[|sched| - 1];
      var h := Run(m, sched0);
      BalanceAlways(m, sched0, i);
      SectionsHold(m, sched0);
      if Enabled(h, t, a) {
        if i >= |h.users| {
          NewBalanced(h, t, a, i, Book(m, sched0, i));
        } else if a.Go? {
          GoBalanced(h, t, i, Book(m, sched0, i));
        } else {
          StepBalanced(h, t, a, i, Book(m, sched0, i));
        }
      }
    }
  }

  /** With nobody at work on the user nothing is due. */
  lemma SettledBalance(m: nat, sched: seq<(nat, Act)>, i: nat)
    requires i < |Run(m, sched).users| && forall k | 0 <= k < |Run(m, sched).pcs| :: !AtWork(Run(m, sched).pcs[k], i)
    ensures var u, b := Run(m, sched).users[i], Book(m, sched, i);
            u.money == Sends(u.ledger) - Fails(u.ledger) + b.lost + b.wiped - b.cleared - b.unmatched + b.unrecorded
  {
    BalanceAlways(m, sched, i);
    NothingDue(Run(m, sched).pcs, i);
  }

  // -------------------------------------------------------------- lost updates

  /** The handler has loaded the user's money and is about to store it. */
  predicate Holding(pc: PC, i: nat) { AtWork(pc, i) && pc.todo != [] && pc.todo[0].StoreMoney? }

  predicate WritesMoney(op: Op) { op.StoreMoney? || op.ClearMoney? }

  /** Somebody writes the money of a user while somebody else has it in hand. */
  ghost predicate Clash(h: Hub, t: nat, a: Act) {
    && Enabled(h, t, a) && a.Go? && WritesMoney(h.pcs[t].todo[0])
    && exists k :: 0 <= k < |h.pcs| && k != t && Holding(h.pcs[k], h.pcs[t].i)
  }

  ghost predicate NoClash(m: nat, sched: seq<(nat, Act)>) {
    sched == [] ||
    var (t, a) := sched[|sched| - 1];
    NoClash(m, sched[..|sched| - 1]) && !Clash(Run(m, sched[..|sched| - 1]), t, a)
  }

  /** No store without its load. */
  ghost predicate Proper(todo: seq<Op>) {
    forall j | 0 < j < |todo| && todo[j].StoreMoney? :: todo[j - 1].LoadMoney?
  }

  /** Whoever has the money in hand has what is there. */
  ghost predicate UpToDate(h: Hub, k: nat)
    requires k < |h.pcs|
  {
    var pc := h.pcs[k];
    pc.Writing? || pc.Loose? ==>
      && Proper(pc.todo) && pc.i < |h.users|
      && (pc.todo != [] && pc.todo[0].StoreMoney? ==> pc.regs.money == h.users[pc.i].money)
  }

  ghost predicate AllUpToDate(h: Hub) { forall k | 0 <= k < |h.pcs| :: UpToDate(h, k) }

  lemma ProperPrograms(reply: Reply, group: int, rank: int, carry: int)
    ensures Proper(Applying(reply)) && !Applying(reply)[0].StoreMoney?
    ensures Proper(TICK) && Proper(RESETTING) && Proper(Reporting(group, rank, carry))
  {
    forall j | 0 < j < |Applying(reply)| && Applying(reply)[j].StoreMoney? ensures Applying(reply)[j - 1].LoadMoney? {
      OpAt(reply, j);
      OpAt(reply, j - 1);
    }
  }

  lemma GoOwnUpToDate(h: Hub, t: nat)
    requires AllUpToDate(h) && Enabled(h, t, Go)
    ensures UpToDate(Next(h, t, Go), t)
  {
    var pc := h.pcs[t];
    assert UpToDate(h, t);
    assert |pc.todo| > 1 && pc.todo[1].StoreMoney? ==> pc.todo[0].LoadMoney?;
  }

  lemma GoOtherUpToDate(h: Hub, t: nat, k: nat)
    requires AllUpToDate(h) && Enabled(h, t, Go) && !Clash(h, t, Go) && k < |h.pcs| && k != t
    ensures UpToDate(Next(h, t, Go), k)
  {
    assert UpToDate(h, k) && UpToDate(h, t);
    assert Holding(h.pcs[k], h.pcs[t].i) ==> !WritesMoney(h.pcs[t].todo[0]);
  }

  lemma StepUpToDate(h: Hub, t: nat, a: Act, k: nat)
    requires AllUpToDate(h) && SectionsOk(h) && Enabled(h, t, a) && !a.Go? && k < |h.pcs|
    ensures UpToDate(Next(h, t, a), k)
  {
    assert UpToDate(h, k) && SectionOk(h, t);
    if k == t { StepOwnUpToDate(h, t, a); } else { StepFields(h, t, a); }
  }

  lemma StepOwnUpToDate(h: Hub, t: nat, a: Act)
    requires SectionsOk(h) && Enabled(h, t, a) && !a.Go?
    ensures UpToDate(Next(h, t, a), t)
  {
    assert SectionOk(h, t);
    if a.Receive? {
      ProperPrograms(a.reply, 0, 0, 0);
    } else if a.Decide? {
      ProperPrograms(DecisionReply(a.counts), 0, 0, 0);
    } else if a.BeginReport? {
      ProperPrograms(Short, a.group, a.rank, a.carry);
    } else if a.Gate? || a.BeginReset? {
      ProperPrograms(Short, 0, 0, 0);
    }
  }

  /**
   Over every schedule in which nobody writes a user's money while another
   handler has it in hand, no update of it is ever lost.
   */
  lemma {:induction false} LostOnlyByClash(m: nat, sched: seq<(nat, Act)>, i: nat)
    requires NoClash(m, sched)
    ensures AllUpToDate(Run(m, sched)) && Book(m, sched, i).lost == 0
  {
    if sched == [] {
    } else {
      var sched0 := sched[..|sched| - 1];
      var (t, a) := sched[|sched| - 1];
      var h := Run(m, sched0);
      LostOnlyByClash(m, sched0, i);
      SectionsHold(m, sched0);
      if Enabled(h, t, a) {
        assert UpToDate(h, t);
        forall k | 0 <= k < |h.pcs| ensures UpToDate(Next(h, t, a), k) {
          if !a.Go? { StepUpToDate(h, t, a, k); }
          else if k == t { GoOwnUpToDate(h, t); }
          else { GoOtherUpToDate(h, t, k); }
        }
      }
    }
  }
}
