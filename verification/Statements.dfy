/**
 The handlers' work on one user, statement by statement.  Clock, money and
 ledger are shared: resets and failure reports change them without a lock, so
 every load and every store of theirs is a step of its own.
 */
module Statements {
  import opened Ledger
  import opened UserModel

  datatype Op =
    | LoadClock | StoreClock                              // the two halves of adding ten minutes
    | LoadMoney | StoreMoney(delta: int)                  // the two halves of changing the money
    | ChargeHour(units: nat)                              // only ever under the user's lock
    | Post(run: Entry)                                    // a record for each of the two lists
    | ClearLedger | ClearMoney | ClearClock               // reset
    | Mark(group: int, rank: int, carry: int)             // a report's scan

  /** What a handler has loaded and not stored yet. */
  datatype Regs = Regs(clock: int, money: int)

  const BLANK := Regs(0, 0)

  function Marked(l: seq<Record>, group: int, rank: int, carry: int): seq<Record> {
    MarkFailed(l, HitIndex(l, group, rank, carry))
  }

  function Effect(u: User, regs: Regs, op: Op): User {
    match op
    case LoadClock => u
    case StoreClock => u.(timePast := regs.clock + STEP)
    case LoadMoney => u
    case StoreMoney(delta) => u.(money := regs.money + delta)
    case ChargeHour(units) => u.(stageMoney := u.stageMoney + units)
    case Post(run) => Append(u, [run])
    case ClearLedger => u.(ledger := [])
    case ClearMoney => u.(money := 0)
    case ClearClock => u.(timePast := 0)
    case Mark(group, rank, carry) => u.(ledger := Marked(u.ledger, group, rank, carry))
  }

  function Loaded(u: User, regs: Regs, op: Op): Regs {
    match op
    case LoadClock => regs.(clock := u.timePast)
    case LoadMoney => regs.(money := u.money)
    case _ => regs
  }

  /** All remaining statements in a row. */
  function Finish(u: User, regs: Regs, todo: seq<Op>): User
    decreases |todo|
  {
    if todo == [] then u else Finish(Effect(u, regs, todo[0]), Loaded(u, regs, todo[0]), todo[1..])
  }

  // ----------------------------------------------------------------- programs

  const TICK: seq<Op> := [LoadClock, StoreClock]
  const RESETTING: seq<Op> := [ClearLedger, ClearMoney, ClearClock]

  function Reporting(group: int, rank: int, carry: int): seq<Op> {
    [Mark(group, rank, carry), LoadMoney, StoreMoney(-1)]
  }

  /** The reply gets as far as being charged. */
  predicate Charges(reply: Reply) { reply.Opaque? || reply.Ints? }

  function Charging(units: nat): seq<Op> { [LoadMoney, StoreMoney(units), ChargeHour(units)] }

  function Posts(runs: seq<Entry>): seq<Op> { seq(|runs|, i requires 0 <= i < |runs| => Post(runs[i])) }

  /** `handle_result` on a reply that can be decoded. */
  function Applying(reply: Reply): seq<Op> {
    TICK + if Charges(reply) then Charging(Units(reply)) + Posts(Runs(reply)) else []
  }

  /** Statement `a` of handling a reply with `n` units in these runs. */
  function OpFor(n: nat, runs: seq<Entry>, a: nat): Op
    requires a < 5 || a - 5 < |runs|
  {
    if a == 0 then LoadClock else if a == 1 then StoreClock else if a == 2 then LoadMoney
    else if a == 3 then StoreMoney(n) else if a == 4 then ChargeHour(n) else Post(runs[a - 5])
  }

  lemma OpAt(reply: Reply, a: nat)
    requires a < |Applying(reply)|
    ensures a >= 5 ==> a - 5 < |Runs(reply)|
    ensures Applying(reply)[a] == OpFor(Units(reply), Runs(reply), a)
  {
  }

  // ------------------------------------------- undisturbed, they are the operations

  lemma FinishTwo(u: User, regs: Regs, a: Op, b: Op, rest: seq<Op>)
    ensures Finish(u, regs, [a, b] + rest) ==
            Finish(Effect(Effect(u, regs, a), Loaded(u, regs, a), b),
                   Loaded(Effect(u, regs, a), Loaded(u, regs, a), b), rest)
  {
    assert ([a, b] + rest)[1..] == [b] + rest && ([b] + rest)[1..] == rest;
  }

  lemma FinishThree(u: User, regs: Regs, a: Op, b: Op, c: Op, rest: seq<Op>)
    ensures Finish(u, regs, [a, b, c] + rest) ==
            Finish(Effect(u, regs, a), Loaded(u, regs, a), [b, c] + rest)
  {
    assert ([a, b, c] + rest)[1..] == [b, c] + rest;
  }

  lemma AppendHead(u: User, runs: seq<Entry>)
    requires runs != []
    ensures Append(Append(u, [runs[0]]), runs[1..]) == Append(u, runs)
  {
    var v, w := Append(Append(u, [runs[0]]), runs[1..]), Append(u, runs);
    assert v.ledger == w.ledger;
    assert v.stage == w.stage;
  }

  lemma {:induction false} FinishPosts(u: User, regs: Regs, runs: seq<Entry>)
    ensures Finish(u, regs, Posts(runs)) == Append(u, runs)
    decreases |runs|
  {
    if runs == [] {
      assert Append(u, runs).ledger == u.ledger && Append(u, runs).stage == u.stage;
    } else {
      assert Posts(runs)[1..] == Posts(runs[1..]);
      FinishPosts(Append(u, [runs[0]]), regs, runs[1..]);
      AppendHead(u, runs);
    }
  }

  lemma FinishCharging(u: User, regs: Regs, units: nat, runs: seq<Entry>)
    ensures Finish(u, regs, Charging(units) + Posts(runs)) == Append(Charge(u, units), runs)
  {
    var rest := Posts(runs);
    FinishThree(u, regs, LoadMoney, StoreMoney(units), ChargeHour(units), rest);
    FinishTwo(u, regs.(money := u.money), StoreMoney(units), ChargeHour(units), rest);
    FinishPosts(Charge(u, units), regs.(money := u.money), runs);
  }

  lemma TickEffect(u: User, regs: Regs)
    ensures var r := regs.(clock := u.timePast);
            && Effect(u, regs, LoadClock) == u && Loaded(u, regs, LoadClock) == r
            && Effect(u, r, StoreClock) == Advance(u) && Loaded(u, r, StoreClock) == r
  {
  }

  lemma FinishTick(u: User, regs: Regs, rest: seq<Op>)
    ensures Finish(u, regs, TICK + rest) == Finish(Advance(u), regs.(clock := u.timePast), rest)
  {
    TickEffect(u, regs);
    assert TICK + rest == [LoadClock, StoreClock] + rest;
    FinishTwo(u, regs, LoadClock, StoreClock, rest);
  }

  /** Undisturbed, the statements of `handle_result` do what `Handled` says. */
  lemma ApplyingAlone(u: User, reply: Reply)
    requires !Silent(reply)
    ensures Finish(u, BLANK, Applying(reply)) == Handled(u, reply)
  {
    FinishTick(u, BLANK, Applying(reply)[2..]);
    assert TICK + Applying(reply)[2..] == Applying(reply);
    if Charges(reply) {
      assert Applying(reply)[2..] == Charging(Units(reply)) + Posts(Runs(reply));
      FinishCharging(Advance(u), BLANK.(clock := u.timePast), Units(reply), Runs(reply));
    } else {
      assert Applying(reply)[2..] == Posts([]);
      FinishPosts(Advance(u), BLANK.(clock := u.timePast), []);
    }
  }

  lemma TickAlone(u: User)
    ensures Finish(u, BLANK, TICK) == Advance(u)
  {
    FinishTick(u, BLANK, []);
    assert TICK + [] == TICK;
  }

  /** And those of `reset` and of a report what `WasReset` and `Reported` say. */
  lemma UnlockedAlone(u: User, group: int, rank: int, carry: int)
    ensures Finish(u, BLANK, RESETTING) == WasReset(u)
    ensures Finish(u, BLANK, Reporting(group, rank, carry)) == Reported(u, group, rank, carry)
  {
    FinishThree(u, BLANK, ClearLedger, ClearMoney, ClearClock, []);
    FinishTwo(u.(ledger := []), BLANK, ClearMoney, ClearClock, []);
    assert [ClearLedger, ClearMoney, ClearClock] + [] == RESETTING;
    var mark := Mark(group, rank, carry);
    FinishThree(u, BLANK, mark, LoadMoney, StoreMoney(-1), []);
    FinishTwo(Effect(u, BLANK, mark), BLANK, LoadMoney, StoreMoney(-1), []);
    assert [mark, LoadMoney, StoreMoney(-1)] + [] == Reporting(group, rank, carry);
  }
}
