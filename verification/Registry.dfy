/**
 The HTTP handlers as interleaved threads over the two shared lists, users
 and their locks.  Registration fills both lists under one lock; requests and
 replans work under the user's own lock; resets and failure reports take no
 lock at all.  What they share with a request, clock, money and ledger, is
 loaded and stored statement by statement.
 */
module Registry {
  import opened Wire
  import opened UserModel
  import opened Statements
  import opened Serial

  /**
   What a section is carrying out.  `start` is the user at the boundary test and
   `base` that user with the unlocked statements up to the reply replayed on it:
   what the request would find if it came last.  `hour` is the hour it has open.
   */
  datatype Call =
    | Asked(start: User, base: User, hour: Hour, reply: Reply)
    | Skipped(start: User, base: User, hour: Hour)
    | Rule(before: User, counts: seq<nat>)

  /** Where a handler thread stands. */
  datatype PC =
    | Free
    | Constructing | Listed | LockAdded                     // register
    | Entered(i: nat)                                       // request: lock held, nothing tested yet
    | Bounded(i: nat, start: User, base: User)              // an hour is to be opened
    | Tested(i: nat, start: User, base: User)               // the hour is open
    | Consulting(i: nat, start: User, base: User)           // gate passed, waiting for the model
    | Writing(i: nat, call: Call, quiet: bool, todo: seq<Op>, regs: Regs)
    | Replanning(i: nat)                                    // intercepted: lock held, waiting for the plan
    | Loose(i: nat, todo: seq<Op>, regs: Regs)              // reset or report, without a lock

  datatype Hub = Hub(
    users: seq<User>,
    locks: seq<Option<nat>>,      // holder of each user's lock
    regLock: Option<nat>,
    count: nat,                   // user_count
    pcs: seq<PC>)

  datatype Act =
    | BeginRegister | FailRegister | AppendUser(plan: seq<real>) | AppendLock | Count
    | Enter(i: nat) | Test | Open | Gate | Receive(reply: Reply) | Decide(counts: seq<nat>)
    | EnterReplan(i: nat) | Replan(plan: seq<real>) | FailReplan
    | BeginReset(i: nat) | BeginReport(i: nat, group: int, rank: int, carry: int)
    | Go                          // the next statement of a thread at work on a user

  function Boot(m: nat): Hub { Hub([], [], None, 0, seq(m, _ => Free)) }

  predicate Registering(pc: PC) { pc.Constructing? || pc.Listed? || pc.LockAdded? }

  predicate Requesting(pc: PC) { pc.Bounded? || pc.Tested? || pc.Consulting? }

  predicate Locking(pc: PC) { pc.Entered? || Requesting(pc) || pc.Writing? || pc.Replanning? }

  // -------------------------------------------------------------------- steps

  predicate Inside(h: Hub, pc: PC)
    requires Locking(pc)
  {
    pc.i < |h.users| && pc.i < |h.locks|
  }

  predicate Enabled(h: Hub, t: nat, a: Act) {
    && t < |h.pcs|
    && var pc := h.pcs[t];
       match a
       case BeginRegister => pc.Free? && h.regLock.None?
       case FailRegister => pc.Constructing?
       case AppendUser(_) => pc.Constructing?
       case AppendLock => pc.Listed?
       case Count => pc.LockAdded?
       case Enter(i) => pc.Free? && i < |h.users| && (i < |h.locks| ==> h.locks[i].None?)
       case Test => pc.Entered? && Inside(h, pc)
       case Open => pc.Bounded? && Inside(h, pc)
       case Gate => pc.Tested? && Inside(h, pc)
       case Receive(_) => pc.Consulting? && Inside(h, pc)
       case Decide(_) => pc.Entered? && Inside(h, pc)
       case EnterReplan(i) => pc.Free? && i < |h.users| && (i < |h.locks| ==> h.locks[i].None?)
       case Replan(_) => pc.Replanning? && Inside(h, pc)
       case FailReplan => pc.Replanning? && Inside(h, pc)
       case BeginReset(i) => pc.Free? && i < |h.users|
       case BeginReport(i, _, _, _) => pc.Free? && i < |h.users|
       case Go => (pc.Writing? && Inside(h, pc) && pc.todo != []) || (pc.Loose? && pc.i < |h.users| && pc.todo != [])
  }

  function Goto(h: Hub, t: nat, pc: PC): Hub
    requires t < |h.pcs|
  {
    h.(pcs := h.pcs[t := pc])
  }

  /** Stores the user, gives its lock back and ends the handler. */
  function Leave(h: Hub, t: nat, i: nat, u: User): Hub
    requires t < |h.pcs| && i < |h.users| && i < |h.locks|
  {
    Goto(h, t, Free).(users := h.users[i := u], locks := h.locks[i := None])
  }

  /** Takes the user's lock; a user whose lock is not listed yet makes the handler fail at once. */
  function Take(h: Hub, t: nat, i: nat, pc: PC): Hub
    requires t < |h.pcs|
  {
    if i >= |h.locks| then h else Goto(h, t, pc).(locks := h.locks[i := Some(t)])
  }

  /** The rank of the hour, truncated toward zero. */
  function Rank(clock: int, record: int): int {
    var d := clock - record;
    if d >= 0 then d / HOUR else -((-d) / HOUR)
  }

  lemma RankTruncates(clock: int, record: int)
    ensures var d, r := clock - record, Rank(clock, record);
            if d >= 0 then 60 * r <= d < 60 * (r + 1) else 60 * (r - 1) < d <= 60 * r
  {
    var d := clock - record;
    if d < 0 { assert -d == HOUR * ((-d) / HOUR) + (-d) % HOUR; }
  }

  /** Opening the hour looks at the clock a second time. */
  function OpenedNow(u: User): User
    requires u.plan != []
  {
    u.(stageMoney := 0, stageTotal := u.plan[Rank(u.timePast, u.timeRecord) % |u.plan|], stage := [])
  }

  lemma OpenedInTime(u: User)
    requires Boundary(u) && u.plan != []
    ensures OpenedNow(u) == Opened(u)
  {
    var d := u.timePast - u.timeRecord;
    assert d == HOUR * (d / HOUR);
  }

  /** What an unlocked statement on user `i` means for the other handlers there. */
  function Touched(pc: PC, i: nat, regs: Regs, op: Op): PC {
    if Requesting(pc) && pc.i == i then pc.(base := Effect(pc.base, regs, op))
    else if pc.Writing? && pc.i == i then pc.(quiet := false)
    else pc
  }

  function GoLoose(h: Hub, t: nat): Hub
    requires Enabled(h, t, Go) && h.pcs[t].Loose?
  {
    var pc := h.pcs[t];
    var u, op, rest := h.users[pc.i], pc.todo[0], pc.todo[1..];
    var own := if rest == [] then Free else Loose(pc.i, rest, Loaded(u, pc.regs, op));
    h.(users := h.users[pc.i := Effect(u, pc.regs, op)],
       pcs := seq(|h.pcs|, k requires 0 <= k < |h.pcs| =>
                    if k == t then own else Touched(h.pcs[k], pc.i, pc.regs, op)))
  }

  function GoWriting(h: Hub, t: nat): Hub
    requires Enabled(h, t, Go) && h.pcs[t].Writing?
  {
    var pc := h.pcs[t];
    var u, op, rest := h.users[pc.i], pc.todo[0], pc.todo[1..];
    if rest == [] then Leave(h, t, pc.i, Effect(u, pc.regs, op))
    else
      Goto(h, t, Writing(pc.i, pc.call, pc.quiet, rest, Loaded(u, pc.regs, op)))
      .(users := h.users[pc.i := Effect(u, pc.regs, op)])
  }

  function Next(h: Hub, t: nat, a: Act): Hub
    requires Enabled(h, t, a)
  {
    var pc := h.pcs[t];
    match a
    case BeginRegister => Goto(h, t, Constructing).(regLock := Some(t))
    case FailRegister => Goto(h, t, Free).(regLock := None)
    case AppendUser(plan) => Goto(h, t, Listed).(users := h.users + [Fresh(plan)])
    case AppendLock => Goto(h, t, LockAdded).(locks := h.locks + [None])
    case Count => Goto(h, t, Free).(count := h.count + 1, regLock := None)
    case Enter(i) => Take(h, t, i, Entered(i))
    case Test =>
      var u := h.users[pc.i];
      Goto(h, t, if Boundary(u) then Bounded(pc.i, u, u) else Tested(pc.i, u, u))
    case Open =>
      var u := h.users[pc.i];
      if u.plan == [] then Leave(h, t, pc.i, u.(stageMoney := 0))
      else Goto(h, t, Tested(pc.i, pc.start, pc.base)).(users := h.users[pc.i := OpenedNow(u)])
    case Gate =>
      var u := h.users[pc.i];
      Goto(h, t, if Closed(u) then Writing(pc.i, Skipped(pc.start, pc.base, Guarded(u)), true, TICK, BLANK)
                 else Consulting(pc.i, pc.start, pc.base))
    case Receive(reply) =>
      var u := h.users[pc.i];
      if Silent(reply) then Leave(h, t, pc.i, u)
      else Goto(h, t, Writing(pc.i, Asked(pc.start, pc.base, Guarded(u), reply), true, Applying(reply), BLANK))
    case Decide(counts) =>
      Goto(h, t, Writing(pc.i, Rule(h.users[pc.i], counts), true, Applying(DecisionReply(counts)), BLANK))
    case EnterReplan(i) => Take(h, t, i, Replanning(i))
    case Replan(plan) => Leave(h, t, pc.i, Replanned(h.users[pc.i], plan))
    case FailReplan => Leave(h, t, pc.i, h.users[pc.i])
    case BeginReset(i) => Goto(h, t, Loose(i, RESETTING, BLANK))
    case BeginReport(i, group, rank, carry) => Goto(h, t, Loose(i, Reporting(group, rank, carry), BLANK))
    case Go => if pc.Loose? then GoLoose(h, t) else GoWriting(h, t)
  }

  /** Any schedule of any number of handler threads; what is blocked waits. */
  function Run(m: nat, sched: seq<(nat, Act)>): Hub {
    if sched == [] then Boot(m)
    else
      var h := Run(m, sched[..|sched| - 1]);
      var (t, a) := sched[|sched| - 1];
      if Enabled(h, t, a) then Next(h, t, a) else h
  }

  // -------------------------------------------------------------- registration

  /** The registration lock is held exactly by the thread that is registering. */
  ghost predicate RegHeld(h: Hub) {
    && (forall t | 0 <= t < |h.pcs| :: Registering(h.pcs[t]) <==> h.regLock == Some(t))
    && (h.regLock.Some? ==> h.regLock.value < |h.pcs|)
  }

  ghost predicate RegSizes(h: Hub)
    requires RegHeld(h)
  {
    match h.regLock
    case None => |h.users| == |h.locks| == h.count
    case Some(t) =>
      match h.pcs[t]
      case Listed => |h.users| == |h.locks| + 1 == h.count + 1
      case LockAdded => |h.users| == |h.locks| == h.count + 1
      case _ => |h.users| == |h.locks| == h.count
  }

  ghost predicate RegOk(h: Hub) { RegHeld(h) && RegSizes(h) }

  predicate LooseGo(h: Hub, t: nat, a: Act) { t < |h.pcs| && a.Go? && h.pcs[t].Loose? }

  lemma RegHeldStep(h: Hub, t: nat, a: Act)
    requires RegHeld(h) && Enabled(h, t, a)
    ensures RegHeld(Next(h, t, a))
  {
    if LooseGo(h, t, a) {
      var h' := Next(h, t, a);
      assert forall k | 0 <= k < |h.pcs| :: Registering(h'.pcs[k]) <==> Registering(h.pcs[k]);
    } else {
      RegHeldOwn(h, t, a);
    }
  }

  lemma RegHeldOwn(h: Hub, t: nat, a: Act)
    requires RegHeld(h) && Enabled(h, t, a) && !LooseGo(h, t, a)
    ensures RegHeld(Next(h, t, a))
  {
    var h' := Next(h, t, a);
    assert h'.pcs == h.pcs[t := h'.pcs[t]];
    assert Registering(h.pcs[t]) <==> h.regLock == Some(t);
  }

  lemma RegStep(h: Hub, t: nat, a: Act)
    requires RegOk(h) && Enabled(h, t, a)
    ensures RegOk(Next(h, t, a))
  {
    RegHeldStep(h, t, a);
    if LooseGo(h, t, a) {
      assert h.regLock.Some? ==> Next(h, t, a).pcs[h.regLock.value] == h.pcs[h.regLock.value];
    } else {
      RegSizesOwn(h, t, a);
    }
  }

  lemma RegSizesOwn(h: Hub, t: nat, a: Act)
    requires RegOk(h) && Enabled(h, t, a) && !LooseGo(h, t, a) && RegHeld(Next(h, t, a))
    ensures RegSizes(Next(h, t, a))
  {
    assert Registering(h.pcs[t]) ==> h.regLock == Some(t);
    assert h.regLock.Some? && h.regLock.value != t ==>
        Next(h, t, a).pcs[h.regLock.value] == h.pcs[h.regLock.value];
  }

  /** The lists differ by at most one, and only while a registration is under way. */
  lemma {:induction false} ListsInStep(m: nat, sched: seq<(nat, Act)>)
    ensures RegOk(Run(m, sched))
    ensures var h := Run(m, sched);
            && |h.locks| <= |h.users| <= |h.locks| + 1
            && (h.regLock.None? ==> |h.users| == |h.locks| == h.count)
  {
    if sched == [] {
    } else {
      ListsInStep(m, sched[..|sched| - 1]);
      var h := Run(m, sched[..|sched| - 1]);
      var (t, a) := sched[|sched| - 1];
      if Enabled(h, t, a) { RegStep(h, t, a); }
    }
  }

  // ------------------------------------------------------------- user sections

  /** What an unlocked handler does never touches the guarded fields. */
  predicate Unguarded(op: Op) {
    op.Mark? || op.LoadMoney? || op.StoreMoney? || op.ClearLedger? || op.ClearMoney? || op.ClearClock?
  }

  ghost predicate AllUnguarded(todo: seq<Op>) { forall k | 0 <= k < |todo| :: Unguarded(todo[k]) }

  /** Guarded fields aside, the user is what it would be without the request. */
  ghost predicate Kept(start: User, base: User, u: User) {
    && Guarded(base) == Guarded(start) && u == Over(base, Guarded(u))
    && (base.timePast == start.timePast || base.timePast == 0)
  }

  /** If the clock has not been set back, the open hour is the one the test asked for. */
  ghost predicate HourOk(start: User, base: User, hour: Hour) {
    base.timePast == start.timePast ==> !Stuck(start) && hour == Guarded(Opened(start))
  }

  ghost predicate CallOk(call: Call) {
    match call
    case Asked(start, base, hour, reply) =>
      Guarded(base) == Guarded(start) && HourOk(start, base, hour) && !Closed(Over(base, hour)) && !Silent(reply)
    case Skipped(start, base, hour) =>
      Guarded(base) == Guarded(start) && HourOk(start, base, hour) && Closed(Over(base, hour))
    case Rule(_, _) => true
  }

  /** What the section comes to if nobody disturbs its statements. */
  function Goal(call: Call): User {
    match call
    case Asked(_, base, hour, reply) => Handled(Over(base, hour), reply)
    case Skipped(_, base, hour) => Advance(Over(base, hour))
    case Rule(before, counts) => Decided(before, counts)
  }

  ghost predicate Relies(pc: PC, u: User) {
    match pc
    case Bounded(_, start, base) => Kept(start, base, u) && Boundary(start) && Guarded(u) == Guarded(start)
    case Tested(_, start, base) => Kept(start, base, u) && HourOk(start, base, Guarded(u))
    case Consulting(_, start, base) => Kept(start, base, u) && HourOk(start, base, Guarded(u)) && !Closed(u)
    case Writing(_, call, quiet, todo, regs) =>
      todo != [] && CallOk(call) && (quiet ==> Finish(u, regs, todo) == Goal(call))
    case _ => true
  }

  /** What a thread inside a user's section may rely on. */
  ghost predicate SectionOk(h: Hub, t: nat)
    requires t < |h.pcs|
  {
    var pc := h.pcs[t];
    && (Locking(pc) ==> Inside(h, pc) && h.locks[pc.i] == Some(t) && Relies(pc, h.users[pc.i]))
    && (pc.Loose? ==> pc.i < |h.users| && pc.todo != [] && AllUnguarded(pc.todo))
  }

  ghost predicate SectionsOk(h: Hub) { forall t | 0 <= t < |h.pcs| :: SectionOk(h, t) }

  lemma UnguardedEffect(u: User, regs: Regs, op: Op)
    requires Unguarded(op)
    ensures Guarded(Effect(u, regs, op)) == Guarded(u)
    ensures Effect(u, regs, op).timePast == u.timePast || Effect(u, regs, op).timePast == 0
  {
  }

  lemma KeptTouched(start: User, base: User, u: User, regs: Regs, op: Op)
    requires Kept(start, base, u) && Unguarded(op)
    ensures Kept(start, Effect(base, regs, op), Effect(u, regs, op))
  {
  }

  lemma TouchedRelies(pc: PC, u: User, regs: Regs, op: Op)
    requires Locking(pc) && Relies(pc, u) && Unguarded(op)
    ensures Relies(Touched(pc, pc.i, regs, op), Effect(u, regs, op))
  {
    UnguardedEffect(u, regs, op);
    if Requesting(pc) {
      KeptTouched(pc.start, pc.base, u, regs, op);
      UnguardedEffect(pc.base, regs, op);
    }
  }

  /** An unlocked statement keeps what the sections rely on. */
  lemma LooseOther(h: Hub, t: nat, k: nat)
    requires SectionsOk(h) && Enabled(h, t, Go) && h.pcs[t].Loose? && k < |h.pcs| && k != t
    ensures SectionOk(Next(h, t, Go), k)
  {
    assert SectionOk(h, k) && SectionOk(h, t);
    var pc, mine := h.pcs[k], h.pcs[t];
    if Locking(pc) && pc.i == mine.i { TouchedRelies(pc, h.users[pc.i], mine.regs, mine.todo[0]); }
  }

  lemma LooseOwn(h: Hub, t: nat)
    requires SectionsOk(h) && Enabled(h, t, Go) && h.pcs[t].Loose?
    ensures SectionOk(Next(h, t, Go), t)
  {
    assert SectionOk(h, t);
  }

  /** A step of thread `t` changes only users whose lock it holds, and only locks that are free or its own. */
  lemma StepFrame(h: Hub, t: nat, a: Act)
    requires SectionsOk(h) && Enabled(h, t, a) && !LooseGo(h, t, a)
    ensures var h' := Next(h, t, a);
            && h'.pcs == h.pcs[t := h'.pcs[t]] && |h.users| <= |h'.users| && |h.locks| <= |h'.locks|
            && forall i | 0 <= i < |h.users| && i < |h.locks| && h.locks[i].Some? && h.locks[i] != Some(t) ::
                 h'.users[i] == h.users[i] && h'.locks[i] == h.locks[i]
  {
    assert SectionOk(h, t);
  }

  /** So it keeps what another thread's section relies on. */
  lemma OtherSection(h: Hub, t: nat, a: Act, k: nat)
    requires SectionsOk(h) && Enabled(h, t, a) && !LooseGo(h, t, a) && k < |h.pcs| && k != t
    ensures SectionOk(Next(h, t, a), k)
  {
    var h' := Next(h, t, a);
    assert SectionOk(h, k);
    StepFrame(h, t, a);
    assert h'.pcs[k] == h.pcs[k];
  }

  lemma TestRelies(u: User, i: nat)
    ensures Boundary(u) ==> Relies(Bounded(i, u, u), u)
    ensures !Boundary(u) ==> Relies(Tested(i, u, u), u)
  {
  }

  lemma OpenRelies(start: User, base: User, u: User, i: nat)
    requires Relies(Bounded(i, start, base), u) && u.plan != []
    ensures Relies(Tested(i, start, base), OpenedNow(u))
  {
    if base.timePast == start.timePast { OpenedInTime(u); }
  }

  lemma GateRelies(start: User, base: User, u: User, i: nat)
    requires Relies(Tested(i, start, base), u)
    ensures Closed(u) ==> Relies(Writing(i, Skipped(start, base, Guarded(u)), true, TICK, BLANK), u)
    ensures !Closed(u) ==> Relies(Consulting(i, start, base), u)
  {
    TickAlone(u);
  }

  lemma ReceiveRelies(start: User, base: User, u: User, i: nat, reply: Reply)
    requires Relies(Consulting(i, start, base), u) && !Silent(reply)
    ensures Relies(Writing(i, Asked(start, base, Guarded(u), reply), true, Applying(reply), BLANK), u)
  {
    ApplyingAlone(u, reply);
  }

  lemma DecideRelies(u: User, i: nat, counts: seq<nat>)
    ensures Relies(Writing(i, Rule(u, counts), true, Applying(DecisionReply(counts)), BLANK), u)
  {
    ApplyingAlone(u, DecisionReply(counts));
  }

  lemma GoRelies(pc: PC, u: User)
    requires pc.Writing? && Relies(pc, u) && |pc.todo| > 1
    ensures var op := pc.todo[0];
            Relies(Writing(pc.i, pc.call, pc.quiet, pc.todo[1..], Loaded(u, pc.regs, op)), Effect(u, pc.regs, op))
  {
  }

  lemma OwnHour(h: Hub, t: nat, a: Act)
    requires SectionsOk(h) && Enabled(h, t, a) && (a.Test? || a.Open? || a.Gate?)
    ensures SectionOk(Next(h, t, a), t)
  {
    assert SectionOk(h, t);
    var pc := h.pcs[t];
    var u := h.users[pc.i];
    if a.Test? {
      TestRelies(u, pc.i);
    } else if a.Gate? {
      GateRelies(pc.start, pc.base, u, pc.i);
    } else if u.plan != [] {
      OpenRelies(pc.start, pc.base, u, pc.i);
    }
  }

  lemma OwnWriting(h: Hub, t: nat, a: Act)
    requires SectionsOk(h) && Enabled(h, t, a) && !LooseGo(h, t, a) && (a.Receive? || a.Decide? || a.Go?)
    ensures SectionOk(Next(h, t, a), t)
  {
    assert SectionOk(h, t);
    var pc := h.pcs[t];
    var u := h.users[pc.i];
    if a.Decide? {
      DecideRelies(u, pc.i, a.counts);
    } else if a.Go? {
      if |pc.todo| > 1 { GoRelies(pc, u); }
    } else if !Silent(a.reply) {
      ReceiveRelies(pc.start, pc.base, u, pc.i, a.reply);
    }
  }

  lemma OwnSection(h: Hub, t: nat, a: Act)
    requires SectionsOk(h) && Enabled(h, t, a) && !LooseGo(h, t, a)
    ensures SectionOk(Next(h, t, a), t)
  {
    if a.Test? || a.Open? || a.Gate? {
      OwnHour(h, t, a);
    } else if a.Receive? || a.Decide? || a.Go? {
      OwnWriting(h, t, a);
    } else {
      assert SectionOk(h, t);
    }
  }

  lemma SectionsStep(h: Hub, t: nat, a: Act)
    requires SectionsOk(h) && Enabled(h, t, a)
    ensures SectionsOk(Next(h, t, a))
  {
    forall k | 0 <= k < |h.pcs| ensures SectionOk(Next(h, t, a), k) {
      if LooseGo(h, t, a) {
        if k == t { LooseOwn(h, t); } else { LooseOther(h, t, k); }
      } else {
        if k == t { OwnSection(h, t, a); } else { OtherSection(h, t, a, k); }
      }
    }
  }

  /**
   In every reachable state of every schedule, a request past its boundary
   test still finds the plan, the plan's time stamp and the hour's fields that
   it left behind itself: no replan falls into it.
   */
  lemma {:induction false} SectionsHold(m: nat, sched: seq<(nat, Act)>)
    ensures SectionsOk(Run(m, sched))
  {
    if sched == [] {
    } else {
      SectionsHold(m, sched[..|sched| - 1]);
      var h := Run(m, sched[..|sched| - 1]);
      var (t, a) := sched[|sched| - 1];
      if Enabled(h, t, a) { SectionsStep(h, t, a); }
    }
  }

  lemma GuardedStep(h: Hub, t: nat, a: Act, i: nat)
    requires SectionsOk(h) && Enabled(h, t, a) && i < |h.users|
    ensures var h' := Next(h, t, a);
            && i < |h'.users|
            && (Guarded(h'.users[i]) != Guarded(h.users[i]) ==> i < |h.locks| && h.locks[i] == Some(t))
  {
    assert SectionOk(h, t);
    if LooseGo(h, t, a) { UnguardedEffect(h.users[h.pcs[t].i], h.pcs[t].regs, h.pcs[t].todo[0]); }
  }

  /** Whoever changes a published user's plan, time stamp or hour fields holds that user's lock. */
  lemma OnlyUnderLock(m: nat, sched: seq<(nat, Act)>, t: nat, a: Act, i: nat)
    requires Enabled(Run(m, sched), t, a) && i < |Run(m, sched).users|
    ensures var h, h' := Run(m, sched), Next(Run(m, sched), t, a);
            && i < |h'.users|
            && (Guarded(h'.users[i]) != Guarded(h.users[i]) ==> i < |h.locks| && h.locks[i] == Some(t))
  {
    SectionsHold(m, sched);
    GuardedStep(Run(m, sched), t, a, i);
  }

  /** No two threads are inside the same user's section. */
  lemma Exclusive(m: nat, sched: seq<(nat, Act)>, t: nat, k: nat)
    requires var h := Run(m, sched);
             && t < |h.pcs| && k < |h.pcs| && Locking(h.pcs[t]) && Locking(h.pcs[k]) && h.pcs[t].i == h.pcs[k].i
    ensures t == k
  {
    SectionsHold(m, sched);
    assert SectionOk(Run(m, sched), t) && SectionOk(Run(m, sched), k);
  }

  // ------------------------------------------------------------ serial or not

  /** What the operation that leaves with `a` makes of a user when it runs alone, after everything unlocked. */
  ghost predicate Sequential(pc: PC, u: User, a: Act, after: User)
    requires Locking(pc)
  {
    match pc
    case Writing(_, Asked(_, base, _, reply), _, _, _) => after == Requested(base, reply)
    case Writing(_, Skipped(_, base, _), _, _, _) => forall reply :: after == Requested(base, reply)
    case Writing(_, Rule(before, counts), _, _, _) => after == Decided(before, counts)
    case Consulting(_, _, base) => a.Receive? && after == Requested(base, a.reply)
    case Bounded(_, _, base) => forall reply :: after == Requested(base, reply)
    case Replanning(_) => if a.Replan? then after == Replanned(u, a.plan) else after == u
    case _ => false
  }

  /**
   The clock has not been set back since the boundary test, and no unlocked
   statement has fallen among those that apply the reply.
   */
  ghost predicate Undisturbed(pc: PC) {
    match pc
    case Bounded(_, start, base) => base.timePast == start.timePast
    case Tested(_, start, base) => base.timePast == start.timePast
    case Consulting(_, start, base) => base.timePast == start.timePast
    case Writing(_, call, quiet, _, _) => quiet && (call.Rule? || call.base.timePast == call.start.timePast)
    case _ => true
  }

  lemma KeptHour(start: User, base: User, hour: Hour)
    requires Guarded(base) == Guarded(start) && HourOk(start, base, hour) && base.timePast == start.timePast
    ensures SameHour(hour, base)
  {
  }

  /** The step that ends a section, taken on its own. */
  lemma LeavesSerial(pc: PC, u: User, a: Act)
    requires pc.Writing? && Relies(pc, u) && Undisturbed(pc) && |pc.todo| == 1
    ensures Sequential(pc, u, a, Effect(u, pc.regs, pc.todo[0]))
  {
    assert Finish(Effect(u, pc.regs, pc.todo[0]), Loaded(u, pc.regs, pc.todo[0]), pc.todo[1..]) == Goal(pc.call);
    match pc.call
    case Asked(start, base, hour, reply) =>
      KeptHour(start, base, hour);
      HandledSerial(base, hour, reply);
    case Skipped(start, base, hour) =>
      KeptHour(start, base, hour);
      AdvanceSerial(base, hour);
    case Rule(_, _) =>
  }

  lemma LeavesSilent(pc: PC, u: User, a: Act)
    requires pc.Consulting? && Relies(pc, u) && Undisturbed(pc) && a.Receive? && Silent(a.reply)
    ensures Sequential(pc, u, a, u)
  {
    KeptHour(pc.start, pc.base, Guarded(u));
    HandledSerial(pc.base, Guarded(u), a.reply);
  }

  lemma LeavesStuck(start: User, base: User, u: User)
    requires Kept(start, base, u) && Boundary(start) && Guarded(u) == Guarded(start)
    requires base.timePast == start.timePast && u.plan == []
    ensures u == base && forall reply :: u.(stageMoney := 0) == Requested(base, reply)
  {
    assert Over(base, Guarded(base)) == base;
    assert Guarded(base).timeRecord == Guarded(start).timeRecord;
    StuckSerial(base);
  }

  /**
   A section whose hour was opened by the clock it still finds, and into whose
   final statements nobody writes, has the effect of running alone after all
   the unlocked statements before them, on every way out of it.
   */
  lemma UndisturbedIsSerial(m: nat, sched: seq<(nat, Act)>, t: nat, a: Act)
    requires Enabled(Run(m, sched), t, a) && Locking(Run(m, sched).pcs[t]) && Undisturbed(Run(m, sched).pcs[t])
    requires Next(Run(m, sched), t, a).pcs[t].Free?
    ensures var h, h' := Run(m, sched), Next(Run(m, sched), t, a);
            && h.pcs[t].i < |h.users| == |h'.users|
            && Sequential(h.pcs[t], h.users[h.pcs[t].i], a, h'.users[h.pcs[t].i])
  {
    var h := Run(m, sched);
    SectionsHold(m, sched);
    assert SectionOk(h, t);
    var pc := h.pcs[t];
    if pc.Writing? {
      LeavesSerial(pc, h.users[pc.i], a);
    } else if pc.Consulting? {
      LeavesSilent(pc, h.users[pc.i], a);
    } else if pc.Bounded? {
      LeavesStuck(pc.start, pc.base, h.users[pc.i]);
    }
  }

  /** What quiet statements come to. */
  lemma QuietGoal(m: nat, sched: seq<(nat, Act)>, t: nat)
    requires Enabled(Run(m, sched), t, Go) && Run(m, sched).pcs[t].Writing? && Run(m, sched).pcs[t].quiet
    requires Next(Run(m, sched), t, Go).pcs[t].Free?
    ensures var pc, h' := Run(m, sched).pcs[t], Next(Run(m, sched), t, Go);
            pc.i < |h'.users| && CallOk(pc.call) && h'.users[pc.i] == Goal(pc.call)
  {
    var h := Run(m, sched);
    SectionsHold(m, sched);
    assert SectionOk(h, t);
    var pc, u := h.pcs[t], h.users[h.pcs[t].i];
    assert |pc.todo| == 1;
    assert Finish(Effect(u, pc.regs, pc.todo[0]), Loaded(u, pc.regs, pc.todo[0]), pc.todo[1..]) == Goal(pc.call);
  }

  /**
   Exactly when a reply applied without disturbance comes out as if the request
   had run alone after the unlocked handlers: if it would have opened the same
   hour then.
   */
  lemma SerialIff(m: nat, sched: seq<(nat, Act)>, t: nat)
    requires Enabled(Run(m, sched), t, Go) && Run(m, sched).pcs[t].Writing? && Run(m, sched).pcs[t].quiet
    requires Next(Run(m, sched), t, Go).pcs[t].Free? && Run(m, sched).pcs[t].call.Asked?
    ensures var pc, h' := Run(m, sched).pcs[t], Next(Run(m, sched), t, Go);
            && pc.i < |h'.users|
            && (h'.users[pc.i] == Requested(pc.call.base, pc.call.reply) <==> SameHour(pc.call.hour, pc.call.base))
  {
    QuietGoal(m, sched, t);
    var call := Run(m, sched).pcs[t].call;
    HandledSerial(call.base, call.hour, call.reply);
  }

  /** The same for a request that leaves at a closed gate, whatever the answer would have been. */
  lemma GateSerialIff(m: nat, sched: seq<(nat, Act)>, t: nat)
    requires Enabled(Run(m, sched), t, Go) && Run(m, sched).pcs[t].Writing? && Run(m, sched).pcs[t].quiet
    requires Next(Run(m, sched), t, Go).pcs[t].Free? && Run(m, sched).pcs[t].call.Skipped?
    ensures var pc, h' := Run(m, sched).pcs[t], Next(Run(m, sched), t, Go);
            && pc.i < |h'.users|
            && ((forall reply :: h'.users[pc.i] == Requested(pc.call.base, reply)) <==>
                SameHour(pc.call.hour, pc.call.base))
  {
    QuietGoal(m, sched, t);
    var call := Run(m, sched).pcs[t].call;
    AdvanceSerial(call.base, call.hour);
  }

  /** For one that dies on an empty plan. */
  lemma StuckSerialIff(m: nat, sched: seq<(nat, Act)>, t: nat)
    requires Enabled(Run(m, sched), t, Open) && Next(Run(m, sched), t, Open).pcs[t].Free?
    ensures var h, h' := Run(m, sched), Next(Run(m, sched), t, Open);
            && h.pcs[t].i < |h'.users|
            && ((forall reply :: h'.users[h.pcs[t].i] == Requested(h.pcs[t].base, reply)) <==> Stuck(h.pcs[t].base))
  {
    var h := Run(m, sched);
    SectionsHold(m, sched);
    assert SectionOk(h, t);
    assert h.users[h.pcs[t].i] == h.pcs[t].base;
    StuckSerial(h.pcs[t].base);
  }

  /** And for one whose model gives no decodable answer. */
  lemma SilentSerialIff(m: nat, sched: seq<(nat, Act)>, t: nat, reply: Reply)
    requires Enabled(Run(m, sched), t, Receive(reply)) && Silent(reply)
    ensures var h, h' := Run(m, sched), Next(Run(m, sched), t, Receive(reply));
            var base, hour := h.pcs[t].base, Guarded(h.users[h.pcs[t].i]);
            && h.pcs[t].i < |h'.users|
            && (h'.users[h.pcs[t].i] == Requested(base, reply) <==>
                SameHour(hour, base) || (Stuck(base) && hour == Guarded(base.(stageMoney := 0))))
  {
    var h := Run(m, sched);
    SectionsHold(m, sched);
    assert SectionOk(h, t);
    HandledSerial(h.pcs[t].base, Guarded(h.users[h.pcs[t].i]), reply);
  }
}
