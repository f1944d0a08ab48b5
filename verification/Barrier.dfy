/**
 The cross-thread trigger.  Threads raise it when they are caught; each rank
 then runs one indication and fills its slot, and whoever fills the last slot
 lowers the trigger again.  Two locks guard it, always taken in the same order.

 `Do` is the intended effect of each critical section taken as one step;
 `Next` is the program, one statement at a time under the two locks.
 */
module Barrier {
  import opened Wire

  datatype Shared = Shared(
    trigger: bool,
    slots: seq<bool>,        // handle_number
    ran: seq<nat>,           // indications run on the trigger, per rank
    clears: nat)             // times the trigger was lowered

  const SLOTS := 12
  const THREADS := 4

  // ---------------------------------------------------------- atomic actions

  datatype Action = Raise | Settle(rank: nat)

  ghost predicate AllSet(slots: seq<bool>) { forall i | 0 <= i < |slots| :: slots[i] }

  ghost predicate Shape(s: Shared, n: nat) { |s.slots| == |s.ran| == n }

  function Empty(n: nat): Shared { Shared(false, seq(n, _ => false), seq(n, _ => 0), 0) }

  /** The rank's indication has run and its slot is filled. */
  function Filled(s: Shared, r: nat): Shared
    requires r < |s.slots| == |s.ran|
  {
    s.(ran := s.ran[r := s.ran[r] + 1], slots := s.slots[r := true])
  }

  ghost predicate Pends(s: Shared, r: nat) { s.trigger && r < |s.slots| && !s.slots[r] }

  ghost function Do(s: Shared, a: Action): Shared
    requires |s.ran| == |s.slots|
  {
    match a
    case Raise => s.(trigger := true)
    case Settle(r) =>
      if !Pends(s, r) then s
      else
        var f := Filled(s, r);
        if AllSet(f.slots) then f.(trigger := false, clears := f.clears + 1) else f
  }

  ghost function DoAll(n: nat, log: seq<Action>): (s: Shared)
    ensures Shape(s, n)
  {
    if log == [] then Empty(n) else Do(DoAll(n, log[..|log| - 1]), log[|log| - 1])
  }

  /** One indication per filled slot; the trigger was lowered at most once, and only with every slot filled. */
  ghost predicate Sound(s: Shared) {
    && |s.ran| == |s.slots|
    && (forall r | 0 <= r < |s.slots| :: s.ran[r] == if s.slots[r] then 1 else 0)
    && s.clears <= 1
    && (s.clears == 1 ==> AllSet(s.slots))
  }

  lemma DoSound(s: Shared, a: Action)
    requires Sound(s)
    ensures Sound(Do(s, a))
    ensures forall r | 0 <= r < |s.slots| :: s.slots[r] ==> Do(s, a).slots[r]
    ensures s.trigger && !Do(s, a).trigger ==> AllSet(Do(s, a).slots) && s.clears == 0
    ensures s.clears == 1 && s.trigger ==> Do(s, a).trigger
  {
  }

  lemma {:induction false} DoAllSound(n: nat, log: seq<Action>)
    ensures Sound(DoAll(n, log))
  {
    if log == [] {
    } else {
      DoAllSound(n, log[..|log| - 1]);
      DoSound(DoAll(n, log[..|log| - 1]), log[|log| - 1]);
    }
  }

  // -------------------------------------------------- statement by statement

  datatype PC =
    | Out                    // holds nothing
    | InRaise | Raised       // first section: before and after the write
    | InSettle               // second section: before the trigger is read
    | WantSlots              // trigger seen, second lock wanted
    | InSlots                // both locks, before the slot is read
    | Computed               // indication run, slot not yet written
    | Marked(scanned: nat)   // slot written, so many slots found filled
    | Clearing               // all filled, trigger about to be lowered
    | LeaveSlots | LeaveTrigger
    | Dead                   // the rank has no slot: the thread died of it

  datatype Machine = Machine(
    mem: Shared,
    triggerLock: Option<nat>,
    slotLock: Option<nat>,
    pcs: seq<PC>,
    log: seq<Action>)        // sections completed, in order of release

  /** What a thread outside turns to next. */
  datatype Wish = WishRaise | WishSettle

  function Boot(m: nat, n: nat): Machine { Machine(Empty(n), None, None, seq(m, _ => Out), []) }

  predicate Inside(pc: PC) { !pc.Out? && !pc.Dead? }

  predicate HoldsSlots(pc: PC) { pc.InSlots? || pc.Computed? || pc.Marked? || pc.Clearing? || pc.LeaveSlots? }

  predicate Enabled(s: Machine, t: nat) {
    && t < |s.pcs|
    && match s.pcs[t]
       case Out => s.triggerLock.None?
       case WantSlots => s.slotLock.None?
       case Dead => false
       case _ => true
  }

  function Goto(s: Machine, t: nat, pc: PC): Machine
    requires t < |s.pcs|
  {
    s.(pcs := s.pcs[t := pc])
  }

  function Next(s: Machine, t: nat, w: Wish): Machine
    requires Enabled(s, t) && |s.mem.ran| == |s.mem.slots|
  {
    var m := s.mem;
    match s.pcs[t]
    case Out => Goto(s, t, if w.WishRaise? then InRaise else InSettle).(triggerLock := Some(t))
    case InRaise => Goto(s, t, Raised).(mem := m.(trigger := true))
    case Raised => Goto(s, t, Out).(triggerLock := None, log := s.log + [Raise])
    case InSettle => Goto(s, t, if m.trigger then WantSlots else LeaveTrigger)
    case WantSlots => Goto(s, t, InSlots).(slotLock := Some(t))
    case InSlots =>
      if t >= |m.slots| then Goto(s, t, Dead).(slotLock := None, triggerLock := None)
      else if m.slots[t] then Goto(s, t, LeaveSlots)
      else Goto(s, t, Computed).(mem := m.(ran := m.ran[t := m.ran[t] + 1]))
    case Computed =>
      if t >= |m.slots| then s else Goto(s, t, Marked(0)).(mem := m.(slots := m.slots[t := true]))
    case Marked(i) =>
      if i >= |m.slots| then Goto(s, t, Clearing)
      else if m.slots[i] then Goto(s, t, Marked(i + 1))
      else Goto(s, t, LeaveSlots)
    case Clearing => Goto(s, t, LeaveSlots).(mem := m.(trigger := false, clears := m.clears + 1))
    case LeaveSlots => Goto(s, t, LeaveTrigger).(slotLock := None)
    case LeaveTrigger => Goto(s, t, Out).(triggerLock := None, log := s.log + [Settle(t)])
    case Dead => s
  }

  /** Any schedule; a thread that is scheduled but blocked waits. */
  function Run(m: nat, n: nat, sched: seq<(nat, Wish)>): (s: Machine)
    ensures |s.mem.ran| == |s.mem.slots|
  {
    if sched == [] then Boot(m, n)
    else
      var s0 := Run(m, n, sched[..|sched| - 1]);
      var (t, w) := sched[|sched| - 1];
      if Enabled(s0, t) then Next(s0, t, w) else s0
  }

  // ------------------------------------------------------------- atomicity

  /** What the shared memory looks like while thread `t` is inside, relative to the last completed section. */
  ghost predicate Midway(base: Shared, mem: Shared, t: nat, pc: PC)
    requires |base.ran| == |base.slots|
  {
    match pc
    case InRaise => mem == base
    case Raised => mem == Do(base, Raise)
    case InSettle => mem == base
    case WantSlots => mem == base && base.trigger
    case InSlots => mem == base && base.trigger
    case Computed => Pends(base, t) && mem == base.(ran := base.ran[t := base.ran[t] + 1])
    case Marked(i) => Pends(base, t) && mem == Filled(base, t) && i <= |mem.slots| && AllSet(mem.slots[..i])
    case Clearing => Pends(base, t) && mem == Filled(base, t) && AllSet(mem.slots)
    case _ => mem == Do(base, Settle(t))
  }

  /** Exactly the holder of a lock is at a point that needs it, and only its section is incomplete. */
  ghost predicate Inv(s: Machine, n: nat) {
    && Shape(s.mem, n)
    && (forall t | 0 <= t < |s.pcs| :: Inside(s.pcs[t]) <==> s.triggerLock == Some(t))
    && (forall t | 0 <= t < |s.pcs| :: HoldsSlots(s.pcs[t]) <==> s.slotLock == Some(t))
    && (s.triggerLock.Some? ==> s.triggerLock.value < |s.pcs|)
    && (s.slotLock.Some? ==> s.triggerLock == s.slotLock)
    && match s.triggerLock
       case None => s.mem == DoAll(n, s.log)
       case Some(t) => Midway(DoAll(n, s.log), s.mem, t, s.pcs[t])
  }

  ghost predicate DataOk(s: Machine, n: nat) {
    && Shape(s.mem, n)
    && match s.triggerLock
       case None => s.mem == DoAll(n, s.log)
       case Some(h) => h < |s.pcs| && Midway(DoAll(n, s.log), s.mem, h, s.pcs[h])
  }

  lemma LogSnoc(n: nat, log: seq<Action>, a: Action)
    ensures DoAll(n, log + [a]) == Do(DoAll(n, log), a)
  {
    assert (log + [a])[..|log|] == log;
  }

  /** The data part of one statement, outside the inner section. */
  lemma OuterData(s: Machine, n: nat, t: nat, w: Wish)
    requires Inv(s, n) && Enabled(s, t) && !HoldsSlots(s.pcs[t])
    ensures DataOk(Next(s, t, w), n)
  {
    LogSnoc(n, s.log, Raise);
    LogSnoc(n, s.log, Settle(t));
  }

  /** The data part of one statement, inside both locks. */
  lemma InnerData(s: Machine, n: nat, t: nat, w: Wish)
    requires Inv(s, n) && Enabled(s, t) && HoldsSlots(s.pcs[t])
    ensures DataOk(Next(s, t, w), n)
  {
    assert s.triggerLock == Some(t);
    if s.pcs[t].Marked? { ScanData(s, n, t, w); }
  }

  lemma ScanData(s: Machine, n: nat, t: nat, w: Wish)
    requires Inv(s, n) && Enabled(s, t) && s.pcs[t].Marked? && s.triggerLock == Some(t)
    ensures DataOk(Next(s, t, w), n)
  {
    var i, slots := s.pcs[t].scanned, s.mem.slots;
    if i >= n {
      assert slots[..i] == slots;
    } else if slots[i] {
      assert slots[..i + 1] == slots[..i] + [slots[i]];
    } else {
      assert !AllSet(slots);
    }
  }

  /** The locking part of one statement: the outer lock ... */
  lemma TriggerLockOk(s: Machine, n: nat, t: nat, w: Wish)
    requires Inv(s, n) && Enabled(s, t)
    ensures var s' := Next(s, t, w);
            forall i | 0 <= i < |s'.pcs| :: Inside(s'.pcs[i]) <==> s'.triggerLock == Some(i)
  {
    assert s.pcs[t].Out? || s.triggerLock == Some(t);
  }

  /** ... and the inner one, which is only held together with the outer. */
  lemma SlotLockOk(s: Machine, n: nat, t: nat, w: Wish)
    requires Inv(s, n) && Enabled(s, t)
    ensures var s' := Next(s, t, w);
            && (forall i | 0 <= i < |s'.pcs| :: HoldsSlots(s'.pcs[i]) <==> s'.slotLock == Some(i))
            && (s'.slotLock.Some? ==> s'.triggerLock == s'.slotLock)
  {
    assert s.pcs[t].Out? || s.triggerLock == Some(t);
    assert s.slotLock.Some? ==> HoldsSlots(s.pcs[s.slotLock.value]);
  }

  lemma NextInv(s: Machine, n: nat, t: nat, w: Wish)
    requires Inv(s, n) && Enabled(s, t)
    ensures Inv(Next(s, t, w), n) && |Next(s, t, w).pcs| == |s.pcs|
  {
    if HoldsSlots(s.pcs[t]) { InnerData(s, n, t, w); } else { OuterData(s, n, t, w); }
    TriggerLockOk(s, n, t, w);
    SlotLockOk(s, n, t, w);
  }

  /** Under every schedule the critical sections behave as if each ran in one step, in order of release. */
  lemma {:induction false} Atomic(m: nat, n: nat, sched: seq<(nat, Wish)>)
    ensures Inv(Run(m, n, sched), n) && |Run(m, n, sched).pcs| == m
  {
    if sched == [] {
    } else {
      Atomic(m, n, sched[..|sched| - 1]);
      var s := Run(m, n, sched[..|sched| - 1]);
      var (t, w) := sched[|sched| - 1];
      if Enabled(s, t) { NextInv(s, n, t, w); }
    }
  }

  // ------------------------------------------------- what a section has done

  /** The memory when the outer lock was last free: what the section now open found. */
  ghost function Found(m: nat, n: nat, sched: seq<(nat, Wish)>): Shared {
    if sched == [] || Run(m, n, sched).triggerLock.None? then Run(m, n, sched).mem
    else Found(m, n, sched[..|sched| - 1])
  }

  lemma LockedLog(s: Machine, n: nat, t: nat, w: Wish)
    requires Inv(s, n) && Enabled(s, t) && Next(s, t, w).triggerLock.Some?
    ensures Next(s, t, w).log == s.log
  {
  }

  lemma {:induction false} FoundIs(m: nat, n: nat, sched: seq<(nat, Wish)>)
    ensures Found(m, n, sched) == DoAll(n, Run(m, n, sched).log)
  {
    Atomic(m, n, sched);
    if sched == [] || Run(m, n, sched).triggerLock.None? {
    } else {
      var sched0 := sched[..|sched| - 1];
      var (t, w) := sched[|sched| - 1];
      FoundIs(m, n, sched0);
      Atomic(m, n, sched0);
      if Enabled(Run(m, n, sched0), t) { LockedLog(Run(m, n, sched0), n, t, w); }
    }
  }

  /** Past its own slot a thread has it filled, or saw no trigger; only a rank without a slot dies. */
  ghost predicate SlotDone(s: Machine, t: nat)
    requires t < |s.pcs|
  {
    var filled := t < |s.mem.slots| && s.mem.slots[t];
    match s.pcs[t]
    case Marked(_) => filled
    case Clearing => filled
    case LeaveSlots => filled
    case LeaveTrigger => filled || !s.mem.trigger
    case Dead => t >= |s.mem.slots|
    case _ => true
  }

  lemma SlotDoneStep(s: Machine, n: nat, t: nat, w: Wish, k: nat)
    requires Inv(s, n) && Enabled(s, t) && k < |s.pcs| && SlotDone(s, k)
    ensures k < |Next(s, t, w).pcs| && SlotDone(Next(s, t, w), k)
  {
    assert s.pcs[t].Out? || s.triggerLock == Some(t);
    assert Inside(s.pcs[k]) ==> s.triggerLock == Some(k);
    assert Inside(s.pcs[k]) ==> k == t;
  }

  lemma {:induction false} SlotDoneAlways(m: nat, n: nat, sched: seq<(nat, Wish)>, k: nat)
    requires k < m
    ensures k < |Run(m, n, sched).pcs| && SlotDone(Run(m, n, sched), k)
  {
    if sched == [] {
    } else {
      var sched0 := sched[..|sched| - 1];
      var (t, w) := sched[|sched| - 1];
      SlotDoneAlways(m, n, sched0, k);
      Atomic(m, n, sched0);
      if Enabled(Run(m, n, sched0), t) { SlotDoneStep(Run(m, n, sched0), n, t, w, k); }
    }
  }

  /** The effect of the second section of rank `t`, from what it found to what it leaves. */
  ghost predicate SettleEffect(found: Shared, left: Shared, t: nat) {
    if found.trigger && t < |found.slots| == |found.ran| && !found.slots[t] then
      && left.slots == found.slots[t := true] && left.ran == found.ran[t := found.ran[t] + 1]
      && (if forall i | 0 <= i < |left.slots| :: left.slots[i]
          then !left.trigger && left.clears == found.clears + 1
          else left.trigger && left.clears == found.clears)
    else left == found
  }

  lemma DoEffect(s: Shared, r: nat)
    requires |s.ran| == |s.slots|
    ensures SettleEffect(s, Do(s, Settle(r)), r)
  {
  }

  /**
   Over every schedule, when a section is about to end: the first one has raised
   the trigger and done nothing else.  The second one, if it found the trigger
   raised, has its slot filled and its indication run once in all; it has done
   so itself exactly if the slot was empty, and has then lowered the trigger
   exactly if that was the last one.  A thread dies exactly of having no slot.
   */
  lemma {:induction false} SectionExact(m: nat, n: nat, sched: seq<(nat, Wish)>, t: nat)
    requires t < m
    ensures var s, found := Run(m, n, sched), Found(m, n, sched);
            && t < |s.pcs| && |s.mem.slots| == |s.mem.ran| == n
            && (s.pcs[t].Raised? ==> s.mem == found.(trigger := true))
            && (s.pcs[t].LeaveTrigger? ==> SettleEffect(found, s.mem, t))
            && (s.pcs[t].LeaveTrigger? && found.trigger ==> t < n && s.mem.slots[t] && s.mem.ran[t] == 1)
            && (s.pcs[t].Dead? ==> t >= n)
  {
    var s := Run(m, n, sched);
    Atomic(m, n, sched);
    FoundIs(m, n, sched);
    SlotDoneAlways(m, n, sched, t);
    DoAllSound(n, s.log);
    DoEffect(DoAll(n, s.log), t);
    DoSound(DoAll(n, s.log), Settle(t));
    assert Inside(s.pcs[t]) ==> s.triggerLock == Some(t);
  }

  /** As long as some thread is inside a section, some thread inside can take its next step. */
  lemma NoDeadlock(m: nat, n: nat, sched: seq<(nat, Wish)>)
    ensures var s := Run(m, n, sched);
            && |s.pcs| == m
            && (s.triggerLock.None? ==> forall t | 0 <= t < m && !s.pcs[t].Dead? :: Enabled(s, t))
            && (s.triggerLock.Some? ==> Enabled(s, s.triggerLock.value))
  {
    Atomic(m, n, sched);
  }

  // ------------------------------------------------------------------ safety

  /** Once per rank, lowered once, at every moment of every schedule. */
  lemma {:induction false} OncePerRank(m: nat, n: nat, sched: seq<(nat, Wish)>)
    ensures var s := Run(m, n, sched).mem;
            && (forall r | 0 <= r < |s.ran| :: s.ran[r] <= 1)
            && s.clears <= 1
            && (s.clears == 1 ==> AllSet(s.slots))
  {
    var s := Run(m, n, sched);
    Atomic(m, n, sched);
    DoAllSound(n, s.log);
    DoSound(DoAll(n, s.log), Raise);
    if s.triggerLock.Some? { DoSound(DoAll(n, s.log), Settle(s.triggerLock.value)); }
  }

  /** Slots are never emptied, and the trigger is lowered only while every slot is filled. */
  lemma SlotsGrow(m: nat, n: nat, sched: seq<(nat, Wish)>, t: nat, w: Wish)
    requires Enabled(Run(m, n, sched), t)
    ensures var s, s' := Run(m, n, sched).mem, Next(Run(m, n, sched), t, w).mem;
            && |s'.slots| == |s.slots|
            && (forall r | 0 <= r < |s.slots| :: s.slots[r] ==> s'.slots[r])
            && (s.trigger && !s'.trigger ==> AllSet(s.slots) && AllSet(s'.slots) && s.clears == 0)
  {
    var s := Run(m, n, sched);
    Atomic(m, n, sched);
    DoAllSound(n, s.log);
    assert s.pcs[t].Clearing? ==> s.triggerLock == Some(t);
  }

  lemma WritesOwnSlot(s: Machine, t: nat, w: Wish, r: nat)
    requires Enabled(s, t) && |s.mem.ran| == |s.mem.slots| && |s.pcs| <= r < |s.mem.slots|
    ensures var s' := Next(s, t, w); |s'.mem.slots| == |s.mem.slots| && s'.mem.slots[r] == s.mem.slots[r]
  {
  }

  /** No slot beyond the number of threads is ever filled. */
  lemma {:induction false} SpareSlot(m: nat, n: nat, sched: seq<(nat, Wish)>, r: nat)
    requires m <= r < n
    ensures var s := Run(m, n, sched); |s.mem.slots| == n && !s.mem.slots[r]
  {
    if sched == [] {
    } else {
      var s0 := Run(m, n, sched[..|sched| - 1]);
      var (t, w) := sched[|sched| - 1];
      SpareSlot(m, n, sched[..|sched| - 1], r);
      Atomic(m, n, sched[..|sched| - 1]);
      if Enabled(s0, t) { WritesOwnSlot(s0, t, w, r); }
    }
  }

  /** With fewer threads than slots a raised trigger stays raised, whatever happens next. */
  lemma {:induction false} NeverLowered(m: nat, n: nat, sched: seq<(nat, Wish)>, more: seq<(nat, Wish)>)
    requires m < n && Run(m, n, sched).mem.trigger
    ensures Run(m, n, sched + more).mem.trigger
  {
    if more == [] {
      assert sched + more == sched;
    } else {
      var k, all := |more| - 1, sched + more;
      var all0 := sched + more[..k];
      assert all[..|all| - 1] == all0 && all[|all| - 1] == more[k];
      NeverLowered(m, n, sched, more[..k]);
      if Enabled(Run(m, n, all0), more[k].0) { KeepsRaised(m, n, all0, more[k].0, more[k].1); }
    }
  }

  lemma {:induction false} KeepsRaised(m: nat, n: nat, sched: seq<(nat, Wish)>, t: nat, w: Wish)
    requires m < n && Run(m, n, sched).mem.trigger && Enabled(Run(m, n, sched), t)
    ensures Next(Run(m, n, sched), t, w).mem.trigger
  {
    SpareSlot(m, n, sched, m);
    SlotsGrow(m, n, sched, t, w);
    assert !Run(m, n, sched).mem.slots[m];
  }

  /** As shipped, with twelve slots and four threads, the first alarm is for ever. */
  lemma Shipped(sched: seq<(nat, Wish)>, more: seq<(nat, Wish)>)
    requires Run(THREADS, SLOTS, sched).mem.trigger
    ensures Run(THREADS, SLOTS, sched + more).mem.trigger
  {
    NeverLowered(THREADS, SLOTS, sched, more);
  }

  // ------------------------------------------------------- it can be lowered

  /** Raise, then every rank in turn. */
  function Round(k: nat): seq<Action> {
    if k == 0 then [Raise] else Round(k - 1) + [Settle(k - 1)]
  }

  ghost predicate FilledUpTo(s: Shared, k: nat) {
    s.trigger && s.clears == 0 && forall r | 0 <= r < |s.slots| :: s.slots[r] == (r < k)
  }

  lemma FillNext(s: Shared, k: nat)
    requires |s.ran| == |s.slots| && FilledUpTo(s, k) && k + 1 < |s.slots|
    ensures FilledUpTo(Do(s, Settle(k)), k + 1)
  {
    assert !Filled(s, k).slots[k + 1];
  }

  lemma RoundZero(n: nat)
    ensures FilledUpTo(DoAll(n, Round(0)), 0)
  {
    assert Round(0)[..0] == [];
    assert DoAll(n, []) == Empty(n);
  }

  lemma {:induction false} RoundFills(n: nat, k: nat)
    requires k < n
    ensures FilledUpTo(DoAll(n, Round(k)), k)
  {
    if k == 0 {
      RoundZero(n);
    } else {
      RoundFills(n, k - 1);
      var s := DoAll(n, Round(k - 1));
      assert DoAll(n, Round(k)) == Do(s, Settle(k - 1)) by { LogSnoc(n, Round(k - 1), Settle(k - 1)); }
      FillNext(s, k - 1);
    }
  }

  lemma RoundLowers(n: nat)
    requires n > 0
    ensures DoAll(n, Round(n)).clears == 1 && !DoAll(n, Round(n)).trigger
  {
    RoundFills(n, n - 1);
    LogSnoc(n, Round(n - 1), Settle(n - 1));
    assert AllSet(Filled(DoAll(n, Round(n - 1)), n - 1).slots);
  }

  predicate Settling(pc: PC) { Inside(pc) && !pc.InRaise? && !pc.Raised? }

  /** Statements left in the second section, at most. */
  function Left(pc: PC, n: nat): nat {
    match pc
    case InSettle => n + 7
    case WantSlots => n + 6
    case InSlots => n + 5
    case Computed => n + 4
    case Marked(i) => if i <= n then n - i + 3 else 3
    case Clearing => 2
    case LeaveSlots => 1
    case _ => 0
  }

  lemma RunSnoc(m: nat, n: nat, sched: seq<(nat, Wish)>, t: nat, w: Wish)
    requires Enabled(Run(m, n, sched), t)
    ensures Run(m, n, sched + [(t, w)]) == Next(Run(m, n, sched), t, w)
  {
    assert (sched + [(t, w)])[..|sched|] == sched;
  }

  ghost predicate Nearer(s: Machine, s': Machine, n: nat, t: nat) {
    && t < |s.pcs| && |s'.pcs| == |s.pcs|
    && Settling(s'.pcs[t]) && Left(s'.pcs[t], n) < Left(s.pcs[t], n)
    && s'.pcs == s.pcs[t := s'.pcs[t]] && s'.log == s.log
  }

  lemma InnerNearer(s: Machine, n: nat, t: nat, w: Wish)
    requires Inv(s, n) && t < |s.pcs| && t < n && HoldsSlots(s.pcs[t]) && s.triggerLock == Some(t)
    ensures Nearer(s, Next(s, t, w), n, t)
  {
  }

  lemma SettleStep(s: Machine, n: nat, t: nat, w: Wish)
    requires Inv(s, n) && t < |s.pcs| && t < n && Settling(s.pcs[t]) && !s.pcs[t].LeaveTrigger?
    ensures Enabled(s, t) && Nearer(s, Next(s, t, w), n, t)
  {
    assert s.triggerLock == Some(t);
    if HoldsSlots(s.pcs[t]) { InnerNearer(s, n, t, w); }
  }

  /** A thread in the second section, scheduled alone, completes it. */
  lemma {:induction false} Finish(m: nat, n: nat, sched: seq<(nat, Wish)>, t: nat) returns (done: seq<(nat, Wish)>)
    requires t < m && t < n && t < |Run(m, n, sched).pcs| && Settling(Run(m, n, sched).pcs[t])
    ensures var s, s' := Run(m, n, sched), Run(m, n, done);
            s'.pcs == s.pcs[t := Out] && s'.log == s.log + [Settle(t)]
    decreases Left(Run(m, n, sched).pcs[t], n)
  {
    var s := Run(m, n, sched);
    Atomic(m, n, sched);
    var next := sched + [(t, WishSettle)];
    if s.pcs[t].LeaveTrigger? {
      RunSnoc(m, n, sched, t, WishSettle);
      done := next;
    } else {
      SettleStep(s, n, t, WishSettle);
      RunSnoc(m, n, sched, t, WishSettle);
      done := Finish(m, n, next, t);
    }
  }

  ghost predicate Idle(s: Machine, m: nat) { |s.pcs| == m && forall t | 0 <= t < m :: s.pcs[t] == Out }

  /** A schedule whose completed sections are exactly the first `k` of the round. */
  lemma {:induction false} Play(m: nat, n: nat, k: nat) returns (sched: seq<(nat, Wish)>)
    requires 0 < n <= m && k <= n
    ensures Idle(Run(m, n, sched), m) && Run(m, n, sched).log == Round(k)
  {
    if k == 0 {
      sched := PlayRaise(m, n);
    } else {
      var before := Play(m, n, k - 1);
      Atomic(m, n, before);
      RunSnoc(m, n, before, k - 1, WishSettle);
      sched := Finish(m, n, before + [(k - 1, WishSettle)], k - 1);
    }
  }

  lemma RaiseSection(s: Machine, t: nat)
    requires t < |s.pcs| && s.pcs[t].Out? && s.triggerLock.None? && |s.mem.ran| == |s.mem.slots|
    ensures var s1 := Next(s, t, WishRaise);
            && Enabled(s1, t) && Enabled(Next(s1, t, WishRaise), t)
            && var s3 := Next(Next(s1, t, WishRaise), t, WishRaise);
               s3.pcs == s.pcs && s3.log == s.log + [Raise]
  {
  }

  lemma PlayRaise(m: nat, n: nat) returns (sched: seq<(nat, Wish)>)
    requires m > 0
    ensures Idle(Run(m, n, sched), m) && Run(m, n, sched).log == [Raise]
  {
    var none, x := [], (0, WishRaise);
    RaiseSection(Boot(m, n), 0);
    assert Run(m, n, none) == Boot(m, n);
    RunSnoc(m, n, none, 0, WishRaise);
    RunSnoc(m, n, none + [x], 0, WishRaise);
    sched := none + [x] + [x] + [x];
    RunSnoc(m, n, none + [x] + [x], 0, WishRaise);
  }

  lemma IdleIsUnlocked(s: Machine, m: nat, n: nat)
    requires Inv(s, n) && Idle(s, m)
    ensures s.triggerLock.None?
  {
  }

  /** The trigger can ever be lowered exactly if there are slots and a thread for each of them. */
  lemma LoweredIff(m: nat, n: nat)
    ensures (exists sched :: Run(m, n, sched).mem.clears > 0) <==> 0 < n <= m
  {
    if 0 < n <= m {
      var sched := Play(m, n, n);
      Atomic(m, n, sched);
      RoundLowers(n);
      IdleIsUnlocked(Run(m, n, sched), m, n);
      assert Run(m, n, sched).mem.clears > 0;
    } else {
      forall sched ensures Run(m, n, sched).mem.clears == 0 { NotCleared(m, n, sched); }
    }
  }

  lemma {:induction false} NotCleared(m: nat, n: nat, sched: seq<(nat, Wish)>)
    requires !(0 < n <= m)
    ensures Run(m, n, sched).mem.clears == 0
  {
    OncePerRank(m, n, sched);
    Atomic(m, n, sched);
    if n > 0 {
      SpareSlot(m, n, sched, m);
    } else {
      NoSlots(m, sched);
    }
  }

  lemma {:induction false} NoSlots(m: nat, sched: seq<(nat, Wish)>)
    ensures Run(m, 0, sched).mem.clears == 0
  {
    if sched == [] {
    } else {
      NoSlots(m, sched[..|sched| - 1]);
      Atomic(m, 0, sched[..|sched| - 1]);
      var s := Run(m, 0, sched[..|sched| - 1]);
      var (t, _) := sched[|sched| - 1];
      assert t < |s.pcs| && s.pcs[t].Clearing? ==> s.triggerLock == Some(t);
    }
  }
}
