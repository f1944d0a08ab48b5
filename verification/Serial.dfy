/**
 When an operation that was begun on one state of a user and finished on
 another comes out as if it had run in one piece.
 */
module Serial {
  import opened UserModel

  /** What only the holder of the user's lock may change. */
  datatype Hour = Hour(timeRecord: int, plan: seq<real>, stageMoney: int, stageTotal: real, stage: seq<Record>)

  function Guarded(u: User): Hour { Hour(u.timeRecord, u.plan, u.stageMoney, u.stageTotal, u.stage) }

  /** The user `b`, but with the guarded fields of `g`. */
  function Over(b: User, g: Hour): User {
    b.(timeRecord := g.timeRecord, plan := g.plan, stageMoney := g.stageMoney, stageTotal := g.stageTotal,
       stage := g.stage)
  }

  /** A request that came last, on `base`, would open the hour `hour`. */
  ghost predicate SameHour(hour: Hour, base: User) { !Stuck(base) && Guarded(Opened(base)) == hour }

  lemma SameHourOpened(hour: Hour, base: User)
    requires SameHour(hour, base)
    ensures Over(base, hour) == Opened(base)
  {
  }

  /** Handling the same reply keeps two different hours different. */
  lemma HandledGuard(u: User, v: User, reply: Reply)
    ensures Handled(u, reply) == Handled(v, reply) ==> Guarded(u) == Guarded(v)
  {
    if !Silent(reply) && Handled(u, reply) == Handled(v, reply) {
      var a, b := StampHour(Runs(reply), u.timePast + STEP), StampHour(Runs(reply), v.timePast + STEP);
      assert |a| == |b|;
      assert u.stage == (u.stage + a)[..|u.stage|] && v.stage == (v.stage + b)[..|v.stage|];
    }
  }

  /** Handling a reply in the hour `hour` on top of `base` is a whole request on `base` exactly in its own hour. */
  lemma HandledSerial(base: User, hour: Hour, reply: Reply)
    requires !Closed(Over(base, hour))
    ensures Handled(Over(base, hour), reply) == Requested(base, reply) <==>
            SameHour(hour, base) || (Silent(reply) && Stuck(base) && hour == Guarded(base.(stageMoney := 0)))
  {
    var u := Over(base, hour);
    if SameHour(hour, base) {
      SameHourOpened(hour, base);
    } else if !Silent(reply) {
      assert Handled(u, reply).timePast == base.timePast + STEP;
      if Consults(base) { HandledGuard(u, Opened(base), reply); }
    }
  }

  /** So is leaving at a closed gate. */
  lemma AdvanceSerial(base: User, hour: Hour)
    requires Closed(Over(base, hour))
    ensures (forall reply :: Advance(Over(base, hour)) == Requested(base, reply)) <==> SameHour(hour, base)
  {
    if SameHour(hour, base) {
      SameHourOpened(hour, base);
    } else {
      assert Advance(Over(base, hour)) != Requested(base, Unparseable);
    }
  }

  /** So is dying on an empty plan. */
  lemma StuckSerial(base: User)
    requires base.plan == []
    ensures (forall reply :: base.(stageMoney := 0) == Requested(base, reply)) <==> Stuck(base)
  {
    if !Stuck(base) { assert Requested(base, Short).timePast == base.timePast + STEP; }
  }

  /**
   One reset between gate and reply: the outcome is that of one of the two
   sequential orders exactly if there was no answer to apply, or the hour after
   the reset is the hour that was open.
   */
  lemma ResetRaceIff(u: User, reply: Reply)
    requires Consults(u)
    ensures var raced := Handled(WasReset(Opened(u)), reply);
            raced == Requested(WasReset(u), reply) || raced == WasReset(Requested(u, reply)) <==>
            Silent(reply) || SameHour(Guarded(Opened(u)), WasReset(u))
  {
    var raced := Handled(WasReset(Opened(u)), reply);
    if Silent(reply) {
    } else {
      assert WasReset(Opened(u)) == Over(WasReset(u), Guarded(Opened(u)));
      HandledSerial(WasReset(u), Guarded(Opened(u)), reply);
      assert raced.timePast == STEP && WasReset(Requested(u, reply)).timePast == 0;
    }
  }

  /** One report between gate and reply is as if it had come first. */
  lemma ReportFirst(u: User, group: int, rank: int, carry: int, reply: Reply)
    requires Consults(u)
    ensures Handled(Reported(Opened(u), group, rank, carry), reply) == Requested(Reported(u, group, rank, carry), reply)
  {
    var v := Reported(u, group, rank, carry);
    assert Boundary(v) == Boundary(u) && Reported(Opened(u), group, rank, carry) == Opened(v);
  }
}
