/** The controller driving the simulator. Under cansim the control thread alternates: a read
    of the simulator, handle_secu_stat, one turn of the control loop, all in one go; sends
    reach the simulator at once and succeed. */
module ClosedLoop {
  import opened CanBus
  import opened SeatController
  import opened ControllerRun
  import E = SeatEngine

  datatype World = World(s: Session, e: E.Engine)

  datatype Act = Cycle(now: int) | Request(position: int) | Resume(now: int) | Halt

  function Begin(config: Config, engine: E.Engine): World {
    World(ControllerRun.Next(ControllerRun.Start(config, true), Open), engine)
  }

  /** The engine after receiving `cs` in order. */
  function WriteAll(e: E.Engine, cs: seq<Command>): E.Engine {
    if cs == [] then e else E.Write(WriteAll(e, cs[..|cs| - 1]), cs[|cs| - 1])
  }

  /** The engine as the controller finds it when it acts: a cycle starts with a read. */
  function Seen(w: World, a: Act): E.Engine {
    if a.Cycle? then E.Read(w.e) else w.e
  }

  function AsEvent(w: World, a: Act): Event {
    match a
    case Cycle(now) => FrameIn(E.Report(E.Read(w.e)), now)
    case Request(position) => Call(position)
    case Resume(now) => Wake(now, true)
    case Halt => StopRequest
  }

  function Step(w: World, a: Act): World {
    var s' := if a.Cycle? then WholeFrame(w.s, E.Report(E.Read(w.e)), a.now) else ControllerRun.Next(w.s, AsEvent(w, a));
    World(s', WriteAll(Seen(w, a), s'.tx[|w.s.tx|..]))
  }

  predicate Follows(w: World, a: Act, w': World) {
    Enabled(w.s, AsEvent(w, a)) && w' == Step(w, a)
  }

  /** Raw units per read that the configured rpm buys on this engine. */
  function StepSize(c: Context, e: E.Engine): int {
    E.PosIncrement(true, e.delay, c.config.motorRpm % 256)
  }

  /** How far the reported position lies beyond the target, in the direction of travel;
      negative while the target is still ahead. */
  function Past(c: Context): int {
    if c.desiredDir == INC then c.motorPos - c.desiredPos else c.desiredPos - c.motorPos
  }

  /** ceil(s / 1024) - 1: the percent that a step of `s` raw units may carry past a target. */
  function Overshoot(s: int): int {
    (s - 1) / E.POS_SHIFT_VAL
  }

  function Signed(dir: Direction, s: int): int { if dir == DEC then -s else s }

  /** The motor is being driven the way the command wants. */
  predicate Driven(c: Context, e: E.Engine) {
    e.status == c.desiredDir && e.inc == Signed(c.desiredDir, StepSize(c, e))
  }

  /** Holds for every step size: the two components agree on the position, an idle controller
      has a motor that is off, and an active command is either driven and short of its target
      or has a motor that is off within the overshoot bound. */
  predicate Coupled(c: Context, e: E.Engine) {
    && E.Inv(e)
    && c.socketOpen && e.started
    && (Idle(c) || Active(c))
    && (c.motorPos != MOTOR_POS_INVALID ==> E.InRange(e.pos) && c.motorPos == E.PosPercent(e.pos))
    && (Idle(c) ==> e.status == OFF)
    && (Active(c) ==>
          && c.motorPos != MOTOR_POS_INVALID
          && Past(c) <= Overshoot(StepSize(c, e)) && Past(c) != 0
          && (e.status != OFF ==> Driven(c, e) && Past(c) < 0))
  }

  lemma {:induction false} AfterWrites(e: E.Engine, cs: seq<Command>)
    requires E.Inv(e)
    ensures var r := WriteAll(e, cs);
            && E.Inv(r)
            && r == e.(status := r.status, rpm := r.rpm, inc := r.inc)
            && (cs != [] && e.started ==>
                  var c := cs[|cs| - 1];
                  && (c.dir == OFF ==> r.status == OFF)
                  && (c.dir == INC && c.rpm > 0 ==> r.status == INC && r.inc == E.PosIncrement(true, e.delay, c.rpm))
                  && (c.dir == DEC && c.rpm > 0 ==> r.status == DEC && r.inc == -E.PosIncrement(true, e.delay, c.rpm)))
  {
    if cs != [] {
      AfterWrites(e, cs[..|cs| - 1]);
    }
  }

  lemma TravelKeeps(e: E.Engine)
    requires E.Inv(e)
    ensures var r := E.Travelled(e);
            && r == e.(pos := r.pos, status := r.status, hiStop := r.hiStop, loStop := r.loStop)
            && (r.status == e.status || r.status == OFF)
            && (r.pos == e.pos || (e.status != OFF && r.pos == e.pos + e.inc))
            && (e.status == OFF ==> r == e)
  {
    match e.status
    case INC =>
    case DEC =>
    case OFF =>
    case INV =>
  }

  lemma ReadKeeps(e: E.Engine)
    requires E.Inv(e) && e.started
    ensures var r := E.Read(e);
            && E.Inv(r) && E.InRange(r.pos)
            && r == e.(pos := r.pos, status := r.status, hiStop := r.hiStop, loStop := r.loStop)
            && (r.status == e.status || r.status == OFF)
            && (E.InRange(e.pos) ==> r.pos == e.pos || (e.status != OFF && r.pos == e.pos + e.inc))
            && (e.status == OFF && E.InRange(e.pos) ==> r == E.Rearmed(e))
  {
    var m := E.Rearmed(E.Calibrated(e));
    assert m == e.(pos := m.pos, hiStop := m.hiStop, loStop := m.loStop);
    E.TravelKeepsInv(m);
    TravelKeeps(m);
  }

  /** The controller's context once it has taken over the engine's report. */
  function Heard(c: Context, r: E.Engine): Context {
    HandleStat(c, E.Report(r))
  }

  lemma HeardReport(c: Context, r: E.Engine)
    requires E.InRange(r.pos)
    ensures HandleRc(E.Report(r)) == Ok
    ensures E.PosPercent(r.pos) <= 100
    ensures Heard(c, r) == c.(motorPos := E.PosPercent(r.pos), motorMov := r.status, learning := r.learning % 4)
  {}

  datatype Plant = Plant(c: Context, e: E.Engine)

  /** The controller acts on what it has heard and the engine receives what it sends. */
  function Reaction(h: Context, r: E.Engine, now: int): Plant {
    var o := ControlLoop(h, now);
    Plant(o.ctx, WriteAll(r, o.tx))
  }

  /** One cycle on the two components: the engine moves, the controller hears of it and acts. */
  function Turn(c: Context, e: E.Engine, now: int): Plant {
    Reaction(Heard(c, E.Read(e)), E.Read(e), now)
  }

  lemma CycleIsTurn(w: World, now: int)
    requires w.s.loop.Awake? && E.InRange(E.Read(w.e).pos)
    ensures var w' := Step(w, Cycle(now)); Plant(w'.s.ctx, w'.e) == Turn(w.s.ctx, w.e, now)
  {
    var r := E.Read(w.e);
    HeardReport(w.s.ctx, r);
    WholeFrameIs(w.s, E.Report(r), now);
    var tx := ControlLoop(Heard(w.s.ctx, r), now).tx;
    assert (w.s.tx + tx)[|w.s.tx|..] == tx;
  }

  /** The components right after the controller has heard a report: agreed, but the command
      may have reached its target. */
  predicate Agreed(h: Context, r: E.Engine) {
    && E.Inv(r) && E.InRange(r.pos)
    && h.socketOpen && r.started
    && (Idle(h) || Active(h))
    && h.motorPos == E.PosPercent(r.pos) && h.motorMov == r.status
    && (Idle(h) ==> r.status == OFF)
    && (Active(h) ==> Past(h) <= Overshoot(StepSize(h, r)) && (r.status == OFF || Driven(h, r)))
  }

  /** One step up from below a target, or down from above it, passes it by the overshoot at most. */
  lemma StepPast(raw: int, raw': int, target: Percent, s: int)
    requires s >= 1 && E.InRange(raw) && E.InRange(raw')
    ensures E.PosPercent(raw) < target && raw' <= raw + s ==> E.PosPercent(raw') - target <= Overshoot(s)
    ensures E.PosPercent(raw) > target && raw' >= raw - s ==> target - E.PosPercent(raw') <= Overshoot(s)
  {}

  lemma HearingAgrees(c: Context, e: E.Engine)
    requires Coupled(c, e) && StepSize(c, e) >= 1
    ensures Agreed(Heard(c, E.Read(e)), E.Read(e))
  {
    var r := E.Read(e);
    ReadKeeps(e);
    HeardReport(c, r);
    if Active(c) {
      StepPast(e.pos, r.pos, c.desiredPos, StepSize(c, e));
    }
  }

  /** Hearing changes neither the command nor the step size. */
  lemma HeardKeeps(c: Context, e: E.Engine)
    requires Coupled(c, e)
    ensures var h, r := Heard(c, E.Read(e)), E.Read(e);
            && SameCommand(c, h) && h.config == c.config && StepSize(h, r) == StepSize(c, e)
            && (Active(h) <==> Active(c)) && (Idle(h) <==> Idle(c))
  {
    ReadKeeps(e);
    HeardReport(c, E.Read(e));
  }

  /** The turn of the control loop on an active command that is neither waiting nor over. */
  lemma ContinueKeepsCoupled(h: Context, r: E.Engine, now: int)
    requires Agreed(h, r) && Active(h) && StepSize(h, r) >= 1
    requires !StartupWait(h, now - h.commandTs) && !Reached(h) && now - h.commandTs <= h.config.commandTimeout
    ensures Coupled(ControlLoop(h, now).ctx, WriteAll(r, Resent(h))) && ControlLoop(h, now).tx == Resent(h)
    ensures NeedsResend(h) ==> Driven(h, WriteAll(r, Resent(h)))
  {
    AfterWrites(r, Resent(h));
    assert NeedsResend(h) ==> Resent(h)[|Resent(h)| - 1] == Command(h.desiredDir, h.config.motorRpm % 256);
  }

  lemma FinishKeepsCoupled(h: Context, r: E.Engine, now: int)
    requires Agreed(h, r) && Active(h)
    requires !StartupWait(h, now - h.commandTs) && (Reached(h) || now - h.commandTs > h.config.commandTimeout)
    ensures var p := Reaction(h, r, now);
            && Coupled(p.c, p.e) && Idle(p.c)
            && p.c.lastCtlPos == MOTOR_POS_INVALID && p.c.lastCtlDir == OFF
  {
    var o := ControlLoop(h, now);
    assert EndsOff(o.tx);
    AfterWrites(r, o.tx);
  }

  lemma ReactionKeepsCoupled(h: Context, r: E.Engine, now: int)
    requires Agreed(h, r) && StepSize(h, r) >= 1
    ensures var p := Reaction(h, r, now); Coupled(p.c, p.e)
  {
    if Active(h) && !StartupWait(h, now - h.commandTs) {
      if Reached(h) || now - h.commandTs > h.config.commandTimeout {
        FinishKeepsCoupled(h, r, now);
      } else {
        ContinueKeepsCoupled(h, r, now);
      }
    }
  }

  predicate SameCommand(c: Context, c': Context) {
    c'.commandTs == c.commandTs && c'.desiredDir == c.desiredDir && c'.desiredPos == c.desiredPos
  }

  /** Acting moves neither the motor nor the reported position, and starts no command. */
  lemma ReactionKeepsPosition(h: Context, r: E.Engine, now: int)
    requires Agreed(h, r)
    ensures var p := Reaction(h, r, now);
            && p.e.pos == r.pos && p.c.motorPos == h.motorPos
            && StepSize(p.c, p.e) == StepSize(h, r)
            && (Active(p.c) ==> Active(h) && SameCommand(h, p.c))
  {
    AfterWrites(r, ControlLoop(h, now).tx);
    LoopKeepsReport(h, now);
  }

  lemma LoopKeepsReport(h: Context, now: int)
    requires Idle(h) || Active(h)
    ensures var c := ControlLoop(h, now).ctx;
            c.motorPos == h.motorPos && c.config == h.config && (Active(c) ==> Active(h) && SameCommand(h, c))
  {}

  lemma TurnOvershoot(c: Context, e: E.Engine, now: int)
    requires Coupled(c, e) && StepSize(c, e) >= 1 && Active(c)
    ensures var p := Turn(c, e, now);
            && p.c.motorPos == E.PosPercent(p.e.pos)
            && (c.desiredDir == INC ==> p.c.motorPos - c.desiredPos <= Overshoot(StepSize(c, e)))
            && (c.desiredDir == DEC ==> c.desiredPos - p.c.motorPos <= Overshoot(StepSize(c, e)))
  {
    var r := E.Read(e);
    var h := Heard(c, r);
    HearingAgrees(c, e);
    HeardKeeps(c, e);
    ReactionKeepsPosition(h, r, now);
  }

  // ----- steps of at most one percent: recovery from threshold stops -----

  /** The motor sits beyond a threshold that has already stopped it once. */
  predicate PastThreshold(e: E.Engine) {
    && e.thresholds
    && ((e.hiStop && E.PosPercent(e.pos) >= E.HI_THRESHOLD) || (e.loStop && E.PosPercent(e.pos) <= E.LO_THRESHOLD))
  }

  /** The report the loop would ignore as already seen is the one it just got. */
  predicate Masked(c: Context) {
    c.lastCtlDir == OFF && c.lastCtlPos == c.motorPos
  }

  /** A remembered OFF report is about the current position, whose threshold is spent; and a
      motor that went off under an active command did so at a threshold the loop has yet to
      react to. */
  predicate Recoverable(c: Context, e: E.Engine) {
    && (c.lastCtlDir == OFF && c.lastCtlPos != MOTOR_POS_INVALID ==>
          c.lastCtlPos == E.PosPercent(e.pos) && PastThreshold(e))
    && (Active(c) && e.status == OFF ==> PastThreshold(e) && !Masked(c))
  }

  /** The same between hearing a report and acting on it: a motor seen moving will be
      remembered as moving. */
  predicate Attentive(h: Context, r: E.Engine) {
    r.status == OFF ==> Recoverable(h, r)
  }

  /** A driven motor short of its target travels a whole step, and if a threshold stops it
      there, that threshold was armed. */
  lemma DrivenRead(c: Context, e: E.Engine)
    requires Coupled(c, e) && Active(c) && Driven(c, e) && e.status != OFF && 1 <= StepSize(c, e) <= 1024
    ensures var r := E.Read(e);
            && r.pos == e.pos + e.inc
            && (r.status == OFF ==>
                  && r.thresholds
                  && (e.status == INC ==> r.hiStop && E.PosPercent(r.pos) >= E.HI_THRESHOLD && !E.Rearmed(e).hiStop)
                  && (e.status == DEC ==> r.loStop && E.PosPercent(r.pos) <= E.LO_THRESHOLD && !E.Rearmed(e).loStop))
  {
    assert e.status == INC ==> e.pos < E.PosRaw(100);
    assert e.status == DEC ==> e.pos >= E.PosRaw(1);
  }

  lemma HearingIsAttentive(c: Context, e: E.Engine)
    requires Coupled(c, e) && Recoverable(c, e) && 1 <= StepSize(c, e) <= 1024
    ensures Attentive(Heard(c, E.Read(e)), E.Read(e))
  {
    var r := E.Read(e);
    ReadKeeps(e);
    HeardReport(c, r);
    if Active(c) && e.status != OFF {
      DrivenRead(c, e);
    }
  }

  lemma ContinueKeepsRecoverable(h: Context, r: E.Engine, now: int)
    requires Agreed(h, r) && Attentive(h, r) && Active(h) && StepSize(h, r) >= 1
    requires !StartupWait(h, now - h.commandTs) && !Reached(h) && now - h.commandTs <= h.config.commandTimeout
    ensures var p := Reaction(h, r, now); Recoverable(p.c, p.e)
  {
    ContinueKeepsCoupled(h, r, now);
    AfterWrites(r, Resent(h));
  }

  lemma ReactionKeepsRecoverable(h: Context, r: E.Engine, now: int)
    requires Agreed(h, r) && Attentive(h, r) && StepSize(h, r) >= 1
    ensures var p := Reaction(h, r, now); Recoverable(p.c, p.e)
  {
    if !Active(h) || StartupWait(h, now - h.commandTs) {
      assert Reaction(h, r, now) == Plant(h, r);
    } else if Reached(h) || now - h.commandTs > h.config.commandTimeout {
      FinishKeepsCoupled(h, r, now);
    } else {
      ContinueKeepsRecoverable(h, r, now);
    }
  }

  lemma TurnKeeps(c: Context, e: E.Engine, now: int)
    requires Coupled(c, e) && StepSize(c, e) >= 1
    ensures var p := Turn(c, e, now);
            && Coupled(p.c, p.e) && StepSize(p.c, p.e) == StepSize(c, e) && p.c.motorPos != MOTOR_POS_INVALID
            && (StepSize(c, e) <= 1024 && Recoverable(c, e) ==> Recoverable(p.c, p.e))
  {
    var r := E.Read(e);
    var h := Heard(c, r);
    HearingAgrees(c, e);
    HeardKeeps(c, e);
    ReactionKeepsCoupled(h, r, now);
    ReactionKeepsPosition(h, r, now);
    if StepSize(c, e) <= 1024 && Recoverable(c, e) {
      HearingIsAttentive(c, e);
      ReactionKeepsRecoverable(h, r, now);
    }
  }

  // ----- the measure -----

  /** Raw units still to travel until the reported percent equals the target. */
  function Distance(c: Context, e: E.Engine): int {
    if c.desiredDir == INC then E.PosRaw(c.desiredPos) - e.pos else e.pos - (E.PosRaw(c.desiredPos + 1) - 1)
  }

  /** Steps of size `s` that cover `d`. */
  function Moves(d: int, s: int): nat
    requires s >= 1
    decreases if d < 0 then 0 else d
  {
    if d <= 0 then 0 else 1 + Moves(d - s, s)
  }

  /** Moves is the ceiling of d / s: that many steps suffice and one fewer does not. */
  lemma {:induction false} MovesIsCeiling(d: int, s: int)
    requires s >= 1
    ensures Moves(d, s) * s >= d
    ensures d > 0 ==> (Moves(d, s) - 1) * s < d
    decreases if d < 0 then 0 else d
  {
    if d > 0 {
      MovesIsCeiling(d - s, s);
      var m := Moves(d - s, s);
      assert (1 + m) * s == s + m * s;
      assert m * s == s + (m - 1) * s;
    }
  }

  /** Control-loop turns that the command still needs, start-up waits apart. */
  function Remaining(c: Context, e: E.Engine): nat
    requires StepSize(c, e) >= 1
  {
    if !Active(c) then 0
    else Moves(Distance(c, e), StepSize(c, e)) + if e.status == OFF then 1 else 0
  }

  predicate Counts(c: Context, e: E.Engine, now: int) {
    Active(c) && !StartupWait(Heard(c, E.Read(e)), now - c.commandTs)
  }

  /** What becomes of an active command within its time limit: it ends exactly if the target is
      reported, and otherwise its motor is driven, unless this is a start-up wait. */
  lemma ReactionOutcome(h: Context, r: E.Engine, now: int)
    requires Agreed(h, r) && Attentive(h, r) && StepSize(h, r) >= 1
    requires Active(h) && Past(h) <= 0 && now - h.commandTs <= h.config.commandTimeout
    ensures var p := Reaction(h, r, now);
            && (Active(p.c) <==> Past(h) < 0)
            && (!Active(p.c) ==> Idle(p.c) && !StartupWait(h, now - h.commandTs))
            && (Active(p.c) ==> if StartupWait(h, now - h.commandTs) then p.e.status == OFF else p.e.status != OFF)
  {
    if !StartupWait(h, now - h.commandTs) {
      if Reached(h) {
        FinishKeepsCoupled(h, r, now);
      } else {
        ContinueKeepsCoupled(h, r, now);
      }
    }
  }

  lemma PastIsDistance(c: Context, e: E.Engine)
    requires c.motorPos == E.PosPercent(e.pos)
    ensures Past(c) < 0 <==> Distance(c, e) > 0
  {}

  /** The measure before and after, from what happened to the motor. */
  lemma RemainingStep(c: Context, e: E.Engine, c': Context, e': E.Engine, counts: bool)
    requires StepSize(c, e) >= 1 && StepSize(c', e') == StepSize(c, e)
    requires Active(c) && Distance(c, e) > 0
    requires Distance(c, e') == Distance(c, e) - if e.status == OFF then 0 else StepSize(c, e)
    requires Active(c') <==> Distance(c, e') > 0
    requires Active(c') ==> SameCommand(c, c') && (counts <==> e'.status != OFF)
    requires !Active(c') ==> counts
    ensures Remaining(c', e') == Remaining(c, e) - (if counts then 1 else 0)
    ensures Active(c') <==> Remaining(c', e') > 0
  {
    var d, s := Distance(c, e), StepSize(c, e);
    assert Moves(d, s) == 1 + Moves(d - s, s);
  }

  /** A turn on a command within its time limit takes one off the measure, unless it is a
      start-up wait; the measure is positive exactly while the command lasts. */
  lemma TurnProgress(c: Context, e: E.Engine, now: int)
    requires Coupled(c, e) && Recoverable(c, e) && 1 <= StepSize(c, e) <= 1024
    requires Active(c) && now - c.commandTs <= c.config.commandTimeout
    ensures var p := Turn(c, e, now);
            && StepSize(p.c, p.e) == StepSize(c, e)
            && Remaining(p.c, p.e) == Remaining(c, e) - (if Counts(c, e, now) then 1 else 0)
            && (Active(p.c) <==> Remaining(p.c, p.e) > 0)
            && (Active(p.c) ==> SameCommand(c, p.c))
            && (!Active(p.c) ==> p.c.motorPos == c.desiredPos)
  {
    var r := E.Read(e);
    var h := Heard(c, r);
    var p := Reaction(h, r, now);
    assert Turn(c, e, now) == p && Counts(c, e, now) == !StartupWait(h, now - h.commandTs);
    ReadDistance(c, e);
    HearingAgrees(c, e);
    HearingIsAttentive(c, e);
    HeardKeeps(c, e);
    ReactionOutcome(h, r, now);
    ReactionKeepsPosition(h, r, now);
    PastIsDistance(c, e);
    PastIsDistance(h, r);
    RemainingStep(c, e, p.c, p.e, Counts(c, e, now));
  }

  /** A read brings a driven motor one step closer and leaves one that is off where it is. */
  lemma ReadDistance(c: Context, e: E.Engine)
    requires Coupled(c, e) && Active(c) && 1 <= StepSize(c, e) <= 1024
    ensures Distance(c, E.Read(e)) == Distance(c, e) - if e.status == OFF then 0 else StepSize(c, e)
  {}

  /** The raw positions that report the target or are still short of it. */
  predicate NotPast(c: Context, raw: int) {
    if c.desiredDir == INC then raw < E.PosRaw(c.desiredPos + 1) else raw >= E.PosRaw(c.desiredPos)
  }

  /** How a command that has not passed its target goes on or ends, within its time limit or
      not. */
  lemma ReactionLands(h: Context, r: E.Engine, now: int)
    requires Agreed(h, r) && Active(h) && Past(h) <= 0 && StepSize(h, r) >= 1
    ensures var p := Reaction(h, r, now);
            && (Active(p.c) ==> p.c.motorPos != h.desiredPos)
            && (!Active(p.c) ==> Idle(p.c) && p.e.status == OFF)
            && (!Active(p.c) ==> p.c.motorPos == h.desiredPos || now - h.commandTs > h.config.commandTimeout)
  {
    ReactionKeepsCoupled(h, r, now);
  }

  /** A turn on any active command, within its time limit or not. */
  lemma TurnLands(c: Context, e: E.Engine, now: int)
    requires Coupled(c, e) && 1 <= StepSize(c, e) <= 1024 && Active(c)
    ensures var p := Turn(c, e, now);
            && (p.e.pos == e.pos || p.e.pos == e.pos + Signed(c.desiredDir, StepSize(c, e)))
            && NotPast(c, p.e.pos) && p.c.motorPos == E.PosPercent(p.e.pos)
            && (Active(p.c) ==> SameCommand(c, p.c) && p.c.motorPos != c.desiredPos)
            && (!Active(p.c) ==> Idle(p.c) && p.e.status == OFF)
            && (!Active(p.c) ==> p.c.motorPos == c.desiredPos || now - c.commandTs > c.config.commandTimeout)
  {
    var r := E.Read(e);
    var h := Heard(c, r);
    assert Turn(c, e, now) == Reaction(h, r, now);
    HearingAgrees(c, e);
    HeardKeeps(c, e);
    ReadKeeps(e);
    ReactionKeepsPosition(h, r, now);
    ReactionLands(h, r, now);
  }
}
