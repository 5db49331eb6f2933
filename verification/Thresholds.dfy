/** The one-shot stops at 85% and 14% on the closed loop: a command that crosses one is stopped
    there exactly once, each time one crosses it again. */
module Thresholds {
  import opened CanBus
  import opened SeatController
  import CR = ControllerRun
  import opened ClosedLoop
  import E = SeatEngine
  import opened Landing
  import opened Recovery

  /** The upper threshold, crossed upwards, or the lower one, crossed downwards. */
  datatype Side = High | Low

  function Way(side: Side): Direction { if side.High? then INC else DEC }

  /** The percent at which the motor stops. */
  function Mark(side: Side): Percent { if side.High? then 85 else 14 }

  /** A raw position that reports the mark or lies beyond it. */
  predicate Beyond(side: Side, raw: int) {
    if side.High? then raw >= 85 * 1024 else raw < 15 * 1024
  }

  function Spent(side: Side, e: E.Engine): bool {
    if side.High? then e.hiStop else e.loStop
  }

  /** A read that carries the motor across the mark stops it there, in whatever way it came back
      inside; beyond it, once it has been stopped, reads leave it going. */
  lemma ReadCrosses(side: Side, c: Context, e: E.Engine)
    requires Coupled(c, e) && Active(c) && Driven(c, e) && e.status == Way(side) && 1 <= StepSize(c, e) <= 1024 && e.thresholds
    ensures var r := E.Read(e);
            && r.pos == e.pos + e.inc && r.thresholds
            && (!Beyond(side, e.pos) && Beyond(side, r.pos) ==> r.status == OFF && Spent(side, r) && E.PosPercent(r.pos) == Mark(side))
            && (!Beyond(side, r.pos) ==> r.status == Way(side))
            && (Beyond(side, e.pos) && Spent(side, e) ==> Beyond(side, r.pos) && r.status == Way(side) && Spent(side, r))
  {
    DrivenRead(c, e);
  }

  /** In every run with thresholds on, whatever has happened before: a cycle that carries a command
      across the mark finds the motor stopped, and hears of it. */
  lemma CrossingStops(trace: seq<World>, acts: seq<Act>, u: Setup, k: nat, side: Side)
    requires Run(trace, acts, u) && 1 <= SetupSize(u) <= 1024 && u.thresholds && k < |acts| && acts[k].Cycle?
    requires Active(trace[k].s.ctx) && trace[k].e.status == Way(side)
    requires !Beyond(side, trace[k].e.pos) && Beyond(side, trace[k + 1].e.pos)
    ensures trace[k + 1].s.ctx.motorPos == Mark(side) && trace[k + 1].s.ctx.motorMov == OFF
  {
    RunInv(trace, acts, u, k);
    RunThresholds(trace, acts, u, k);
    CycleOutcome(trace, acts, u, k);
    ReadCrosses(side, trace[k].s.ctx, trace[k].e);
  }

  lemma {:induction false} RunThresholds(trace: seq<World>, acts: seq<Act>, u: Setup, k: nat)
    requires Run(trace, acts, u) && k < |trace|
    ensures trace[k].e.thresholds == u.thresholds
  {
    if k > 0 {
      RunThresholds(trace, acts, u, k - 1);
      assert StepAt(trace, acts, k - 1);
      StepKeepsThresholds(trace[k - 1], acts[k - 1], trace[k]);
    }
  }

  lemma StepKeepsThresholds(w: World, a: Act, w': World)
    requires Follows(w, a, w')
    ensures w'.e.thresholds == w.e.thresholds
  {
    ReadKeepsThresholds(w.e);
    WritesKeepThresholds(Seen(w, a), w'.s.tx[|w.s.tx|..]);
  }

  lemma ReadKeepsThresholds(e: E.Engine)
    ensures E.Read(e).thresholds == e.thresholds
  {}

  lemma {:induction false} WritesKeepThresholds(e: E.Engine, cs: seq<Command>)
    ensures WriteAll(e, cs).thresholds == e.thresholds
  {
    if cs != [] {
      WritesKeepThresholds(e, cs[..|cs| - 1]);
    }
  }

  /** After a cycle the engine is where the read left it, and that is what the controller holds. */
  lemma CycleOutcome(trace: seq<World>, acts: seq<Act>, u: Setup, k: nat)
    requires Run(trace, acts, u) && SetupSize(u) >= 1 && k < |acts| && acts[k].Cycle?
    ensures var r, w' := E.Read(trace[k].e), trace[k + 1];
            && w'.e.pos == r.pos && w'.e.hiStop == r.hiStop && w'.e.loStop == r.loStop
            && w'.s.ctx.motorPos == E.PosPercent(r.pos) && w'.s.ctx.motorMov == r.status
  {
    RunInv(trace, acts, u, k);
    assert StepAt(trace, acts, k);
    HearingAgrees(trace[k].s.ctx, trace[k].e);
    CycleIsTurn(trace[k], acts[k].now);
    TurnOutcome(trace[k].s.ctx, trace[k].e, acts[k].now);
  }

  lemma LoopKeepsMotor(h: Context, now: int)
    ensures var c := ControlLoop(h, now).ctx; c.motorPos == h.motorPos && c.motorMov == h.motorMov
  {}

  lemma TurnOutcome(c: Context, e: E.Engine, now: int)
    requires Coupled(c, e) && StepSize(c, e) >= 1
    ensures var r, p := E.Read(e), Turn(c, e, now);
            && p.e.pos == r.pos && p.e.hiStop == r.hiStop && p.e.loStop == r.loStop
            && p.c.motorPos == E.PosPercent(r.pos) && p.c.motorMov == r.status
  {
    var r := E.Read(e);
    HearingAgrees(c, e);
    HeardReport(c, r);
    AfterWrites(r, ControlLoop(Heard(c, r), now).tx);
    LoopKeepsMotor(Heard(c, r), now);
  }

  // ----- one command -----

  /** On the way to a target beyond the mark, and not there yet. */
  predicate Before(side: Side, w: World) {
    && Active(w.s.ctx) && w.s.ctx.desiredDir == Way(side) && w.e.status == Way(side)
    && (if side.High? then w.s.ctx.desiredPos > 85 else w.s.ctx.desiredPos < 14)
    && !Beyond(side, w.e.pos)
  }

  /** Beyond the mark and stopped there once. */
  predicate After(side: Side, w: World) {
    E.InRange(w.e.pos) && Beyond(side, w.e.pos) && Spent(side, w.e) && (Active(w.s.ctx) ==> w.s.ctx.desiredDir == Way(side))
  }

  lemma BeforeStep(trace: seq<World>, acts: seq<Act>, u: Setup, k: nat, side: Side)
    requires Run(trace, acts, u) && 1 <= SetupSize(u) <= 1024 && u.thresholds && k < |acts| && acts[k].Cycle?
    requires Before(side, trace[k]) && acts[k].now - trace[k].s.ctx.commandTs <= u.config.commandTimeout
    ensures Beyond(side, trace[k + 1].e.pos) ==> StopsAt(trace, acts, k) && After(side, trace[k + 1])
    ensures !Beyond(side, trace[k + 1].e.pos) ==> !StopsAt(trace, acts, k) && Before(side, trace[k + 1])
  {
    var c, e := trace[k].s.ctx, trace[k].e;
    RunInv(trace, acts, u, k);
    RunThresholds(trace, acts, u, k);
    ReadCrosses(side, c, e);
    CycleOutcome(trace, acts, u, k);
    CycleProgress(trace, acts, u, k);
  }

  /** How the command goes on. */
  lemma CycleProgress(trace: seq<World>, acts: seq<Act>, u: Setup, k: nat)
    requires Run(trace, acts, u) && 1 <= SetupSize(u) <= 1024 && k < |acts| && acts[k].Cycle?
    requires Active(trace[k].s.ctx) && acts[k].now - trace[k].s.ctx.commandTs <= u.config.commandTimeout
    ensures var c, r, w' := trace[k].s.ctx, E.Read(trace[k].e), trace[k + 1];
            && (Active(w'.s.ctx) <==> E.PosPercent(r.pos) != c.desiredPos)
            && (Active(w'.s.ctx) ==> SameCommand(c, w'.s.ctx) && (r.status != OFF ==> w'.e.status == c.desiredDir))
  {
    var w := trace[k];
    RunInv(trace, acts, u, k);
    RunInv(trace, acts, u, k + 1);
    assert StepAt(trace, acts, k);
    HearingAgrees(w.s.ctx, w.e);
    CycleIsTurn(w, acts[k].now);
    TurnOutcome(w.s.ctx, w.e, acts[k].now);
    TurnProgress(w.s.ctx, w.e, acts[k].now);
    TurnLands(w.s.ctx, w.e, acts[k].now);
    TurnFrames(w.s.ctx, w.e, acts[k].now);
  }

  lemma AfterStep(trace: seq<World>, acts: seq<Act>, u: Setup, k: nat, side: Side)
    requires Run(trace, acts, u) && 1 <= SetupSize(u) <= 1024 && u.thresholds && k < |acts| && acts[k].Cycle?
    requires After(side, trace[k])
    ensures !StopsAt(trace, acts, k) && After(side, trace[k + 1])
  {
    var c, e := trace[k].s.ctx, trace[k].e;
    RunInv(trace, acts, u, k);
    RunThresholds(trace, acts, u, k);
    if e.status == OFF {
      ReadKeeps(e);
    } else {
      ReadCrosses(side, c, e);
    }
    CycleOutcome(trace, acts, u, k);
    CommandKept(trace, acts, u, k);
  }

  lemma CommandKept(trace: seq<World>, acts: seq<Act>, u: Setup, k: nat)
    requires Run(trace, acts, u) && SetupSize(u) >= 1 && k < |acts| && acts[k].Cycle?
    ensures Active(trace[k + 1].s.ctx) ==> Active(trace[k].s.ctx) && SameCommand(trace[k].s.ctx, trace[k + 1].s.ctx)
  {
    var w := trace[k];
    RunInv(trace, acts, u, k);
    assert StepAt(trace, acts, k);
    HearingAgrees(w.s.ctx, w.e);
    CycleIsTurn(w, acts[k].now);
    HeardKeeps(w.s.ctx, w.e);
    ReactionKeepsPosition(Heard(w.s.ctx, E.Read(w.e)), E.Read(w.e), acts[k].now);
  }

  /** Up to `k + n`, the command has been stopped at `j`, the first cycle that finds it at the mark,
      and nowhere else; or it is still before the mark and `j` is `k + n`. */
  lemma {:induction false} OneStop(trace: seq<World>, acts: seq<Act>, u: Setup, k: nat, n: nat, side: Side) returns (j: nat)
    requires Run(trace, acts, u) && 1 <= SetupSize(u) <= 1024 && u.thresholds
    requires k + n <= |acts| && CyclesInTime(trace, acts, u, k, n) && Before(side, trace[k])
    ensures k <= j <= k + n
    ensures forall i :: k <= i < k + n ==> (StopsAt(trace, acts, i) <==> i == j)
    ensures forall i :: k < i <= j ==> !Beyond(side, trace[i].e.pos)
    ensures j < k + n ==> Before(side, trace[j])
    ensures Stops(trace, acts, k, n) == if j < k + n then 1 else 0
    ensures if j < k + n then Beyond(side, trace[j + 1].e.pos) && After(side, trace[k + n]) else Before(side, trace[k + n])
  {
    if n == 0 {
      j := k;
    } else {
      var i := k + n - 1;
      j := OneStop(trace, acts, u, k, n - 1, side);
      SameAge(trace, acts, u, k, n - 1);
      if j < i {
        AfterStep(trace, acts, u, i, side);
      } else {
        BeforeStep(trace, acts, u, i, side);
        j := if Beyond(side, trace[k + n].e.pos) then i else k + n;
      }
    }
  }

  lemma SameAge(trace: seq<World>, acts: seq<Act>, u: Setup, k: nat, n: nat)
    requires Run(trace, acts, u) && 1 <= SetupSize(u) <= 1024
    requires k + n <= |acts| && Active(trace[k].s.ctx) && CyclesInTime(trace, acts, u, k, n)
    ensures Active(trace[k + n].s.ctx) ==> trace[k + n].s.ctx.commandTs == trace[k].s.ctx.commandTs
  {
    Countdown(trace, acts, u, k, n);
  }

  /** A move that starts on this side of a threshold and lands on the other is stopped exactly once
      on its way, in the first cycle that reports the mark (85% upwards, 14% downwards); the
      controller hears of it there, and sends exactly one OFF and resend. */
  lemma ThresholdCrossed(trace: seq<World>, acts: seq<Act>, u: Setup, k: nat, n: nat, side: Side) returns (j: nat)
    requires Run(trace, acts, u) && 1 <= SetupSize(u) <= 1024 && u.thresholds && k + 1 + n <= |acts|
    requires acts[k].Resume? && trace[k].s.setter.Stopped?
    requires var from, to := trace[k].s.ctx.motorPos, trace[k].s.setter.target;
             if side.High? then from < 85 < to else to < 14 < from
    requires CyclesInTime(trace, acts, u, k + 1, n) && !Active(trace[k + 1 + n].s.ctx)
    ensures k + 1 <= j < k + 1 + n
    ensures trace[j + 1].s.ctx.motorPos == Mark(side) && trace[j + 1].s.ctx.motorMov == OFF
    ensures forall i :: k + 1 < i <= j ==> if side.High? then trace[i].s.ctx.motorPos < 85 else trace[i].s.ctx.motorPos > 14
    ensures forall i :: k + 1 <= i < k + 1 + n ==> (StopsAt(trace, acts, i) <==> i == j)
    ensures var move := Command(Way(side), u.config.motorRpm % 256);
            trace[k + 1 + n].s.tx == trace[k].s.tx + [move, Command(OFF, 0), move, Command(OFF, 0)]
  {
    MoveBegins(trace, acts, u, k, side);
    j := OneStop(trace, acts, u, k + 1, n, side);
    MarkReached(trace, acts, u, j, side);
    forall i | k + 1 < i <= j
      ensures if side.High? then trace[i].s.ctx.motorPos < 85 else trace[i].s.ctx.motorPos > 14
    {
      CycleOutcome(trace, acts, u, i - 1);
    }
    FramesAround(trace, acts, u, k, n, side);
  }

  lemma FramesAround(trace: seq<World>, acts: seq<Act>, u: Setup, k: nat, n: nat, side: Side)
    requires Run(trace, acts, u) && 1 <= SetupSize(u) <= 1024 && k + 1 + n <= |acts|
    requires acts[k].Resume? && trace[k].s.setter.Stopped? && trace[k].s.ctx.motorPos != trace[k].s.setter.target
    requires side.High? <==> trace[k].s.ctx.motorPos < trace[k].s.setter.target
    requires CyclesInTime(trace, acts, u, k + 1, n) && !Active(trace[k + 1 + n].s.ctx) && Stops(trace, acts, k + 1, n) == 1
    ensures var move := Command(Way(side), u.config.motorRpm % 256);
            trace[k + 1 + n].s.tx == trace[k].s.tx + [move, Command(OFF, 0), move, Command(OFF, 0)]
  {
    LandedFrames(trace, acts, u, k, n);
    OneResend(Command(Way(side), u.config.motorRpm % 256));
  }

  lemma MoveBegins(trace: seq<World>, acts: seq<Act>, u: Setup, k: nat, side: Side)
    requires Run(trace, acts, u) && 1 <= SetupSize(u) <= 1024 && k < |acts| && acts[k].Resume? && trace[k].s.setter.Stopped?
    requires var from, to := trace[k].s.ctx.motorPos, trace[k].s.setter.target;
             if side.High? then from < 85 < to else to < 14 < from
    ensures Before(side, trace[k + 1])
  {
    RunInv(trace, acts, u, k);
    assert StepAt(trace, acts, k);
    CommitStarts(trace[k], acts[k].now);
    MoveKeeps(trace[k].s.ctx, trace[k].e, trace[k].s.setter.target, acts[k].now);
  }

  lemma MarkReached(trace: seq<World>, acts: seq<Act>, u: Setup, j: nat, side: Side)
    requires Run(trace, acts, u) && 1 <= SetupSize(u) <= 1024 && u.thresholds && j < |acts|
    requires StopsAt(trace, acts, j) && Before(side, trace[j]) && Beyond(side, trace[j + 1].e.pos)
    ensures trace[j + 1].s.ctx.motorPos == Mark(side) && trace[j + 1].s.ctx.motorMov == OFF
  {
    CrossingStops(trace, acts, u, j, side);
  }

  lemma OneResend(move: Command)
    ensures Resends(1, move) == [Command(OFF, 0), move]
  {
    assert Resends(0, move) == [];
  }
}
