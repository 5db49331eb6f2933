/** The frames of a command on the closed loop: each threshold stop is met by one OFF and one
    resend. */
module Recovery {
  import opened CanBus
  import opened SeatController
  import CR = ControllerRun
  import opened ClosedLoop
  import E = SeatEngine
  import opened Landing

  /** The motor is off and not on the target. */
  predicate OffShort(c: Context, e: E.Engine) {
    e.status == OFF && E.PosPercent(e.pos) != c.desiredPos
  }

  function Move(c: Context): Command {
    Command(c.desiredDir, c.config.motorRpm % 256)
  }

  lemma ReactionFrames(h: Context, r: E.Engine, now: int)
    requires Agreed(h, r) && Attentive(h, r) && Active(h) && Past(h) <= 0
    requires now - h.commandTs <= h.config.commandTimeout
    ensures var wait := StartupWait(h, now - h.commandTs);
            ControlLoop(h, now).tx ==
            (if Past(h) == 0 then [Command(OFF, 0)] else if OffShort(h, r) && !wait then [Command(OFF, 0), Move(h)] else [])
  {}

  /** The frames of one turn on a command within its time limit: the resend exactly if the motor
      is off short of the target and this is no start-up wait, the closing OFF exactly if the
      command ends. */
  lemma TurnFrames(c: Context, e: E.Engine, now: int)
    requires Coupled(c, e) && Recoverable(c, e) && 1 <= StepSize(c, e) <= 1024
    requires Active(c) && now - c.commandTs <= c.config.commandTimeout
    ensures var r, p := E.Read(e), Turn(c, e, now);
            var short, wait := OffShort(c, r), StartupWait(Heard(c, r), now - c.commandTs);
            && (e.status == OFF ==> short)
            && (Active(p.c) ==> (p.e.status == OFF <==> short && wait))
            && (!Active(p.c) ==> !short)
            && ControlLoop(Heard(c, r), now).tx ==
               (if !Active(p.c) then [Command(OFF, 0)] else if short && !wait then [Command(OFF, 0), Move(c)] else [])
  {
    var r := E.Read(e);
    var h := Heard(c, r);
    HearingAgrees(c, e);
    HearingIsAttentive(c, e);
    HeardKeeps(c, e);
    ReadDistance(c, e);
    PastIsDistance(c, e);
    PastIsDistance(h, r);
    ReactionOutcome(h, r, now);
    ReactionFrames(h, r, now);
    if Past(h) < 0 {
      StatusAfter(h, r, now);
    }
  }

  lemma StatusAfter(h: Context, r: E.Engine, now: int)
    requires Agreed(h, r) && Attentive(h, r) && StepSize(h, r) >= 1
    requires Active(h) && Past(h) < 0 && now - h.commandTs <= h.config.commandTimeout
    ensures Reaction(h, r, now).e.status == OFF <==> r.status == OFF && StartupWait(h, now - h.commandTs)
  {
    ReactionOutcome(h, r, now);
  }

  // ----- whole commands -----

  /** A read in cycle `j` stops the motor short of the target of a command. */
  predicate StopsAt(trace: seq<World>, acts: seq<Act>, j: nat)
    requires j < |acts| < |trace|
  {
    var w := trace[j];
    acts[j].Cycle? && Active(w.s.ctx) && w.e.status != OFF && OffShort(w.s.ctx, E.Read(w.e))
  }

  /** Such stops among the `n` acts from `k` on. */
  function Stops(trace: seq<World>, acts: seq<Act>, k: nat, n: nat): nat
    requires k + n <= |acts| < |trace|
  {
    if n == 0 then 0 else Stops(trace, acts, k, n - 1) + if StopsAt(trace, acts, k + n - 1) then 1 else 0
  }

  /** `m` times OFF and the move again. */
  function Resends(m: nat, move: Command): seq<Command> {
    if m == 0 then [] else Resends(m - 1, move) + [Command(OFF, 0), move]
  }

  /** A stop that the loop has not answered yet. */
  function Unanswered(w: World): nat {
    if Active(w.s.ctx) && w.e.status == OFF then 1 else 0
  }

  /** The frames sent between `w0`, where a command is active, and `w`, after `stops` threshold
      stops: one OFF and resend for each that is answered, and OFF at the end. */
  predicate Answered(w0: World, w: World, stops: nat) {
    FramesSent(w0.s.tx, w.s.tx, Move(w0.s.ctx), Unanswered(w0) + stops - Unanswered(w), !Active(w.s.ctx))
  }

  /** From `tx0` to `tx` there are `m` resends and, at the end, OFF if `ended`. */
  predicate FramesSent(tx0: seq<Command>, tx: seq<Command>, move: Command, m: int, ended: bool) {
    m >= 0 && tx == tx0 + Resends(m, move) + if ended then [Command(OFF, 0)] else []
  }

  /** What one cycle adds: OFF if the command ends, OFF and the move if a stop is answered. */
  function Added(move: Command, short: bool, owed': nat, active': bool): seq<Command> {
    if !active' then [Command(OFF, 0)] else if short && owed' == 0 then [Command(OFF, 0), move] else []
  }

  lemma FramesThen(tx0: seq<Command>, tx: seq<Command>, move: Command, m: int, owed: nat, owed': nat, short: bool, active': bool)
    requires FramesSent(tx0, tx, move, m - owed, false)
    requires owed <= 1 && (owed == 1 ==> short) && owed' <= (if short && active' then 1 else 0) && (short ==> active')
    ensures FramesSent(tx0, tx + Added(move, short, owed', active'), move,
                       m + (if short && owed == 0 then 1 else 0) - owed', !active')
  {
    assert tx == tx0 + Resends(m - owed, move) == tx + [];
    assert tx0 + Resends(m - owed + 1, move) == tx + [Command(OFF, 0), move];
  }

  lemma CycleFrames(w: World, now: int)
    requires w.s.loop.Awake? && E.InRange(E.Read(w.e).pos)
    ensures Step(w, Cycle(now)).s.tx == w.s.tx + ControlLoop(Heard(w.s.ctx, E.Read(w.e)), now).tx
  {
    HeardReport(w.s.ctx, E.Read(w.e));
    CR.WholeFrameIs(w.s, E.Report(E.Read(w.e)), now);
  }

  lemma AnsweredNothing(w: World)
    requires Active(w.s.ctx)
    ensures Answered(w, w, 0)
  {
    assert w.s.tx + [] + [] == w.s.tx;
  }

  /** What a cycle from `w` to `w'` sends, `short` telling whether it finds the motor off short
      of the target. */
  predicate Adds(w: World, w': World, short: bool) {
    && (Unanswered(w) == 1 ==> short) && (short ==> Active(w'.s.ctx)) && (Unanswered(w') == 1 ==> short)
    && w'.s.tx == w.s.tx + Added(Move(w.s.ctx), short, Unanswered(w'), Active(w'.s.ctx))
  }

  lemma CycleAdds(w: World, now: int, w': World)
    requires Inv(w) && 1 <= Size(w) <= 1024 && w' == Step(w, Cycle(now))
    requires Active(w.s.ctx) && now - w.s.ctx.commandTs <= w.s.ctx.config.commandTimeout
    ensures Adds(w, w', OffShort(w.s.ctx, E.Read(w.e)))
  {
    HearingAgrees(w.s.ctx, w.e);
    CycleIsTurn(w, now);
    CycleFrames(w, now);
    TurnFrames(w.s.ctx, w.e, now);
  }

  lemma RunAdds(trace: seq<World>, acts: seq<Act>, u: Setup, j: nat) returns (short: bool)
    requires Run(trace, acts, u) && 1 <= SetupSize(u) <= 1024 && j < |acts| && acts[j].Cycle?
    requires Active(trace[j].s.ctx) && acts[j].now - trace[j].s.ctx.commandTs <= u.config.commandTimeout
    ensures StopsAt(trace, acts, j) <==> short && Unanswered(trace[j]) == 0
    ensures Adds(trace[j], trace[j + 1], short)
  {
    RunInv(trace, acts, u, j);
    assert StepAt(trace, acts, j);
    CycleAdds(trace[j], acts[j].now, trace[j + 1]);
    short := OffShort(trace[j].s.ctx, E.Read(trace[j].e));
  }

  lemma AnsweredStep(w0: World, w: World, w': World, short: bool, stops: nat)
    requires Active(w.s.ctx) && Move(w.s.ctx) == Move(w0.s.ctx) && Answered(w0, w, stops) && Adds(w, w', short)
    ensures Answered(w0, w', stops + if short && Unanswered(w) == 0 then 1 else 0)
  {
    FramesThen(w0.s.tx, w.s.tx, Move(w0.s.ctx), Unanswered(w0) + stops, Unanswered(w), Unanswered(w'), short, Active(w'.s.ctx));
  }

  lemma AnsweredIdle(w0: World, w: World, now: int, w': World, stops: nat)
    requires Inv(w) && Idle(w.s.ctx) && w' == Step(w, Cycle(now)) && Answered(w0, w, stops)
    ensures Answered(w0, w', stops)
  {
    HearingAgrees(w.s.ctx, w.e);
    CycleIsTurn(w, now);
    CycleFrames(w, now);
    HeardKeeps(w.s.ctx, w.e);
    ReactionKeepsPosition(Heard(w.s.ctx, E.Read(w.e)), E.Read(w.e), now);
  }

  /** Each threshold stop is met by exactly one OFF and resend: the frames of a command within
      its time limit, from any point on, are these and the OFF that ends it. */
  lemma {:induction false} ThresholdFrames(trace: seq<World>, acts: seq<Act>, u: Setup, k: nat, n: nat)
    requires Run(trace, acts, u) && 1 <= SetupSize(u) <= 1024
    requires k + n <= |acts| && Active(trace[k].s.ctx) && CyclesInTime(trace, acts, u, k, n)
    ensures Answered(trace[k], trace[k + n], Stops(trace, acts, k, n))
  {
    if n == 0 {
      AnsweredNothing(trace[k]);
    } else {
      ThresholdFrames(trace, acts, u, k, n - 1);
      ThresholdNext(trace, acts, u, k, n - 1);
    }
  }

  lemma ThresholdNext(trace: seq<World>, acts: seq<Act>, u: Setup, k: nat, n: nat)
    requires Run(trace, acts, u) && 1 <= SetupSize(u) <= 1024
    requires k + n < |acts| && Active(trace[k].s.ctx) && CyclesInTime(trace, acts, u, k, n + 1)
    requires Answered(trace[k], trace[k + n], Stops(trace, acts, k, n))
    ensures Answered(trace[k], trace[k + n + 1], Stops(trace, acts, k, n + 1))
  {
    Countdown(trace, acts, u, k, n);
    if Active(trace[k + n].s.ctx) {
      SameMove(trace, acts, u, k, k + n);
      var short := RunAdds(trace, acts, u, k + n);
      AnsweredStep(trace[k], trace[k + n], trace[k + n + 1], short, Stops(trace, acts, k, n));
    } else {
      RunInv(trace, acts, u, k + n);
      assert StepAt(trace, acts, k + n);
      AnsweredIdle(trace[k], trace[k + n], acts[k + n].now, trace[k + n + 1], Stops(trace, acts, k, n));
    }
  }

  lemma SameMove(trace: seq<World>, acts: seq<Act>, u: Setup, k: nat, j: nat)
    requires Run(trace, acts, u) && SetupSize(u) >= 1 && k <= j < |trace| && SameCommand(trace[k].s.ctx, trace[j].s.ctx)
    ensures Move(trace[j].s.ctx) == Move(trace[k].s.ctx)
  {
    RunInv(trace, acts, u, k);
    RunInv(trace, acts, u, j);
  }

  /** So a move that has landed has sent its start, one OFF and resend for each threshold that
      stopped it on its way, and the closing OFF. */
  lemma LandedFrames(trace: seq<World>, acts: seq<Act>, u: Setup, k: nat, n: nat)
    requires Run(trace, acts, u) && 1 <= SetupSize(u) <= 1024 && k + 1 + n <= |acts|
    requires acts[k].Resume? && trace[k].s.setter.Stopped? && trace[k].s.ctx.motorPos != trace[k].s.setter.target
    requires CyclesInTime(trace, acts, u, k + 1, n) && !Active(trace[k + 1 + n].s.ctx)
    ensures var move := Command(if trace[k].s.ctx.motorPos < trace[k].s.setter.target then INC else DEC, u.config.motorRpm % 256);
            trace[k + 1 + n].s.tx ==
            trace[k].s.tx + [move] + Resends(Stops(trace, acts, k + 1, n), move) + [Command(OFF, 0)]
  {
    RunInv(trace, acts, u, k);
    assert StepAt(trace, acts, k);
    CommitStarts(trace[k], acts[k].now);
    MoveKeeps(trace[k].s.ctx, trace[k].e, trace[k].s.setter.target, acts[k].now);
    ThresholdFrames(trace, acts, u, k + 1, n);
  }
}
