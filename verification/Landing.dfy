/** Whole runs of the closed loop: landing, termination and overshoot. */
module Landing {
  import opened CanBus
  import opened Options
  import opened SeatController
  import CR = ControllerRun
  import CB = ControllerCallbacks
  import opened ClosedLoop
  import E = SeatEngine

  function Size(w: World): int { StepSize(w.s.ctx, w.e) }

  /** Open, with a callback, and every change of position notified so far. */
  ghost predicate Notifying(s: CR.Session) {
    s.ctx.running && s.ctx.callbackSet && CB.Streamed(s)
  }

  ghost predicate Inv(w: World) {
    && CR.Inv(w.s) && w.s.loop.Awake? && Notifying(w.s)
    && Coupled(w.s.ctx, w.e)
    && (w.s.setter.Stopped? ==> w.s.ctx.motorPos != MOTOR_POS_INVALID)
    && Size(w) >= 1
    && (Size(w) <= 1024 ==> Recoverable(w.s.ctx, w.e))
  }

  /** A controller configuration and a simulator environment. */
  datatype Setup = Setup(config: Config, start: Option<Percent>, delay: E.Delay, learning: uint8, thresholds: bool)

  function SetupSize(u: Setup): int { E.PosIncrement(true, u.delay, u.config.motorRpm % 256) }

  ghost predicate Run(trace: seq<World>, acts: seq<Act>, u: Setup) {
    && |trace| == |acts| + 1
    && trace[0] == Begin(u.config, E.Init(u.start, u.delay, u.learning, u.thresholds))
    && forall i :: 0 <= i < |acts| ==> StepAt(trace, acts, i)
  }

  predicate StepAt(trace: seq<World>, acts: seq<Act>, i: nat)
    requires i < |acts| < |trace|
  {
    Follows(trace[i], acts[i], trace[i + 1])
  }

  lemma Extend(trace: seq<World>, acts: seq<Act>, u: Setup, a: Act, w: World) returns (trace': seq<World>, acts': seq<Act>)
    requires Run(trace, acts, u) && Follows(trace[|acts|], a, w)
    ensures Run(trace', acts', u) && acts' == acts + [a] && trace' == trace + [w]
  {
    trace', acts' := trace + [w], acts + [a];
    forall i | 0 <= i < |acts'|
      ensures StepAt(trace', acts', i)
    {
      assert i < |acts| ==> StepAt(trace, acts, i);
    }
  }

  lemma BeginInv(u: Setup)
    requires SetupSize(u) >= 1
    ensures Inv(Begin(u.config, E.Init(u.start, u.delay, u.learning, u.thresholds)))
  {}

  lemma CycleNotifies(w: World, now: int)
    requires CR.Inv(w.s) && CR.Enabled(w.s, AsEvent(w, Cycle(now))) && Notifying(w.s)
    ensures Notifying(Step(w, Cycle(now)).s)
  {
    CB.WholeFrameStreams(w.s, E.Report(E.Read(w.e)), now);
    CR.WholeFrameKeepsConfig(w.s, E.Report(E.Read(w.e)), now);
  }

  lemma CycleSession(w: World, now: int)
    requires CR.Inv(w.s) && CR.Enabled(w.s, AsEvent(w, Cycle(now)))
    ensures var s' := Step(w, Cycle(now)).s; CR.Inv(s') && s'.loop.Awake? && s'.setter == w.s.setter
  {
    CR.WholeFrameKeepsInv(w.s, E.Report(E.Read(w.e)), now);
    CR.WholeFrameIs(w.s, E.Report(E.Read(w.e)), now);
  }

  lemma CycleInv(w: World, now: int)
    requires Inv(w) && CR.Enabled(w.s, AsEvent(w, Cycle(now)))
    ensures Inv(Step(w, Cycle(now)))
  {
    HearingAgrees(w.s.ctx, w.e);
    CycleIsTurn(w, now);
    CycleSession(w, now);
    CycleNotifies(w, now);
    TurnKeeps(w.s.ctx, w.e, now);
  }

  /** A caller's action sends `tx` and leaves the position alone; any OFF at its end stops the
      motor. */
  lemma SendKeeps(c: Context, e: E.Engine, c': Context, tx: seq<Command>)
    requires Coupled(c, e) && StepSize(c, e) >= 1
    requires c' == c.(commandTs := c'.commandTs, desiredDir := c'.desiredDir, desiredPos := c'.desiredPos)
    requires Idle(c') && (CR.EndsOff(tx) || (tx == [] && Idle(c)))
    ensures Coupled(c', WriteAll(e, tx)) && StepSize(c', WriteAll(e, tx)) == StepSize(c, e)
    ensures Recoverable(c, e) ==> Recoverable(c', WriteAll(e, tx))
  {
    AfterWrites(e, tx);
  }

  /** Committing to a target ahead of the motor drives it there. */
  lemma MoveKeeps(c: Context, e: E.Engine, target: Percent, now: int)
    requires Coupled(c, e) && Idle(c) && StepSize(c, e) >= 1 && 0 < now
    requires c.motorPos != MOTOR_POS_INVALID && c.motorPos != target
    ensures var o := CommitPosition(c, target, now, true).out;
            && Active(o.ctx) && o.ctx.desiredPos == target && o.ctx.commandTs == now
            && Coupled(o.ctx, WriteAll(e, o.tx)) && StepSize(o.ctx, WriteAll(e, o.tx)) == StepSize(c, e)
            && Driven(o.ctx, WriteAll(e, o.tx)) && WriteAll(e, o.tx).pos == e.pos
            && (Recoverable(c, e) ==> Recoverable(o.ctx, WriteAll(e, o.tx)))
  {}

  lemma RequestInv(w: World, position: int)
    requires Inv(w) && CR.Enabled(w.s, AsEvent(w, Request(position)))
    ensures Inv(Step(w, Request(position)))
  {
    var r := RequestPosition(w.s.ctx, position);
    var w' := Step(w, Request(position));
    assert w' == World(CR.After(w.s, r), WriteAll(w.e, r.out.tx));
    CR.StepKeepsInv(w.s, AsEvent(w, Request(position)), w'.s);
    if r.setter.Stopped? {
      SendKeeps(w.s.ctx, w.e, r.out.ctx, r.out.tx);
    }
  }

  lemma ResumeInv(w: World, now: int)
    requires Inv(w) && CR.Enabled(w.s, AsEvent(w, Resume(now)))
    ensures Inv(Step(w, Resume(now)))
  {
    var w' := Step(w, Resume(now));
    CR.StepKeepsInv(w.s, AsEvent(w, Resume(now)), w'.s);
    var r := if w.s.setter.AwaitPosition? then TryPosition(w.s.ctx, w.s.setter.target, w.s.setter.slept)
             else CommitPosition(w.s.ctx, w.s.setter.target, now, true);
    assert w' == World(CR.After(w.s.(clock := now), r), WriteAll(w.e, r.out.tx));
    if Active(r.out.ctx) && w.s.setter.Stopped? {
      MoveKeeps(w.s.ctx, w.e, w.s.setter.target, now);
    } else if Idle(r.out.ctx) {
      SendKeeps(w.s.ctx, w.e, r.out.ctx, r.out.tx);
    }
  }

  lemma HaltInv(w: World)
    requires Inv(w) && CR.Enabled(w.s, AsEvent(w, Halt))
    ensures Inv(Step(w, Halt))
  {
    var off := StopMovement(w.s.ctx);
    var w' := Step(w, Halt);
    assert w'.s.ctx == off.ctx && w'.e == WriteAll(w.e, off.tx);
    CR.StepKeepsInv(w.s, AsEvent(w, Halt), w'.s);
    SendKeeps(w.s.ctx, w.e, off.ctx, off.tx);
  }

  lemma {:induction false} WritesKeepDelay(e: E.Engine, cs: seq<Command>)
    ensures WriteAll(e, cs).delay == e.delay
  {
    if cs != [] {
      WritesKeepDelay(e, cs[..|cs| - 1]);
    }
  }

  lemma ReadKeepsDelay(e: E.Engine)
    ensures E.Read(e).delay == e.delay
  {}

  lemma StepFrame(w: World, a: Act, w': World)
    requires Follows(w, a, w')
    ensures w'.s.ctx.config == w.s.ctx.config && w'.s.ctx.callbackSet == w.s.ctx.callbackSet
    ensures w'.e.delay == w.e.delay
  {
    if a.Cycle? {
      CR.WholeFrameIs(w.s, E.Report(E.Read(w.e)), a.now);
    } else {
      CR.StepKeepsConfig(w.s, AsEvent(w, a), w'.s);
    }
    ReadKeepsDelay(w.e);
    WritesKeepDelay(Seen(w, a), w'.s.tx[|w.s.tx|..]);
  }

  lemma StepInv(w: World, a: Act, w': World)
    requires Inv(w) && Follows(w, a, w')
    ensures Inv(w')
  {
    match a
    case Cycle(now) => CycleInv(w, now);
    case Request(position) => RequestInv(w, position);
    case Resume(now) => ResumeInv(w, now);
    case Halt => HaltInv(w);
  }

  lemma {:induction false} RunInv(trace: seq<World>, acts: seq<Act>, u: Setup, k: nat)
    requires Run(trace, acts, u) && SetupSize(u) >= 1 && k < |trace|
    ensures Inv(trace[k]) && trace[k].s.ctx.config == u.config && trace[k].s.ctx.callbackSet
    ensures Size(trace[k]) == SetupSize(u)
  {
    if k == 0 {
      BeginInv(u);
    } else {
      RunInv(trace, acts, u, k - 1);
      assert StepAt(trace, acts, k - 1);
      StepFrame(trace[k - 1], acts[k - 1], trace[k]);
      StepInv(trace[k - 1], acts[k - 1], trace[k]);
    }
  }

  // ----- main results -----

  /** Overshoot: whatever the step size, a command is never found more than
      ceil(step / 1024) - 1 percent past its target, while it lasts or where it ends. */
  lemma OvershootBound(trace: seq<World>, acts: seq<Act>, u: Setup, k: nat)
    requires Run(trace, acts, u) && SetupSize(u) >= 1 && k < |acts|
    requires acts[k].Cycle? && Active(trace[k].s.ctx)
    ensures var c, c' := trace[k].s.ctx, trace[k + 1].s.ctx;
            && c'.motorPos == E.PosPercent(trace[k + 1].e.pos)
            && (c.desiredDir == INC ==> c'.motorPos - c.desiredPos <= (SetupSize(u) - 1) / 1024)
            && (c.desiredDir == DEC ==> c.desiredPos - c'.motorPos <= (SetupSize(u) - 1) / 1024)
  {
    RunInv(trace, acts, u, k);
    var w, now := trace[k], acts[k].now;
    assert StepAt(trace, acts, k);
    HearingAgrees(w.s.ctx, w.e);
    CycleIsTurn(w, now);
    TurnOvershoot(w.s.ctx, w.e, now);
  }

  /** What a cycle may do to an active command: move the motor towards the target or not at
      all, never past it, and end the command only by stopping the motor, either on the target
      or because the command timed out. */
  predicate LandsExactly(w: World, now: int, w': World, u: Setup) {
    var c, c', raw, raw' := w.s.ctx, w'.s.ctx, w.e.pos, w'.e.pos;
    && (raw' == raw || raw' == raw + if c.desiredDir == INC then SetupSize(u) else -SetupSize(u))
    && NotPast(c, raw') && c'.motorPos == E.PosPercent(raw')
    && (Active(c') ==> SameCommand(c, c') && c'.motorPos != c.desiredPos)
    && (!Active(c') ==> Idle(c') && w'.e.status == OFF)
    && (!Active(c') ==> c'.motorPos == c.desiredPos || now - c.commandTs > u.config.commandTimeout)
  }

  /** Exact landing: with steps of at most 1024 raw units every cycle of every active command
      does just that. */
  lemma ExactLanding(trace: seq<World>, acts: seq<Act>, u: Setup, k: nat)
    requires Run(trace, acts, u) && 1 <= SetupSize(u) <= 1024 && k < |acts|
    requires acts[k].Cycle? && Active(trace[k].s.ctx)
    ensures LandsExactly(trace[k], acts[k].now, trace[k + 1], u)
  {
    RunInv(trace, acts, u, k);
    var w, now := trace[k], acts[k].now;
    assert StepAt(trace, acts, k);
    HearingAgrees(w.s.ctx, w.e);
    CycleIsTurn(w, now);
    TurnLands(w.s.ctx, w.e, now);
  }

  /** A cycle without a command changes neither the position nor the idleness. */
  lemma IdleCycle(w: World, now: int, w': World)
    requires Inv(w) && Idle(w.s.ctx) && w.s.ctx.motorPos != MOTOR_POS_INVALID && Follows(w, Cycle(now), w')
    ensures Idle(w'.s.ctx) && w'.s.ctx.motorPos == w.s.ctx.motorPos && w'.e.pos == w.e.pos
  {}

  /** Cycles among the `n` from `k` on that find a command and are not start-up waits. */
  function Counted(trace: seq<World>, acts: seq<Act>, k: nat, n: nat): nat
    requires k + n <= |acts| < |trace|
  {
    if n == 0 then 0
    else
      var w, a := trace[k + n - 1], acts[k + n - 1];
      Counted(trace, acts, k, n - 1) + if a.Cycle? && Counts(w.s.ctx, w.e, a.now) then 1 else 0
  }

  /** `n` cycles from `k` on, none of them past the time limit of the command of `k`. */
  predicate CyclesInTime(trace: seq<World>, acts: seq<Act>, u: Setup, k: nat, n: nat)
    requires k + n <= |acts| < |trace|
  {
    forall j :: k <= j < k + n ==> acts[j].Cycle? && acts[j].now - trace[k].s.ctx.commandTs <= u.config.commandTimeout
  }

  function Left(w: World): nat
    requires Size(w) >= 1
  {
    Remaining(w.s.ctx, w.e)
  }

  /** `w` is the state of the command of `w0` after `counted` counted cycles: each took exactly
      one off the measure, and the command lasts exactly as long as the measure is positive;
      then it has landed. */
  predicate Descended(w0: World, w: World, counted: nat)
    requires Size(w0) >= 1 && Size(w) >= 1
  {
    && Left(w) + counted == Left(w0)
    && (Active(w.s.ctx) <==> Left(w) > 0)
    && (Active(w.s.ctx) ==> SameCommand(w0.s.ctx, w.s.ctx))
    && (!Active(w.s.ctx) ==> Idle(w.s.ctx) && w.s.ctx.motorPos == w0.s.ctx.desiredPos)
  }

  lemma {:induction false} Countdown(trace: seq<World>, acts: seq<Act>, u: Setup, k: nat, n: nat)
    requires Run(trace, acts, u) && 1 <= SetupSize(u) <= 1024
    requires k + n <= |acts| && Active(trace[k].s.ctx) && CyclesInTime(trace, acts, u, k, n)
    ensures Size(trace[k]) >= 1 && Size(trace[k + n]) >= 1
    ensures Descended(trace[k], trace[k + n], Counted(trace, acts, k, n))
  {
    if n == 0 {
      RunInv(trace, acts, u, k);
      ActiveIsLeft(trace[k]);
    } else {
      Countdown(trace, acts, u, k, n - 1);
      CountdownLast(trace, acts, u, k, n - 1);
    }
  }

  lemma CountdownLast(trace: seq<World>, acts: seq<Act>, u: Setup, k: nat, n: nat)
    requires Run(trace, acts, u) && 1 <= SetupSize(u) <= 1024
    requires k + n < |acts| && acts[k + n].Cycle? && Active(trace[k].s.ctx)
    requires acts[k + n].now - trace[k].s.ctx.commandTs <= u.config.commandTimeout
    requires Size(trace[k]) >= 1 && Size(trace[k + n]) >= 1
    requires Descended(trace[k], trace[k + n], Counted(trace, acts, k, n))
    ensures Size(trace[k + n + 1]) >= 1
    ensures Descended(trace[k], trace[k + n + 1], Counted(trace, acts, k, n + 1))
  {
    var j, counted := k + n, Counted(trace, acts, k, n);
    RunInv(trace, acts, u, k);
    var counts := RunProgresses(trace, acts, u, j, trace[k]);
    DescendedStep(trace[k], trace[j], trace[j + 1], counts, counted);
  }

  /** One cycle of a command, or after it: counted or not. */
  predicate Progressed(w: World, w': World, counts: bool)
    requires Size(w) >= 1 && Size(w') >= 1
  {
    && Left(w) == Left(w') + (if counts then 1 else 0)
    && (Active(w.s.ctx) ==> (Active(w'.s.ctx) <==> Left(w') > 0))
    && (Active(w'.s.ctx) ==> Active(w.s.ctx) && SameCommand(w.s.ctx, w'.s.ctx))
    && (!Active(w'.s.ctx) ==> Idle(w'.s.ctx))
    && (!Active(w'.s.ctx) ==> w'.s.ctx.motorPos == if Active(w.s.ctx) then w.s.ctx.desiredPos else w.s.ctx.motorPos)
  }

  lemma DescendedStep(w0: World, w: World, w': World, counts: bool, counted: nat)
    requires Size(w0) >= 1 && Size(w) >= 1 && Size(w') >= 1
    requires Descended(w0, w, counted) && Progressed(w, w', counts)
    ensures Descended(w0, w', counted + if counts then 1 else 0)
  {}

  lemma RunProgresses(trace: seq<World>, acts: seq<Act>, u: Setup, j: nat, w0: World) returns (counts: bool)
    requires Run(trace, acts, u) && 1 <= SetupSize(u) <= 1024 && j < |acts| && acts[j].Cycle?
    requires Active(w0.s.ctx) && acts[j].now - w0.s.ctx.commandTs <= u.config.commandTimeout
    requires if Active(trace[j].s.ctx) then SameCommand(w0.s.ctx, trace[j].s.ctx) else trace[j].s.ctx.motorPos == w0.s.ctx.desiredPos
    ensures Size(trace[j]) >= 1 && Size(trace[j + 1]) >= 1
    ensures counts == Counts(trace[j].s.ctx, trace[j].e, acts[j].now) && Progressed(trace[j], trace[j + 1], counts)
  {
    RunInv(trace, acts, u, j);
    RunInv(trace, acts, u, j + 1);
    assert StepAt(trace, acts, j);
    CountdownStep(trace[j], acts[j].now, trace[j + 1], u);
    counts := Counts(trace[j].s.ctx, trace[j].e, acts[j].now);
  }

  lemma ActiveIsLeft(w: World)
    requires Inv(w) && Active(w.s.ctx) && Size(w) <= 1024
    ensures Left(w) > 0
  {}

  lemma CountdownStep(w: World, now: int, w': World, u: Setup)
    requires Inv(w) && Inv(w') && Follows(w, Cycle(now), w') && 1 <= Size(w) <= 1024
    requires w.s.ctx.config == u.config && w.s.ctx.motorPos != MOTOR_POS_INVALID
    requires Active(w.s.ctx) ==> now - w.s.ctx.commandTs <= u.config.commandTimeout
    ensures Progressed(w, w', Counts(w.s.ctx, w.e, now))
  {
    if Active(w.s.ctx) {
      HearingAgrees(w.s.ctx, w.e);
      CycleIsTurn(w, now);
      TurnProgress(w.s.ctx, w.e, now);
    } else {
      IdleCycle(w, now, w');
    }
  }

  /** Termination: a move that starts with the motor `d` raw units away from its target takes
      exactly ceil(d / step) cycles, start-up waits apart, threshold stops or not, unless it
      times out first; with fewer it is still under way, with as many it has landed. */
  lemma CommandTerminates(trace: seq<World>, acts: seq<Act>, u: Setup, k: nat, n: nat)
    requires Run(trace, acts, u) && 1 <= SetupSize(u) <= 1024 && k + 1 + n <= |acts|
    requires acts[k].Resume? && trace[k].s.setter.Stopped? && trace[k].s.ctx.motorPos != trace[k].s.setter.target
    requires CyclesInTime(trace, acts, u, k + 1, n)
    ensures var target := trace[k].s.setter.target;
            var needed := Moves(DistanceTo(trace[k], target), SetupSize(u));
            var counted, end := Counted(trace, acts, k + 1, n), trace[k + 1 + n].s.ctx;
            && counted <= needed
            && (Active(end) <==> counted < needed)
            && (Active(end) ==> end.desiredPos == target && end.commandTs == acts[k].now)
            && (!Active(end) ==> Idle(end) && end.motorPos == target)
  {
    RunInv(trace, acts, u, k);
    assert StepAt(trace, acts, k);
    CommitStarts(trace[k], acts[k].now);
    Countdown(trace, acts, u, k + 1, n);
  }

  /** Raw units between the motor and the nearest position that reports `target`. */
  function DistanceTo(w: World, target: Percent): int {
    if w.s.ctx.motorPos < target then E.PosRaw(target) - w.e.pos else w.e.pos - (E.PosRaw(target + 1) - 1)
  }

  lemma CommitStarts(w: World, now: int)
    requires Inv(w) && CR.Enabled(w.s, AsEvent(w, Resume(now)))
    requires w.s.setter.Stopped? && w.s.ctx.motorPos != w.s.setter.target
    ensures var w', target := Step(w, Resume(now)), w.s.setter.target;
            && Active(w'.s.ctx) && w'.s.ctx.desiredPos == target && w'.s.ctx.commandTs == now
            && Size(w') >= 1 && Left(w') == Moves(DistanceTo(w, target), Size(w))
  {
    MoveKeeps(w.s.ctx, w.e, w.s.setter.target, now);
    var r := CommitPosition(w.s.ctx, w.s.setter.target, now, true);
    assert Step(w, Resume(now)) == World(CR.After(w.s.(clock := now), r), WriteAll(w.e, r.out.tx));
  }

  predicate Late(acts: seq<Act>, k: nat, n: nat, since: int)
    requires k + n <= |acts|
  {
    forall j :: k <= j < k + n && acts[j].Cycle? ==> acts[j].now - since >= STARTUP_WAIT
  }

  /** Once the start-up wait is over nothing holds a command up: every cycle takes one off the
      measure until there is nothing left. */
  lemma {:induction false} LateCountdown(trace: seq<World>, acts: seq<Act>, u: Setup, k: nat, n: nat)
    requires Run(trace, acts, u) && 1 <= SetupSize(u) <= 1024
    requires k + n <= |acts| && Active(trace[k].s.ctx) && CyclesInTime(trace, acts, u, k, n)
    requires Late(acts, k, n, trace[k].s.ctx.commandTs)
    ensures Size(trace[k]) >= 1 && Size(trace[k + n]) >= 1
    ensures Left(trace[k + n]) == if n < Left(trace[k]) then Left(trace[k]) - n else 0
  {
    RunInv(trace, acts, u, k);
    RunInv(trace, acts, u, k + n);
    if n > 0 {
      LateCountdown(trace, acts, u, k, n - 1);
      LateLast(trace, acts, u, k, n - 1);
    }
  }

  lemma LateLast(trace: seq<World>, acts: seq<Act>, u: Setup, k: nat, n: nat)
    requires Run(trace, acts, u) && 1 <= SetupSize(u) <= 1024
    requires k + n < |acts| && Active(trace[k].s.ctx) && CyclesInTime(trace, acts, u, k, n + 1)
    requires Late(acts, k, n + 1, trace[k].s.ctx.commandTs)
    ensures Size(trace[k + n]) >= 1 && Size(trace[k + n + 1]) >= 1
    ensures Left(trace[k + n + 1]) == if Left(trace[k + n]) > 0 then Left(trace[k + n]) - 1 else 0
  {
    var j := k + n;
    Countdown(trace, acts, u, k, n);
    var _ := RunProgresses(trace, acts, u, j, trace[k]);
    LateTurnCounts(trace[j].s.ctx, trace[j].e, acts[j].now);
  }

  lemma LateTurnCounts(c: Context, e: E.Engine, now: int)
    ensures Active(c) && now - c.commandTs >= STARTUP_WAIT ==> Counts(c, e, now)
    ensures !Active(c) ==> !Counts(c, e, now)
  {}

  /** So a command whose start-up wait is over has landed after as many cycles as the measure
      says, and not before. */
  lemma NoWaitingNoDelay(trace: seq<World>, acts: seq<Act>, u: Setup, k: nat, n: nat)
    requires Run(trace, acts, u) && 1 <= SetupSize(u) <= 1024
    requires k + n <= |acts| && Active(trace[k].s.ctx) && CyclesInTime(trace, acts, u, k, n)
    requires Late(acts, k, n, trace[k].s.ctx.commandTs)
    ensures Size(trace[k]) >= 1
    ensures Active(trace[k + n].s.ctx) <==> n < Left(trace[k])
    ensures n >= Left(trace[k]) ==> Idle(trace[k + n].s.ctx) && trace[k + n].s.ctx.motorPos == trace[k].s.ctx.desiredPos
  {
    Countdown(trace, acts, u, k, n);
    LateCountdown(trace, acts, u, k, n);
  }
}
