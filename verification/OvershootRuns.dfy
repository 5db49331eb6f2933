/** Which setups land exactly: the runs that pass their target, and the exact condition. */
module OvershootRuns {
  import opened CanBus
  import opened Options
  import opened SeatController
  import CR = ControllerRun
  import opened ClosedLoop
  import E = SeatEngine
  import opened Landing

  /** Where the first read finds the motor. */
  function StartPercent(u: Setup): Percent {
    if u.start.None? then 42 else u.start.value
  }

  /** The raw position `k` whole steps above the start. */
  function Grid(u: Setup, k: int): int {
    E.PosRaw(StartPercent(u)) + k * SetupSize(u)
  }

  lemma GridNext(u: Setup, k: int)
    ensures Grid(u, k + 1) == Grid(u, k) + SetupSize(u)
  {
    assert (k + 1) * SetupSize(u) == k * SetupSize(u) + SetupSize(u);
  }

  /** Between the `k`-th position of the grid and the next, a step skips a percent. */
  predicate LeapAt(u: Setup, k: int) {
    && E.InRange(Grid(u, k)) && E.InRange(Grid(u, k + 1))
    && E.PosPercent(Grid(u, k + 1)) - E.PosPercent(Grid(u, k)) > 1
  }

  ghost predicate Leaps(u: Setup) {
    exists k :: LeapAt(u, k)
  }

  /** Every cycle of every active command in every run lands exactly. */
  ghost predicate AlwaysLands(u: Setup) {
    forall trace: seq<World>, acts: seq<Act>, k: nat ::
      Run(trace, acts, u) && k < |acts| && acts[k].Cycle? && Active(trace[k].s.ctx)
      ==> LandsExactly(trace[k], acts[k].now, trace[k + 1], u)
  }

  // ----- without a leap every run lands -----

  ghost predicate OnGrid(u: Setup, raw: int) {
    exists k :: raw == Grid(u, k)
  }

  /** One step from a position of the grid leads to a neighbouring one, and not past a percent. */
  lemma StepOnGrid(u: Setup, raw: int, raw': int)
    requires !Leaps(u) && OnGrid(u, raw) && E.InRange(raw) && E.InRange(raw') && SetupSize(u) >= 1
    requires raw' == raw + SetupSize(u) || raw' == raw - SetupSize(u)
    ensures OnGrid(u, raw') && -1 <= E.PosPercent(raw') - E.PosPercent(raw) <= 1
  {
    var k :| raw == Grid(u, k);
    GridNext(u, k);
    GridNext(u, k - 1);
    assert !LeapAt(u, k) && !LeapAt(u, k - 1);
    assert raw' == Grid(u, k + 1) || raw' == Grid(u, k - 1);
  }

  /** What a read does to a command short of its target. */
  lemma ReadOnGrid(c: Context, e: E.Engine, u: Setup)
    requires Coupled(c, e) && Active(c) && Past(c) < 0 && StepSize(c, e) == SetupSize(u) >= 1
    requires !Leaps(u) && OnGrid(u, e.pos)
    ensures var r := E.Read(e);
            && OnGrid(u, r.pos) && Past(Heard(c, r)) <= 0
            && (r.pos == e.pos || r.pos == e.pos + Signed(c.desiredDir, SetupSize(u)))
  {
    var r := E.Read(e);
    ReadKeeps(e);
    HeardReport(c, r);
    if r.pos != e.pos {
      StepOnGrid(u, e.pos, r.pos);
    }
  }

  lemma TurnOnGrid(c: Context, e: E.Engine, now: int, u: Setup)
    requires Coupled(c, e) && Active(c) && Past(c) < 0 && StepSize(c, e) == SetupSize(u) >= 1
    requires !Leaps(u) && OnGrid(u, e.pos)
    ensures var p := Turn(c, e, now);
            && OnGrid(u, p.e.pos) && (p.e.pos == e.pos || p.e.pos == e.pos + Signed(c.desiredDir, SetupSize(u)))
            && NotPast(c, p.e.pos) && p.c.motorPos == E.PosPercent(p.e.pos)
            && (Active(p.c) ==> SameCommand(c, p.c) && Past(p.c) < 0)
            && (!Active(p.c) ==> Idle(p.c) && p.e.status == OFF)
            && (!Active(p.c) ==> p.c.motorPos == c.desiredPos || now - c.commandTs > c.config.commandTimeout)
  {
    var r := E.Read(e);
    var h := Heard(c, r);
    ReadOnGrid(c, e, u);
    HearingAgrees(c, e);
    HeardKeeps(c, e);
    ReactionKeepsPosition(h, r, now);
    ReactionLands(h, r, now);
  }

  /** The motor is on the grid, or not yet calibrated to it, and no command has been passed. */
  ghost predicate GridInv(w: World, u: Setup) {
    && (if w.e.pos == E.POS_INVALID then u.start.None? else OnGrid(u, w.e.pos))
    && (Active(w.s.ctx) ==> Past(w.s.ctx) < 0)
  }

  lemma IdleOnGrid(w: World, now: int, u: Setup)
    requires Inv(w) && Idle(w.s.ctx) && GridInv(w, u)
    ensures GridInv(Step(w, Cycle(now)), u)
  {
    var r := E.Read(w.e);
    HearingAgrees(w.s.ctx, w.e);
    CycleIsTurn(w, now);
    HeardKeeps(w.s.ctx, w.e);
    ReactionKeepsPosition(Heard(w.s.ctx, r), r, now);
    if w.e.pos == E.POS_INVALID {
      assert r.pos == Grid(u, 0);
    } else {
      ReadKeeps(w.e);
    }
  }

  lemma ActiveOnGrid(w: World, now: int, u: Setup)
    requires Inv(w) && Active(w.s.ctx) && Size(w) == SetupSize(u) && w.s.ctx.config == u.config
    requires GridInv(w, u) && !Leaps(u)
    ensures GridInv(Step(w, Cycle(now)), u) && LandsExactly(w, now, Step(w, Cycle(now)), u)
  {
    HearingAgrees(w.s.ctx, w.e);
    CycleIsTurn(w, now);
    TurnOnGrid(w.s.ctx, w.e, now, u);
  }

  /** The caller's acts leave the motor where it is and commit only to targets ahead. */
  lemma CallerOnGrid(w: World, a: Act, u: Setup)
    requires Inv(w) && CR.Enabled(w.s, AsEvent(w, a)) && !a.Cycle? && GridInv(w, u)
    ensures GridInv(Step(w, a), u)
  {
    var w' := Step(w, a);
    AfterWrites(w.e, w'.s.tx[|w.s.tx|..]);
    CallerCommits(w, a);
  }

  lemma CallerCommits(w: World, a: Act)
    requires Inv(w) && CR.Enabled(w.s, AsEvent(w, a)) && !a.Cycle? && (Active(w.s.ctx) ==> Past(w.s.ctx) < 0)
    ensures Active(Step(w, a).s.ctx) ==> Past(Step(w, a).s.ctx) < 0
  {}

  lemma StepOfGrid(trace: seq<World>, acts: seq<Act>, u: Setup, k: nat)
    requires Run(trace, acts, u) && SetupSize(u) >= 1 && !Leaps(u) && k < |acts| && GridInv(trace[k], u)
    ensures GridInv(trace[k + 1], u)
    ensures acts[k].Cycle? && Active(trace[k].s.ctx) ==> LandsExactly(trace[k], acts[k].now, trace[k + 1], u)
  {
    RunInv(trace, acts, u, k);
    assert StepAt(trace, acts, k);
    if !acts[k].Cycle? {
      CallerOnGrid(trace[k], acts[k], u);
    } else if Active(trace[k].s.ctx) {
      ActiveOnGrid(trace[k], acts[k].now, u);
    } else {
      IdleOnGrid(trace[k], acts[k].now, u);
    }
  }

  lemma {:induction false} RunOnGrid(trace: seq<World>, acts: seq<Act>, u: Setup, k: nat)
    requires Run(trace, acts, u) && SetupSize(u) >= 1 && !Leaps(u) && k < |trace|
    ensures GridInv(trace[k], u)
  {
    if k == 0 {
      assert u.start.Some? ==> trace[0].e.pos == Grid(u, 0);
    } else {
      RunOnGrid(trace, acts, u, k - 1);
      StepOfGrid(trace, acts, u, k - 1);
    }
  }

  // ----- a leap can be reached and taken -----

  const UP := 1
  const DOWN := -1

  function FirstWorld(u: Setup): World {
    Begin(u.config, E.Init(u.start, u.delay, u.learning, u.thresholds))
  }

  /** At rest at a known position, and nobody waiting. */
  ghost predicate AtRest(w: World) {
    Inv(w) && w.s.setter.Outside? && Idle(w.s.ctx) && w.s.ctx.motorPos != MOTOR_POS_INVALID && w.s.clock >= 1
  }

  /** The first read tells the controller where the motor is. */
  lemma FirstCycle(u: Setup)
    requires SetupSize(u) >= 1
    ensures var w, w' := FirstWorld(u), Step(FirstWorld(u), Cycle(1));
            && Follows(w, Cycle(1), w') && AtRest(w') && Size(w') == SetupSize(u)
            && w'.e.pos == Grid(u, 0) && w'.s.ctx.motorPos == E.PosPercent(Grid(u, 0))
  {
    var w := FirstWorld(u);
    BeginInv(u);
    CycleInv(w, 1);
    FirstRead(u);
  }

  lemma FirstRead(u: Setup)
    ensures var w' := Step(FirstWorld(u), Cycle(1));
            && w'.s.setter.Outside? && Idle(w'.s.ctx) && w'.s.clock == 1 && w'.s.ctx.motorPos == StartPercent(u)
            && w'.s.ctx.config == u.config && w'.e.delay == u.delay && w'.e.pos == E.PosRaw(StartPercent(u))
  {}

  /** Driven towards the next percent up or down. */
  ghost predicate Departed(w: World, way: int) {
    && Inv(w) && Active(w.s.ctx) && w.s.ctx.desiredPos == w.s.ctx.motorPos + way && w.s.ctx.commandTs == w.s.clock
    && w.s.ctx.desiredDir == (if way == UP then INC else DEC) && Driven(w.s.ctx, w.e) && w.s.setter.Outside?
  }

  /** Waiting to commit to the next percent up or down. */
  ghost predicate Requested(w: World, way: int) {
    Inv(w) && w.s.clock >= 1 && 0 <= w.s.ctx.motorPos + way <= 100 && w.s.setter == Stopped(w.s.ctx.motorPos + way)
  }

  /** A request to a neighbouring percent, from rest, ... */
  lemma RequestNext(w: World, way: int)
    requires way in {UP, DOWN} && AtRest(w) && 0 <= w.s.ctx.motorPos + way <= 100
    ensures var w1 := Step(w, Request(w.s.ctx.motorPos + way));
            && Follows(w, Request(w.s.ctx.motorPos + way), w1)
            && Requested(w1, way) && SamePlace(w, w1)
  {
    var target := w.s.ctx.motorPos + way;
    var r := RequestPosition(w.s.ctx, target);
    assert Step(w, Request(target)) == World(CR.After(w.s, r), WriteAll(w.e, r.out.tx));
    RequestInv(w, target);
    AfterWrites(w.e, r.out.tx);
  }

  /** ... sets the motor going when it is resumed. */
  lemma ResumeNext(w: World, way: int)
    requires way in {UP, DOWN} && Requested(w, way)
    ensures var w2 := Step(w, Resume(w.s.clock + 1));
            && Follows(w, Resume(w.s.clock + 1), w2) && Departed(w2, way) && SamePlace(w, w2)
  {
    var target, now := w.s.ctx.motorPos + way, w.s.clock + 1;
    MoveKeeps(w.s.ctx, w.e, target, now);
    ResumeInv(w, now);
    var r := CommitPosition(w.s.ctx, target, now, true);
    assert Step(w, Resume(now)) == World(CR.After(w.s.(clock := now), r), WriteAll(w.e, r.out.tx));
  }

  /** The read that follows takes one whole step if there is room, thresholds or not. */
  lemma StepTaken(w: World, way: int, now: int)
    requires way in {UP, DOWN} && Departed(w, way) && w.s.clock <= now && E.InRange(w.e.pos + w.e.inc)
    ensures var w' := Step(w, Cycle(now));
            && Follows(w, Cycle(now), w') && Inv(w') && w'.s.clock == now && w'.s.setter.Outside?
            && w'.e.pos == w.e.pos + w.e.inc && w'.s.ctx.motorPos == E.PosPercent(w'.e.pos) && Size(w') == Size(w)
  {
    var r := E.Read(w.e);
    HearingAgrees(w.s.ctx, w.e);
    CycleIsTurn(w, now);
    CycleInv(w, now);
    CycleKeeps(w, now);
    DrivenTravels(w.e);
    HeardKeeps(w.s.ctx, w.e);
    ReactionKeepsPosition(Heard(w.s.ctx, r), r, now);
  }

  lemma DrivenTravels(e: E.Engine)
    requires e.started && E.InRange(e.pos) && (e.status == INC || e.status == DEC) && E.InRange(e.pos + e.inc)
    ensures E.Read(e).pos == e.pos + e.inc
  {}

  lemma CycleKeeps(w: World, now: int)
    requires w.s.loop.Awake?
    ensures Step(w, Cycle(now)).s.clock == now && Step(w, Cycle(now)).s.setter == w.s.setter
  {
    CR.WholeFrameIs(w.s, E.Report(E.Read(w.e)), now);
  }

  /** If it is read late enough, and the step covers a percent, the command ends there. */
  lemma StepRests(w: World, way: int, now: int)
    requires way in {UP, DOWN} && Departed(w, way) && now == w.s.clock + STARTUP_WAIT
    requires E.InRange(w.e.pos + w.e.inc) && Size(w) > 1024
    ensures AtRest(Step(w, Cycle(now)))
  {
    StepTaken(w, way, now);
    StepEnds(w, way, now);
  }

  lemma StepEnds(w: World, way: int, now: int)
    requires way in {UP, DOWN} && Departed(w, way) && now == w.s.clock + STARTUP_WAIT
    requires E.InRange(w.e.pos + w.e.inc) && Size(w) > 1024
    ensures Idle(Step(w, Cycle(now)).s.ctx)
  {
    HearingAgrees(w.s.ctx, w.e);
    CycleIsTurn(w, now);
    StepReaches(w.s.ctx, w.e, now);
  }

  lemma StepReaches(c: Context, e: E.Engine, now: int)
    requires Coupled(c, e) && Active(c) && Driven(c, e) && e.status != OFF && E.InRange(e.pos + e.inc) && StepSize(c, e) > 1024
    requires c.desiredPos == c.motorPos + (if c.desiredDir == INC then 1 else -1) && now - c.commandTs == STARTUP_WAIT
    ensures Idle(Turn(c, e, now).c)
  {
    var r := E.Read(e);
    HearingAgrees(c, e);
    HeardKeeps(c, e);
    DrivenTravels(e);
    HeardReport(c, r);
    PercentCovered(e.pos, StepSize(c, e));
    FinishKeepsCoupled(Heard(c, r), r, now);
  }

  lemma PercentCovered(raw: int, s: int)
    requires s >= 1024
    ensures E.PosPercent(raw + s) >= E.PosPercent(raw) + 1 && E.PosPercent(raw - s) <= E.PosPercent(raw) - 1
  {}

  function Last(trace: seq<World>): World
    requires trace != []
  {
    trace[|trace| - 1]
  }

  /** The motor has not moved from `w` to `w'`. */
  predicate SamePlace(w: World, w': World) {
    w'.e.pos == w.e.pos && w'.s.ctx.motorPos == w.s.ctx.motorPos && Size(w') == Size(w)
  }

  lemma RequestRun(trace: seq<World>, acts: seq<Act>, u: Setup, way: int) returns (trace': seq<World>, acts': seq<Act>)
    requires Run(trace, acts, u) && way in {UP, DOWN} && AtRest(Last(trace)) && 0 <= Last(trace).s.ctx.motorPos + way <= 100
    ensures Run(trace', acts', u) && |acts'| == |acts| + 1
    ensures Requested(Last(trace'), way) && SamePlace(Last(trace), Last(trace'))
  {
    var w := Last(trace);
    RequestNext(w, way);
    trace', acts' := Extend(trace, acts, u, Request(w.s.ctx.motorPos + way), Step(w, Request(w.s.ctx.motorPos + way)));
  }

  lemma ResumeRun(trace: seq<World>, acts: seq<Act>, u: Setup, way: int) returns (trace': seq<World>, acts': seq<Act>)
    requires Run(trace, acts, u) && way in {UP, DOWN} && Requested(Last(trace), way)
    ensures Run(trace', acts', u) && |acts'| == |acts| + 1
    ensures Departed(Last(trace'), way) && SamePlace(Last(trace), Last(trace'))
  {
    var w := Last(trace);
    ResumeNext(w, way);
    trace', acts' := Extend(trace, acts, u, Resume(w.s.clock + 1), Step(w, Resume(w.s.clock + 1)));
  }

  /** The cycle comes `delay` after the commit. */
  lemma CycleRun(trace: seq<World>, acts: seq<Act>, u: Setup, way: int, delay: nat) returns (trace': seq<World>, acts': seq<Act>)
    requires Run(trace, acts, u) && way in {UP, DOWN} && Departed(Last(trace), way) && E.InRange(Last(trace).e.pos + way * Size(Last(trace)))
    ensures Run(trace', acts', u) && |acts'| == |acts| + 1 && acts'[|acts|].Cycle? && trace'[|acts|] == Last(trace)
    ensures var w, w' := Last(trace), Last(trace');
            && w'.e.pos == w.e.pos + way * Size(w) && w'.s.ctx.motorPos == E.PosPercent(w'.e.pos) && Size(w') == Size(w)
            && (delay == STARTUP_WAIT && Size(w) > 1024 ==> AtRest(w'))
  {
    var w := Last(trace);
    var now := w.s.clock + delay;
    assert w.e.inc == way * Size(w);
    StepTaken(w, way, now);
    if delay == STARTUP_WAIT && Size(w) > 1024 {
      StepRests(w, way, now);
    }
    trace', acts' := Extend(trace, acts, u, Cycle(now), Step(w, Cycle(now)));
  }

  /** From rest, a request for the next percent, its commit, and the cycle that takes the step. */
  lemma Advance(trace: seq<World>, acts: seq<Act>, u: Setup, way: int, delay: nat)
    returns (trace': seq<World>, acts': seq<Act>)
    requires Run(trace, acts, u) && way in {UP, DOWN} && AtRest(trace[|acts|])
    requires var w := trace[|acts|]; 0 <= w.s.ctx.motorPos + way <= 100 && E.InRange(w.e.pos + way * Size(w))
    ensures Run(trace', acts', u) && |acts'| == |acts| + 3 && acts'[|acts| + 2].Cycle?
    ensures var w, w2, w3 := trace[|acts|], trace'[|acts| + 2], trace'[|acts| + 3];
            && Active(w2.s.ctx) && w2.s.ctx.desiredPos == w.s.ctx.motorPos + way
            && w2.s.ctx.desiredDir == (if way == UP then INC else DEC)
            && w3.e.pos == w.e.pos + way * Size(w) && w3.s.ctx.motorPos == E.PosPercent(w3.e.pos) && Size(w3) == Size(w)
            && (delay == STARTUP_WAIT && Size(w) > 1024 ==> AtRest(w3))
  {
    trace', acts' := RequestRun(trace, acts, u, way);
    trace', acts' := ResumeRun(trace', acts', u, way);
    trace', acts' := CycleRun(trace', acts', u, way, delay);
  }

  /** With steps of more than a percent the motor can be brought to rest at every position of the
      grid. */
  lemma {:induction false} RestsAt(u: Setup, way: int, n: nat) returns (trace: seq<World>, acts: seq<Act>)
    requires SetupSize(u) >= 1 && (n > 0 ==> SetupSize(u) > 1024) && way in {UP, DOWN} && E.InRange(Grid(u, way * n))
    ensures Run(trace, acts, u) && |acts| == 3 * n + 1 && AtRest(trace[|acts|])
    ensures Size(trace[|acts|]) == SetupSize(u) && trace[|acts|].e.pos == Grid(u, way * n)
    ensures trace[|acts|].s.ctx.motorPos == E.PosPercent(Grid(u, way * n))
  {
    if n == 0 {
      assert way * n == 0;
      trace, acts := FirstRun(u);
    } else {
      GridBetween(u, way, n);
      trace, acts := RestsAt(u, way, n - 1);
      trace, acts := RestsNext(trace, acts, u, way);
    }
  }

  lemma FirstRun(u: Setup) returns (trace: seq<World>, acts: seq<Act>)
    requires SetupSize(u) >= 1
    ensures Run(trace, acts, u) && |acts| == 1 && AtRest(trace[1]) && Size(trace[1]) == SetupSize(u)
    ensures trace[1].e.pos == Grid(u, 0) && trace[1].s.ctx.motorPos == E.PosPercent(Grid(u, 0))
  {
    FirstCycle(u);
    trace, acts := Extend([FirstWorld(u)], [], u, Cycle(1), Step(FirstWorld(u), Cycle(1)));
  }

  lemma RestsNext(trace: seq<World>, acts: seq<Act>, u: Setup, way: int) returns (trace': seq<World>, acts': seq<Act>)
    requires Run(trace, acts, u) && way in {UP, DOWN} && AtRest(trace[|acts|]) && Size(trace[|acts|]) > 1024
    requires E.InRange(trace[|acts|].e.pos + way * Size(trace[|acts|]))
    ensures Run(trace', acts', u) && |acts'| == |acts| + 3 && AtRest(trace'[|acts'|])
    ensures var w, w' := trace[|acts|], trace'[|acts'|];
            w'.e.pos == w.e.pos + way * Size(w) && w'.s.ctx.motorPos == E.PosPercent(w'.e.pos) && Size(w') == Size(w)
  {
    RoomAt(trace[|acts|], way);
    trace', acts' := Advance(trace, acts, u, way, STARTUP_WAIT);
  }

  lemma GridBetween(u: Setup, way: int, n: nat)
    requires SetupSize(u) >= 1 && n > 0 && way in {UP, DOWN} && E.InRange(Grid(u, way * n))
    ensures E.InRange(Grid(u, way * (n - 1))) && Grid(u, way * n) == Grid(u, way * (n - 1)) + way * SetupSize(u)
  {
    if way == UP {
      assert way * n == n && way * (n - 1) == n - 1;
      GridNext(u, n - 1);
      GridGrows(u, 0, n - 1);
    } else {
      var below: int := 0 - n;
      assert way * n == below && way * (n - 1) == below + 1;
      GridNext(u, below);
      GridGrows(u, below + 1, 0);
    }
    assert E.InRange(Grid(u, 0)) by { assert Grid(u, 0) == E.PosRaw(StartPercent(u)); }
  }

  lemma GridGrows(u: Setup, a: int, b: int)
    requires SetupSize(u) >= 1 && a <= b
    ensures Grid(u, a) <= Grid(u, b)
  {
    assert b * SetupSize(u) - a * SetupSize(u) == (b - a) * SetupSize(u) >= 0;
  }

  /** Where a whole step of more than a percent fits, so does the next percent. */
  lemma RoomAt(w: World, way: int)
    requires way in {UP, DOWN} && AtRest(w) && Size(w) > 1024 && E.InRange(w.e.pos + way * Size(w))
    ensures 0 <= w.s.ctx.motorPos + way <= 100
  {}

  /** From any start with room, a request for the next percent is passed by what one step covers
      beyond it: downwards by the overshoot bound exactly. */
  lemma OvershootRun(u: Setup, way: int) returns (trace: seq<World>, acts: seq<Act>)
    requires SetupSize(u) >= 1 && way in {UP, DOWN} && 0 <= StartPercent(u) + way <= 100 && E.InRange(Grid(u, way))
    ensures Run(trace, acts, u) && |acts| == 4 && acts[3].Cycle? && Active(trace[3].s.ctx)
    ensures trace[3].s.ctx.desiredPos == StartPercent(u) + way
    ensures trace[3].s.ctx.desiredDir == if way == UP then INC else DEC
    ensures trace[4].e.pos == Grid(u, way) && trace[4].s.ctx.motorPos == E.PosPercent(Grid(u, way))
    ensures way == DOWN ==> trace[3].s.ctx.desiredPos - trace[4].s.ctx.motorPos == Overshoot(SetupSize(u))
  {
    trace, acts := RestsAt(u, way, 0);
    assert Grid(u, way) == Grid(u, way * 0) + way * SetupSize(u);
    trace, acts := Advance(trace, acts, u, way, 1);
    RoundedDown(StartPercent(u), SetupSize(u));
  }

  lemma RoundedDown(q: int, s: int)
    ensures q - 1 - E.PosPercent(E.PosRaw(q) - s) == Overshoot(s)
  {}

  /** A leap up from the `k`-th position of the grid, if that is not below the start, is taken on
      the way up; one below it on the way down. */
  lemma LeapTaken(u: Setup, k: int) returns (trace: seq<World>, acts: seq<Act>, i: nat)
    requires SetupSize(u) >= 1 && LeapAt(u, k)
    ensures Run(trace, acts, u) && i < |acts| && acts[i].Cycle? && Active(trace[i].s.ctx)
    ensures !NotPast(trace[i].s.ctx, trace[i + 1].e.pos)
  {
    GridNext(u, k);
    if k >= 0 {
      trace, acts := RestsAt(u, UP, k);
      i := |acts| + 2;
      trace, acts := Advance(trace, acts, u, UP, 1);
    } else {
      assert DOWN * (-k - 1) == k + 1;
      trace, acts := RestsAt(u, DOWN, -k - 1);
      i := |acts| + 2;
      trace, acts := Advance(trace, acts, u, DOWN, 1);
    }
  }

  // ----- the exact conditions -----

  /** A setup lands exactly in every run if and only if no step from one position of its grid to
      the next skips a percent. */
  lemma LandsExactlyIff(u: Setup)
    requires SetupSize(u) >= 1
    ensures AlwaysLands(u) <==> !Leaps(u)
  {
    if Leaps(u) {
      var k :| LeapAt(u, k);
      var trace, acts, i := LeapTaken(u, k);
      assert !LandsExactly(trace[i], acts[i].now, trace[i + 1], u);
    } else {
      forall trace: seq<World>, acts: seq<Act>, k: nat | Run(trace, acts, u) && k < |acts| && acts[k].Cycle? && Active(trace[k].s.ctx)
        ensures LandsExactly(trace[k], acts[k].now, trace[k + 1], u)
      {
        RunOnGrid(trace, acts, u, k);
        StepOfGrid(trace, acts, u, k);
      }
    }
  }

  /** One percent over the range that the motor covers. */
  const WHOLE_RANGE := 101 * E.POS_SHIFT_VAL

  /** So, whatever the rest of the setup, all runs from all starts land exactly if and only if
      the step is at most one percent or too long to be taken at all. */
  lemma LandsFromEverywhereIff(u: Setup)
    requires SetupSize(u) >= 1
    ensures (forall start :: AlwaysLands(u.(start := start))) <==> SetupSize(u) <= 1024 || SetupSize(u) >= WHOLE_RANGE
  {
    if 1024 < SetupSize(u) < WHOLE_RANGE {
      var down := SetupSize(u) <= E.PosRaw(100);
      var v := u.(start := Some(if down then 100 else 0));
      assert LeapAt(v, if down then -1 else 0);
      LandsExactlyIff(v);
    } else {
      forall start ensures AlwaysLands(u.(start := start)) {
        var v := u.(start := start);
        forall k ensures !LeapAt(v, k) {
          GridNext(v, k);
        }
        LandsExactlyIff(v);
      }
    }
  }

  /** For a single start a step may be more than one percent: from 0, steps of 1028 raw units report
      one percent more each time. */
  lemma LongStepLands(u: Setup)
    requires u.start == Some(0) && u.delay == 211 && u.config.motorRpm == 30
    ensures SetupSize(u) == 1028 && AlwaysLands(u)
  {
    forall k ensures !LeapAt(u, k) {
      assert Grid(u, k) == 1028 * k && Grid(u, k + 1) == 1028 * (k + 1);
      OnePercentEach(k);
      OnePercentEach(k + 1);
    }
    LandsExactlyIff(u);
  }

  lemma OnePercentEach(k: int)
    ensures E.InRange(1028 * k) ==> E.PosPercent(1028 * k) == k
  {
    assert 1028 * k == 1024 * k + 4 * k;
  }
}
