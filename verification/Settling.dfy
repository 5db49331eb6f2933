/** A call of set_position on the closed loop, from the request to the seat at rest. */
module Settling {
  import opened CanBus
  import opened SeatController
  import opened ClosedLoop
  import CR = ControllerRun
  import E = SeatEngine
  import L = Landing

  /** Between steps `k` and `j` nobody else moves or stops the seat, and no cycle finds the
      command past its time limit. */
  predicate Undisturbed(trace: seq<World>, acts: seq<Act>, u: L.Setup, k: nat, j: nat)
    requires j <= |acts| < |trace|
  {
    forall i :: k < i < j ==> Harmless(trace[i], acts[i], u)
  }

  predicate Harmless(w: World, a: Act, u: L.Setup) {
    && (a.Cycle? || a.Resume?)
    && (a.Cycle? && Active(w.s.ctx) ==> a.now - w.s.ctx.commandTs <= u.config.commandTimeout)
  }

  /** How far a request for `target` can have come: the caller is waiting for a position or
      for its OFF frame to take effect, has given up for want of a position, or has returned
      with the command under way or the seat in place. */
  predicate Underway(w: World, target: Percent) {
    match w.s.setter
    case AwaitPosition(t, _) => t == target
    case Stopped(t) => t == target
    case Outside =>
      || w.s.result == ErrNoFrames
      || (w.s.result == Ok && Active(w.s.ctx) && w.s.ctx.desiredPos == target)
      || (w.s.result == Ok && AtRest(w, target))
  }

  predicate AtRest(w: World, target: Percent) {
    Idle(w.s.ctx) && w.s.ctx.motorPos == target
  }

  lemma RequestStarts(w: World, target: Percent)
    requires CR.Enabled(w.s, AsEvent(w, Request(target)))
    ensures Underway(Step(w, Request(target)), target)
  {}

  lemma ResumeKeeps(w: World, now: int, target: Percent)
    requires L.Inv(w) && CR.Enabled(w.s, AsEvent(w, Resume(now))) && Underway(w, target)
    ensures Underway(Step(w, Resume(now)), target)
  {}

  /** A cycle leaves the caller alone. */
  lemma CycleKeepsCaller(w: World, now: int)
    requires w.s.loop.Awake?
    ensures Step(w, Cycle(now)).s.setter == w.s.setter && Step(w, Cycle(now)).s.result == w.s.result
  {
    CR.WholeFrameIs(w.s, E.Report(E.Read(w.e)), now);
  }

  /** A cycle on a command within its time limit keeps it or ends it on its target. */
  lemma ActiveCycle(w: World, now: int)
    requires L.Inv(w) && Active(w.s.ctx) && 1 <= L.Size(w) <= 1024
    requires now - w.s.ctx.commandTs <= w.s.ctx.config.commandTimeout
    ensures var c := Step(w, Cycle(now)).s.ctx;
            if Active(c) then c.desiredPos == w.s.ctx.desiredPos else AtRest(Step(w, Cycle(now)), w.s.ctx.desiredPos)
  {
    HearingAgrees(w.s.ctx, w.e);
    CycleIsTurn(w, now);
    TurnLands(w.s.ctx, w.e, now);
  }

  lemma StepKeeps(w: World, a: Act, w': World, u: L.Setup, target: Percent)
    requires L.Inv(w) && 1 <= L.Size(w) <= 1024 && w.s.ctx.config == u.config
    requires Follows(w, a, w') && Harmless(w, a, u) && Underway(w, target)
    ensures Underway(w', target)
  {
    if a.Resume? {
      ResumeKeeps(w, a.now, target);
    } else {
      CycleKeepsCaller(w, a.now);
      if w.s.setter.Outside? && w.s.result == Ok {
        if Active(w.s.ctx) {
          ActiveCycle(w, a.now);
        } else {
          L.IdleCycle(w, a.now, w');
        }
      }
    }
  }

  lemma {:induction false} RequestStays(trace: seq<World>, acts: seq<Act>, u: L.Setup, k: nat, j: nat, target: Percent)
    requires L.Run(trace, acts, u) && 1 <= L.SetupSize(u) <= 1024
    requires k < j <= |acts| && acts[k] == Request(target) && Undisturbed(trace, acts, u, k, j)
    ensures Underway(trace[j], target)
    decreases j
  {
    if j == k + 1 {
      assert L.StepAt(trace, acts, k);
      RequestStarts(trace[k], target);
    } else {
      RequestStays(trace, acts, u, k, j - 1, target);
      StaysOneMore(trace, acts, u, j - 1, target);
    }
  }

  lemma StaysOneMore(trace: seq<World>, acts: seq<Act>, u: L.Setup, j: nat, target: Percent)
    requires L.Run(trace, acts, u) && 1 <= L.SetupSize(u) <= 1024
    requires j < |acts| && Harmless(trace[j], acts[j], u) && Underway(trace[j], target)
    ensures Underway(trace[j + 1], target)
  {
    L.RunInv(trace, acts, u, j);
    assert L.StepAt(trace, acts, j);
    StepKeeps(trace[j], acts[j], trace[j + 1], u, target);
  }

  /** A request for `target` that nobody disturbs and that does not time out: once its call
      has succeeded and no command is active any more, the seat is at `target`. */
  lemma RequestSettles(trace: seq<World>, acts: seq<Act>, u: L.Setup, k: nat, j: nat, target: Percent)
    requires L.Run(trace, acts, u) && 1 <= L.SetupSize(u) <= 1024
    requires k < j <= |acts| && acts[k] == Request(target) && Undisturbed(trace, acts, u, k, j)
    requires trace[j].s.setter.Outside? && trace[j].s.result == Ok && !Active(trace[j].s.ctx)
    ensures Idle(trace[j].s.ctx) && trace[j].s.ctx.motorPos == target == E.PosPercent(trace[j].e.pos)
    ensures trace[j].e.status == OFF
  {
    RequestStays(trace, acts, u, k, j, target);
    L.RunInv(trace, acts, u, j);
  }
}
