/** Whole runs of the controller: the control thread handling frames, and one caller at a
    time inside set_position. Each may run while the other sleeps: the caller in set_position,
    the control thread between the OFF and the resend of its loop. */
module ControllerRun {
  import opened CanBus
  import opened Options
  import opened SeatController

  /** `thread` tells whether the control thread exists, `clock` is the latest time read, and
      `accepted` holds the positions of accepted frames. */
  datatype Session = Session(
    ctx: Context,
    setter: Setter,
    loop: Loop,
    thread: bool,
    clock: int,
    tx: seq<Command>,
    callbacks: seq<uint8>,
    accepted: seq<uint8>,
    result: Rc)

  datatype Event =
    | Open
    | CloseBegin
    | CloseSocket
    | CloseEnd
    | FrameIn(frame: Frame, now: int)
    | LoopWake
    | Call(target: int)
    | Wake(now: int, sendOk: bool)
    | StopRequest

  function Start(config: Config, callbackSet: bool): Session {
    Session(InitContext(config, callbackSet), Outside, Awake, false, 0, [], [], [], Ok)
  }

  /** The caller is not inside seatctrl_close, nor inside set_position. */
  predicate CallerFree(s: Session) {
    s.setter.Outside? && (s.ctx.running || !s.thread)
  }

  /** Time is read only forwards and is positive; frames are handled as long as the thread exists,
      when it is not asleep; the API has one caller at a time; seatctrl_close clears `running`,
      then closes the socket, then waits for the thread to end. */
  predicate Enabled(s: Session, e: Event) {
    match e
    case Open => s.setter.Outside? && !s.ctx.socketOpen && !s.thread
    case CloseBegin => s.setter.Outside? && s.ctx.running
    case CloseSocket => s.thread && !s.ctx.running && s.ctx.socketOpen
    case CloseEnd => s.thread && !s.ctx.running && !s.ctx.socketOpen && s.loop.Awake?
    case FrameIn(_, now) => 0 < now && s.clock <= now && s.thread && s.loop.Awake?
    case LoopWake => s.loop.Asleep?
    case Call(_) => CallerFree(s)
    case Wake(now, _) => 0 < now && s.clock <= now && !s.setter.Outside?
    case StopRequest => CallerFree(s)
  }

  /** The caller runs one stretch of set_position. */
  function After(s: Session, r: Stretch): Session {
    s.(ctx := r.out.ctx, tx := s.tx + r.out.tx, setter := r.setter, result := r.rc)
  }

  function Next(s: Session, e: Event): Session {
    match e
    case Open => s.(ctx := s.ctx.(socketOpen := true, running := true), thread := true)
    case CloseBegin => s.(ctx := s.ctx.(running := false))
    case CloseSocket => s.(ctx := s.ctx.(socketOpen := false))
    case CloseEnd => s.(thread := false)
    case FrameIn(f, now) =>
      var p := FrameBegun(s.ctx, f, now);
      s.(ctx := p.out.ctx, loop := p.loop, clock := now, tx := s.tx + p.out.tx,
         callbacks := s.callbacks + Notified(s.ctx, f),
         accepted := if HandleRc(f) == Ok then s.accepted + [f.payload.value.pos] else s.accepted)
    case LoopWake =>
      if s.loop.Awake? then s
      else
        var o := LoopResumed(s.ctx, s.loop.elapsed);
        s.(ctx := o.ctx, loop := Awake, tx := s.tx + o.tx)
    case Call(position) => After(s, RequestPosition(s.ctx, position))
    case Wake(now, sendOk) => (
      match s.setter
      case Outside => s
      case AwaitPosition(target, slept) => After(s.(clock := now), TryPosition(s.ctx, target, slept))
      case Stopped(target) => After(s.(clock := now), CommitPosition(s.ctx, target, now, sendOk))
    )
    case StopRequest =>
      var off := StopMovement(s.ctx);
      s.(ctx := off.ctx, tx := s.tx + off.tx)
  }

  predicate Follows(s: Session, e: Event, s': Session) {
    Enabled(s, e) && s' == Next(s, e)
  }

  /** The sessions that a legal run passes through. */
  ghost predicate Run(trace: seq<Session>, es: seq<Event>, config: Config, callbackSet: bool) {
    && |trace| == |es| + 1
    && trace[0] == Start(config, callbackSet)
    && forall i :: 0 <= i < |es| ==> StepAt(trace, es, i)
  }

  predicate StepAt(trace: seq<Session>, es: seq<Event>, i: nat)
    requires i < |es| < |trace|
  {
    Follows(trace[i], es[i], trace[i + 1])
  }

  lemma Extend(trace: seq<Session>, es: seq<Event>, config: Config, callbackSet: bool, e: Event)
    returns (trace': seq<Session>, es': seq<Event>)
    requires Run(trace, es, config, callbackSet) && Enabled(trace[|es|], e)
    ensures Run(trace', es', config, callbackSet)
    ensures es' == es + [e] && trace' == trace + [Next(trace[|es|], e)]
  {
    trace', es' := trace + [Next(trace[|es|], e)], es + [e];
    forall i | 0 <= i < |es'|
      ensures StepAt(trace', es', i)
    {
      assert i < |es| ==> StepAt(trace, es, i);
    }
  }

  /** A frame that reports the motor off at `pos`. */
  function OffAt(pos: uint8): Frame {
    Frame(STAT_FRAME_ID, Some(Status(pos, OFF, 1)))
  }

  // ----- what the run invariant says -----

  predicate EndsOff(tx: seq<Command>) {
    |tx| > 0 && tx[|tx| - 1].dir == OFF
  }

  function Max(a: int, b: int): int { if a < b then b else a }

  /** No accepted frame later than this may find the command still active. */
  function LifeLimit(config: Config): int { Max(config.commandTimeout, STARTUP_WAIT - 1) }

  /** The last element, `prev` preceding the first. */
  function LastOr(prev: uint8, s: seq<uint8>): uint8 {
    if s == [] then prev else s[|s| - 1]
  }

  ghost predicate Inv(s: Session) {
    && (Idle(s.ctx) || Active(s.ctx))
    && (s.ctx.motorPos <= 100 || s.ctx.motorPos == MOTOR_POS_INVALID)
    && (s.ctx.running ==> s.ctx.socketOpen) && (s.ctx.socketOpen || s.loop.Asleep? ==> s.thread)
    && (!s.setter.Outside? ==> s.ctx.running || !s.thread)
    && (s.setter.Stopped? ==> Idle(s.ctx) && (s.ctx.socketOpen ==> EndsOff(s.tx)))
    && s.ctx.motorPos == LastOr(MOTOR_POS_INVALID, s.accepted)
  }

  lemma StartInv(config: Config, callbackSet: bool)
    ensures Inv(Start(config, callbackSet))
  {}

  lemma FrameKeepsInv(s: Session, f: Frame, now: int)
    requires Inv(s) && Enabled(s, FrameIn(f, now))
    ensures Inv(Next(s, FrameIn(f, now)))
  {}

  lemma WakeKeepsInv(s: Session)
    requires Inv(s) && s.loop.Asleep?
    ensures Inv(Next(s, LoopWake))
  {}

  lemma CallKeepsInv(s: Session, position: int)
    requires Inv(s) && Enabled(s, Call(position))
    ensures Inv(Next(s, Call(position)))
  {}

  lemma CallerKeepsInv(s: Session, now: int, sendOk: bool)
    requires Inv(s) && Enabled(s, Wake(now, sendOk))
    ensures Inv(Next(s, Wake(now, sendOk)))
  {}

  lemma StepKeepsInv(s: Session, e: Event, s': Session)
    requires Inv(s) && Follows(s, e, s')
    ensures Inv(s')
  {
    match e
    case FrameIn(f, now) => FrameKeepsInv(s, f, now);
    case LoopWake => WakeKeepsInv(s);
    case Call(position) => CallKeepsInv(s, position);
    case Wake(now, sendOk) => CallerKeepsInv(s, now, sendOk);
    case _ =>
  }

  // ----- a frame handled in one go -----

  /** The session after a frame at whose sleep, if any, the caller does not get in. */
  function WholeFrame(s: Session, f: Frame, now: int): Session {
    var s' := Next(s, FrameIn(f, now));
    if s'.loop.Asleep? then Next(s', LoopWake) else s'
  }

  lemma WholeFrameIs(s: Session, f: Frame, now: int)
    requires s.loop.Awake?
    ensures var o, s' := OnFrame(s.ctx, f, now), WholeFrame(s, f, now);
            && s'.ctx == o.ctx && s'.tx == s.tx + o.tx
            && s'.loop.Awake? && s'.setter == s.setter && s'.result == s.result && s'.thread == s.thread
            && s'.accepted == Next(s, FrameIn(f, now)).accepted && s'.callbacks == Next(s, FrameIn(f, now)).callbacks
  {
    LoopUndisturbed(HandleStat(s.ctx, f), now);
  }

  /** Frames sent are only added to. */
  lemma SentBefore(s: Session, e: Event)
    ensures s.tx <= Next(s, e).tx
  {}

  lemma SentSoFar(s: Session, f: Frame, now: int)
    ensures s.tx <= WholeFrame(s, f, now).tx
  {
    SentBefore(s, FrameIn(f, now));
    SentBefore(Next(s, FrameIn(f, now)), LoopWake);
  }

  lemma WholeFrameKeepsConfig(s: Session, f: Frame, now: int)
    ensures var c, c' := s.ctx, WholeFrame(s, f, now).ctx;
            c'.config == c.config && c'.callbackSet == c.callbackSet && c'.running == c.running && c'.socketOpen == c.socketOpen
  {
    FrameKeepsConfig(s.ctx, f, now);
  }

  lemma FrameKeepsConfig(c: Context, f: Frame, now: int)
    ensures var c' := FrameBegun(c, f, now).out.ctx;
            c'.config == c.config && c'.callbackSet == c.callbackSet && c'.running == c.running && c'.socketOpen == c.socketOpen
  {}

  lemma WholeFrameKeepsInv(s: Session, f: Frame, now: int)
    requires Inv(s) && Enabled(s, FrameIn(f, now))
    ensures Inv(WholeFrame(s, f, now))
  {
    var s' := Next(s, FrameIn(f, now));
    FrameKeepsInv(s, f, now);
    if s'.loop.Asleep? {
      WakeKeepsInv(s');
    }
  }

  lemma StepKeepsConfig(s: Session, e: Event, s': Session)
    requires Follows(s, e, s')
    ensures s'.ctx.config == s.ctx.config && s'.ctx.callbackSet == s.ctx.callbackSet
  {
    match e
    case FrameIn(f, now) => FrameKeepsConfig(s.ctx, f, now);
    case LoopWake =>
    case Call(_) =>
    case Wake(_, _) =>
    case _ =>
  }

  lemma {:induction false} RunInv(trace: seq<Session>, es: seq<Event>, config: Config, callbackSet: bool, k: nat)
    requires Run(trace, es, config, callbackSet) && k < |trace|
    ensures Inv(trace[k])
    ensures trace[k].ctx.config == config && trace[k].ctx.callbackSet == callbackSet
  {
    if k == 0 {
      StartInv(config, callbackSet);
    } else {
      RunInv(trace, es, config, callbackSet, k - 1);
      assert StepAt(trace, es, k - 1);
      StepKeepsInv(trace[k - 1], es[k - 1], trace[k]);
      StepKeepsConfig(trace[k - 1], es[k - 1], trace[k]);
    }
  }

  // ----- main results -----

  /** Between any two steps of any run the controller is wholly idle or wholly active and knows
      a position it can trust. */
  lemma ControllerRunInvariant(trace: seq<Session>, es: seq<Event>, config: Config, callbackSet: bool, k: nat)
    requires Run(trace, es, config, callbackSet) && k < |trace|
    ensures Idle(trace[k].ctx) != Active(trace[k].ctx)
    ensures trace[k].ctx.motorPos <= 100 || trace[k].ctx.motorPos == MOTOR_POS_INVALID
  {
    RunInv(trace, es, config, callbackSet, k);
  }

  /** The command that the loop finds when it wakes ends exactly if its target is reached or the
      elapsed time from before the sleep is over the limit. */
  lemma WakeJudges(trace: seq<Session>, es: seq<Event>, config: Config, callbackSet: bool, k: nat)
    requires Run(trace, es, config, callbackSet) && k < |es| && es[k].LoopWake? && trace[k].loop.Asleep?
    ensures Active(trace[k + 1].ctx) <==>
            Active(trace[k].ctx) && !Reached(trace[k].ctx) && trace[k].loop.elapsed <= config.commandTimeout
    ensures !Active(trace[k + 1].ctx) ==> Idle(trace[k + 1].ctx) && (Active(trace[k].ctx) && trace[k].ctx.socketOpen ==> EndsOff(trace[k + 1].tx))
    ensures trace[k].loop.elapsed > config.commandTimeout && trace[k].ctx.socketOpen ==> EndsOff(trace[k + 1].tx)
  {
    RunInv(trace, es, config, callbackSet, k);
    assert StepAt(trace, es, k);
  }

  /** The control thread sleeps from `k` on up to the wake at `j`. */
  predicate SleepsUntil(es: seq<Event>, k: nat, j: nat)
    requires k <= j < |es|
  {
    es[j].LoopWake? && forall i :: k <= i < j ==> !es[i].LoopWake?
  }

  lemma {:induction false} SleepKeepsElapsed(trace: seq<Session>, es: seq<Event>, config: Config, callbackSet: bool, k: nat, j: nat)
    requires Run(trace, es, config, callbackSet) && k <= j < |es| && trace[k].loop.Asleep? && SleepsUntil(es, k, j)
    ensures trace[j].loop == trace[k].loop
    decreases j - k
  {
    if k < j {
      assert StepAt(trace, es, k);
      SleepKeepsElapsed(trace, es, config, callbackSet, k + 1, j);
    }
  }

  /** However the motor reports and whether or not sends succeed, an accepted frame that finds
      a command older than the limit ends it with an OFF frame; if the loop falls asleep over
      it, at its wake at the latest, by which time it ends whatever command there is. Only after
      the socket is closed does a frame leave the command alone. */
  lemma BoundedCommandLife(trace: seq<Session>, es: seq<Event>, config: Config, callbackSet: bool, k: nat, j: nat)
    requires Run(trace, es, config, callbackSet) && k < |es|
    requires es[k].FrameIn? && HandleRc(es[k].frame) == Ok
    requires Active(trace[k].ctx) && es[k].now - trace[k].ctx.commandTs > LifeLimit(config)
    ensures trace[k].ctx.socketOpen ==>
              && EndsOff(trace[k + 1].tx) && |trace[k + 1].tx| > |trace[k].tx|
              && (Idle(trace[k + 1].ctx) || trace[k + 1].loop.Asleep?)
    ensures !trace[k].ctx.socketOpen ==> Active(trace[k + 1].ctx) && trace[k + 1].tx == trace[k].tx && trace[k + 1].loop.Awake?
    ensures k < j < |es| && trace[k + 1].loop.Asleep? && SleepsUntil(es, k + 1, j) ==>
              Idle(trace[j + 1].ctx) && (trace[j].ctx.socketOpen ==> EndsOff(trace[j + 1].tx))
  {
    RunInv(trace, es, config, callbackSet, k);
    assert StepAt(trace, es, k);
    assert trace[k].ctx.socketOpen ==> IsCtlRunning(HandleStat(trace[k].ctx, es[k].frame));
    if k < j < |es| && trace[k + 1].loop.Asleep? && SleepsUntil(es, k + 1, j) {
      SleepKeepsElapsed(trace, es, config, callbackSet, k + 1, j);
      WakeJudges(trace, es, config, callbackSet, j);
    }
  }
}
