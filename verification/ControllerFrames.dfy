/** The frames that a run of the controller attempts: exactly when the motor is started without
    having been stopped right before. */
module ControllerFrames {
  import opened CanBus
  import opened SeatController
  import opened ControllerRun

  predicate Moving(c: Command) { c.dir == INC || c.dir == DEC }

  /** Every frame that starts the motor comes right after one that stops it. */
  predicate OffBeforeMove(tx: seq<Command>) {
    forall i :: 0 <= i < |tx| && Moving(tx[i]) ==> i > 0 && tx[i - 1].dir == OFF
  }

  /** A command became active while the control loop was asleep, and at `k` it still is and the
      loop still sleeps. */
  predicate Recommitted(trace: seq<Session>, k: nat)
    requires k < |trace|
  {
    && k > 0
    && trace[k - 1].loop.Asleep? && trace[k].loop.Asleep? && Active(trace[k].ctx)
    && (Active(trace[k - 1].ctx) ==> Recommitted(trace, k - 1))
  }

  /** At step `i` the loop wakes and resends a direction that the caller has just sent itself. */
  predicate Overtaken(trace: seq<Session>, es: seq<Event>, i: nat)
    requires i < |es| < |trace|
  {
    es[i].LoopWake? && trace[i].ctx.socketOpen && Recommitted(trace, i)
  }

  ghost predicate NeverOvertaken(trace: seq<Session>, es: seq<Event>, k: nat)
    requires k <= |es| < |trace|
  {
    forall i :: 0 <= i < k ==> !Overtaken(trace, es, i)
  }

  predicate AllOff(tx: seq<Command>) {
    forall i :: 0 <= i < |tx| ==> tx[i].dir == OFF
  }

  lemma OrderOfPrefix(tx: seq<Command>, more: seq<Command>)
    requires OffBeforeMove(tx + more)
    ensures OffBeforeMove(tx)
  {
    forall i | 0 <= i < |tx| && Moving(tx[i])
      ensures i > 0 && tx[i - 1].dir == OFF
    {
      assert Moving((tx + more)[i]);
      assert (tx + more)[i - 1] == tx[i - 1];
    }
  }

  lemma AppendOffs(tx: seq<Command>, more: seq<Command>)
    requires AllOff(more)
    ensures OffBeforeMove(tx + more) <==> OffBeforeMove(tx)
    ensures EndsOff(tx) || more != [] ==> EndsOff(tx + more)
  {
    if OffBeforeMove(tx + more) {
      OrderOfPrefix(tx, more);
    }
  }

  /** A move after `tx`, with OFF frames behind it. */
  lemma AppendMove(tx: seq<Command>, move: Command, offs: seq<Command>)
    requires Moving(move) && AllOff(offs)
    ensures OffBeforeMove(tx + [move] + offs) <==> OffBeforeMove(tx) && EndsOff(tx)
  {
    AppendOffs(tx + [move], offs);
    if OffBeforeMove(tx + [move]) {
      OrderOfPrefix(tx, [move]);
      assert Moving((tx + [move])[|tx|]);
      assert (tx + [move])[|tx| - 1] == tx[|tx| - 1];
    }
  }

  /** What ends the frames while the loop sleeps over an active command. */
  ghost predicate SleepEnd(trace: seq<Session>, k: nat)
    requires k < |trace|
  {
    var s := trace[k];
    s.loop.Asleep? && Active(s.ctx) && s.ctx.socketOpen ==> (EndsOff(s.tx) <==> !Recommitted(trace, k))
  }

  /** From `s` to `s'` only OFF frames are sent, one at least when the loop falls asleep, and none
      while it sleeps over a command that stays. */
  predicate OnlyOffs(s: Session, s': Session, more: seq<Command>) {
    && AllOff(more) && s'.tx == s.tx + more
    && (s'.loop.Asleep? && Active(s'.ctx) && s.loop.Asleep? ==> Active(s.ctx) && more == [])
    && (s'.loop.Asleep? && s.loop.Awake? ==> more != [])
    && (s'.loop.Asleep? && s'.ctx.socketOpen && s.loop.Asleep? ==> s.ctx.socketOpen)
  }

  lemma FrameStep(s: Session, e: Event, s': Session)
    requires Inv(s) && Follows(s, e, s') && e.FrameIn?
    ensures OnlyOffs(s, s', FrameBegun(s.ctx, e.frame, e.now).out.tx)
  {}

  lemma CallStep(s: Session, e: Event, s': Session)
    requires Inv(s) && Follows(s, e, s') && e.Call?
    ensures OnlyOffs(s, s', RequestPosition(s.ctx, e.target).out.tx)
  {}

  lemma CallerWakeStep(s: Session, e: Event, s': Session)
    requires Inv(s) && Follows(s, e, s') && e.Wake? && !(Active(s'.ctx) && !Active(s.ctx))
    ensures |s.tx| <= |s'.tx| && OnlyOffs(s, s', s'.tx[|s.tx|..])
  {}

  /** Steps other than a commit and a wake send OFF frames only. */
  lemma OtherStep(s: Session, e: Event, s': Session) returns (more: seq<Command>)
    requires Inv(s) && Follows(s, e, s') && !e.LoopWake? && !(e.Wake? && Active(s'.ctx) && !Active(s.ctx))
    ensures OnlyOffs(s, s', more)
  {
    match e
    case FrameIn(f, now) =>
      more := FrameBegun(s.ctx, f, now).out.tx;
      FrameStep(s, e, s');
    case Call(target) =>
      more := RequestPosition(s.ctx, target).out.tx;
      CallStep(s, e, s');
    case Wake(_, _) =>
      CallerWakeStep(s, e, s');
      more := s'.tx[|s.tx|..];
    case StopRequest => more := StopMovement(s.ctx).tx;
    case _ => more := [];
  }

  lemma CommitStep(s: Session, e: Event, s': Session)
    requires Inv(s) && Follows(s, e, s') && e.Wake? && Active(s'.ctx) && !Active(s.ctx)
    ensures s'.loop == s.loop && s'.ctx.socketOpen == s.ctx.socketOpen
    ensures s.ctx.socketOpen ==> EndsOff(s.tx) && s'.tx == s.tx + [Command(s'.ctx.desiredDir, s.ctx.config.motorRpm % 256)]
    ensures !s.ctx.socketOpen ==> s'.tx == s.tx
  {
    if !s.ctx.socketOpen {
      assert s.tx + [] == s.tx;
    }
  }

  lemma WakeStep(s: Session, s': Session) returns (offs: seq<Command>)
    requires Inv(s) && Follows(s, LoopWake, s')
    ensures AllOff(offs) && s'.loop.Awake?
    ensures s.ctx.socketOpen && Active(s.ctx) ==> s'.tx == s.tx + [Command(s.ctx.desiredDir, s.ctx.config.motorRpm % 256)] + offs
    ensures !(s.ctx.socketOpen && Active(s.ctx)) ==> s'.tx == s.tx + offs
  {
    var all := s'.tx[|s.tx|..];
    offs := if s.ctx.socketOpen && Active(s.ctx) then all[1..] else all;
  }

  lemma StepKeepsOrder(trace: seq<Session>, es: seq<Event>, config: Config, callbackSet: bool, k: nat)
    requires Run(trace, es, config, callbackSet) && k < |es| && SleepEnd(trace, k)
    ensures SleepEnd(trace, k + 1)
    ensures OffBeforeMove(trace[k + 1].tx) <==> OffBeforeMove(trace[k].tx) && !Overtaken(trace, es, k)
  {
    var s, e, s' := trace[k], es[k], trace[k + 1];
    assert StepAt(trace, es, k);
    RunInv(trace, es, config, callbackSet, k);
    if e.LoopWake? {
      var offs := WakeStep(s, s');
      if s.ctx.socketOpen && Active(s.ctx) {
        AppendMove(s.tx, Command(s.ctx.desiredDir, s.ctx.config.motorRpm % 256), offs);
      } else {
        AppendOffs(s.tx, offs);
      }
    } else if e.Wake? && Active(s'.ctx) && !Active(s.ctx) {
      CommitStep(s, e, s');
      if s.ctx.socketOpen {
        var move := Command(s'.ctx.desiredDir, s.ctx.config.motorRpm % 256);
        AppendMove(s.tx, move, []);
        assert s.tx + [move] + [] == s'.tx;
      }
    } else {
      var more := OtherStep(s, e, s');
      AppendOffs(s.tx, more);
      assert more == [] ==> s'.tx == s.tx;
    }
  }

  lemma {:induction false} RunOrder(trace: seq<Session>, es: seq<Event>, config: Config, callbackSet: bool, k: nat)
    requires Run(trace, es, config, callbackSet) && k < |trace|
    ensures SleepEnd(trace, k)
    ensures OffBeforeMove(trace[k].tx) <==> NeverOvertaken(trace, es, k)
  {
    if k == 0 {
      assert trace[0].tx == [];
    } else {
      RunOrder(trace, es, config, callbackSet, k - 1);
      StepKeepsOrder(trace, es, config, callbackSet, k - 1);
    }
  }

  /** In the frames attempted so far every INC or DEC comes right after an OFF, even when sends
      fail, if and only if the loop has never woken to a command that was committed during its
      sleep. */
  lemma MovesFollowStops(trace: seq<Session>, es: seq<Event>, config: Config, callbackSet: bool, k: nat)
    requires Run(trace, es, config, callbackSet) && k < |trace|
    ensures (forall i :: 0 <= i < |trace[k].tx| && Moving(trace[k].tx[i]) ==> i > 0 && trace[k].tx[i - 1].dir == OFF)
            <==> NeverOvertaken(trace, es, k)
  {
    RunOrder(trace, es, config, callbackSet, k);
  }

  // ----- the stale elapsed time -----

  /** The sleep of the loop from the frame at `k` up to `j`. */
  ghost predicate Sleeping(trace: seq<Session>, es: seq<Event>, k: nat, j: nat)
    requires k < j <= |es| < |trace|
  {
    es[k].FrameIn? && trace[k + 1].loop.Asleep? && forall i :: k < i < j ==> !es[i].LoopWake?
  }

  /** How old the command is that such a sleep finds: as old as it was if it is still the same, and
      no older than the frame if it was committed meanwhile. */
  ghost predicate Aged(trace: seq<Session>, es: seq<Event>, k: nat, j: nat)
    requires k < j <= |es| < |trace| && es[k].FrameIn?
  {
    var s, c := trace[j], trace[k].ctx;
    && s.loop == Asleep(es[k].now - c.commandTs) && s.clock >= es[k].now
    && (Active(s.ctx) ==> if Recommitted(trace, j) then s.ctx.commandTs >= es[k].now else s.ctx.commandTs == c.commandTs)
  }

  lemma FallingAsleep(s: Session, e: Event, s': Session)
    requires Follows(s, e, s') && e.FrameIn? && s'.loop.Asleep?
    ensures s.loop.Awake? && s'.loop == Asleep(e.now - s.ctx.commandTs) && s'.clock == e.now
    ensures s'.ctx.commandTs == s.ctx.commandTs
  {}

  /** While the loop sleeps, a command that stays active stays the same, and one that becomes
      active is committed at the time of its commit. */
  lemma WhileAsleep(s: Session, e: Event, s': Session)
    requires Inv(s) && Follows(s, e, s') && s.loop.Asleep? && !e.LoopWake?
    ensures s'.loop == s.loop && s'.clock >= s.clock
    ensures Active(s'.ctx) ==> if Active(s.ctx) then s'.ctx.commandTs == s.ctx.commandTs else s'.ctx.commandTs >= s.clock
  {}

  lemma {:induction false} SleepAges(trace: seq<Session>, es: seq<Event>, config: Config, callbackSet: bool, k: nat, j: nat)
    requires Run(trace, es, config, callbackSet) && k < j <= |es| && Sleeping(trace, es, k, j)
    ensures Aged(trace, es, k, j)
    decreases j
  {
    assert StepAt(trace, es, j - 1);
    if j == k + 1 {
      FallingAsleep(trace[k], es[k], trace[k + 1]);
    } else {
      SleepAges(trace, es, config, callbackSet, k, j - 1);
      RunInv(trace, es, config, callbackSet, j - 1);
      WhileAsleep(trace[j - 1], es[j - 1], trace[j]);
    }
  }

  /** A loop that falls asleep over a frame at `k` and wakes at `j` judges the command it then
      finds by the age that the command had at the frame: it ends if and only if its target is
      reached or the old command had timed out. So a command committed during the sleep, however
      young, is stopped for the age of the one before. */
  lemma StaleElapsed(trace: seq<Session>, es: seq<Event>, config: Config, callbackSet: bool, k: nat, j: nat)
    requires Run(trace, es, config, callbackSet) && k < j < |es| && Sleeping(trace, es, k, j) && es[j].LoopWake?
    requires Active(trace[j].ctx)
    ensures Recommitted(trace, j) ==> trace[j].ctx.commandTs >= es[k].now
    ensures !Recommitted(trace, j) ==> trace[j].ctx.commandTs == trace[k].ctx.commandTs
    ensures Active(trace[j + 1].ctx) <==>
            !Reached(trace[j].ctx) && es[k].now - trace[k].ctx.commandTs <= config.commandTimeout
    ensures !Active(trace[j + 1].ctx) ==> Idle(trace[j + 1].ctx) && (trace[j].ctx.socketOpen ==> EndsOff(trace[j + 1].tx))
  {
    SleepAges(trace, es, config, callbackSet, k, j);
    WakeJudges(trace, es, config, callbackSet, j);
  }

  // ----- a run in which that happens -----

  function Last(trace: seq<Session>): Session
    requires trace != []
  {
    trace[|trace| - 1]
  }

  const CONFIG := Config(8000, 80)

  /** Open and at rest at 50%, a call for 60% commits at time 2. */
  lemma Commits() returns (trace: seq<Session>, es: seq<Event>)
    ensures Run(trace, es, CONFIG, true)
    ensures var s := Last(trace);
            && s.loop == Awake && s.setter == Outside && s.clock == 2 && s.ctx.socketOpen && s.ctx.running && s.thread
            && Active(s.ctx) && s.ctx.commandTs == 2 && s.ctx.desiredDir == INC && s.ctx.desiredPos == 60
            && s.ctx.lastCtlPos == MOTOR_POS_INVALID && s.ctx.config == CONFIG
            && s.tx == [Command(OFF, 0), Command(INC, 80)]
  {
    trace, es := [Start(CONFIG, true)], [];
    trace, es := Extend(trace, es, CONFIG, true, Open);
    trace, es := Extend(trace, es, CONFIG, true, FrameIn(OffAt(50), 1));
    trace, es := Extend(trace, es, CONFIG, true, Call(60));
    trace, es := Extend(trace, es, CONFIG, true, Wake(2, true));
  }

  /** At time `at` the motor is reported off at 55%: the loop sends its OFF and sleeps. */
  lemma FallsAsleep(at: int) returns (trace: seq<Session>, es: seq<Event>)
    requires at >= 502
    ensures Run(trace, es, CONFIG, true)
    ensures var s := Last(trace);
            && s.loop == Asleep(at - 2) && s.setter == Outside && s.clock == at
            && s.ctx.socketOpen && s.ctx.running && s.ctx.motorPos == 55 && s.ctx.motorMov == OFF && s.ctx.config == CONFIG
            && s.tx == [Command(OFF, 0), Command(INC, 80), Command(OFF, 0)]
  {
    trace, es := Commits();
    trace, es := Extend(trace, es, CONFIG, true, FrameIn(OffAt(55), at));
  }

  /** Then the caller commits to 20%. */
  lemma CommitsAgain(at: int) returns (trace: seq<Session>, es: seq<Event>)
    requires at >= 502
    ensures Run(trace, es, CONFIG, true)
    ensures var s := Last(trace);
            && s.loop == Asleep(at - 2) && s.setter == Outside && s.ctx.socketOpen && s.ctx.running && s.ctx.config == CONFIG
            && Active(s.ctx) && s.ctx.commandTs == at + 100 && s.ctx.desiredDir == DEC && s.ctx.desiredPos == 20
            && s.ctx.motorPos == 55 && s.ctx.motorMov == OFF
            && s.tx == [Command(OFF, 0), Command(INC, 80), Command(OFF, 0), Command(OFF, 0), Command(DEC, 80)]
    ensures |es| > 0 && es[|es| - 1].Wake? && trace[|es| - 1].loop.Asleep? && !Active(trace[|es| - 1].ctx)
  {
    trace, es := FallsAsleep(at);
    trace, es := Extend(trace, es, CONFIG, true, Call(20));
    trace, es := Extend(trace, es, CONFIG, true, Wake(at + 100, true));
  }

  /** And the loop wakes and sends the new direction once more. If it fell asleep over a command
      that had timed out, it stops the new one at once. */
  lemma OvertakenRun(at: int) returns (trace: seq<Session>, es: seq<Event>)
    requires at >= 502
    ensures Run(trace, es, CONFIG, true)
    ensures Last(trace).tx ==
            [Command(OFF, 0), Command(INC, 80), Command(OFF, 0), Command(OFF, 0), Command(DEC, 80), Command(DEC, 80)]
            + if at - 2 > 8000 then [Command(OFF, 0)] else []
    ensures !OffBeforeMove(Last(trace).tx)
    ensures Active(Last(trace).ctx) <==> at - 2 <= 8000
  {
    trace, es := CommitsAgain(at);
    trace, es := Extend(trace, es, CONFIG, true, LoopWake);
    var tx := Last(trace).tx;
    assert Moving(tx[5]) && tx[4].dir != OFF;
  }

  /** Or the caller stops it again before the loop wakes. */
  lemma StopsAgain(at: int) returns (trace: seq<Session>, es: seq<Event>, c: nat)
    requires at >= 502
    ensures Run(trace, es, CONFIG, true)
    ensures var s := Last(trace);
            && s.loop == Asleep(at - 2) && Idle(s.ctx) && s.ctx.config == CONFIG && s.ctx.motorPos == 55
            && s.tx == [Command(OFF, 0), Command(INC, 80), Command(OFF, 0), Command(OFF, 0), Command(DEC, 80), Command(OFF, 0)]
    ensures c < |es| && es[c].Wake? && trace[c].loop.Asleep? && !Active(trace[c].ctx) && Active(trace[c + 1].ctx)
  {
    trace, es := CommitsAgain(at);
    c := |es| - 1;
    trace, es := Extend(trace, es, CONFIG, true, StopRequest);
  }

  /** A commit during the sleep does no harm by itself: if the command is stopped again before
      the loop wakes, the order of frames is kept. */
  lemma StoppedInTime(at: int) returns (trace: seq<Session>, es: seq<Event>, c: nat)
    requires at >= 502
    ensures Run(trace, es, CONFIG, true) && OffBeforeMove(Last(trace).tx) && Last(trace).loop.Awake?
    ensures c < |es| && es[c].Wake? && trace[c].loop.Asleep? && !Active(trace[c].ctx) && Active(trace[c + 1].ctx)
  {
    trace, es, c := StopsAgain(at);
    trace, es := Extend(trace, es, CONFIG, true, LoopWake);
  }
}
