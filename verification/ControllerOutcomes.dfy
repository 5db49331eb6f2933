/** What each event of a run does to the controller, on the fields of frames and sessions. */
module ControllerOutcomes {
  import opened CanBus
  import opened Options
  import opened SeatController
  import opened ControllerRun

  /** A record that the controller believes: a percentage, or "not learned". */
  predicate Sane(f: Frame) {
    f.id == 0x712 && f.payload.Some? && (f.payload.value.pos <= 100 || f.payload.value.pos == 255)
  }

  /** A sane frame sets what is known of the motor, and any other changes nothing but the time. */
  lemma FrameTaken(trace: seq<Session>, es: seq<Event>, config: Config, callbackSet: bool, k: nat)
    requires Run(trace, es, config, callbackSet) && k < |es| && es[k].FrameIn?
    ensures var f, s, s' := es[k].frame, trace[k], trace[k + 1];
            if Sane(f) then
              && s'.ctx.motorPos == f.payload.value.pos && s'.ctx.motorMov == f.payload.value.mov && s'.ctx.learning == f.payload.value.learning
              && s'.accepted == s.accepted + [f.payload.value.pos]
              && s'.callbacks == s.callbacks + if s.ctx.running && callbackSet && s.ctx.motorPos != f.payload.value.pos then [f.payload.value.pos] else []
            else s' == s.(clock := es[k].now)
  {
    RunInv(trace, es, config, callbackSet, k);
    assert StepAt(trace, es, k);
  }

  /** The command is young and its motor is reported off elsewhere. */
  predicate StillStarting(c: Context, st: Status, now: int) {
    now - c.commandTs < 500 && st.mov == OFF && st.pos != c.desiredPos
  }

  /** The motor went off short of the target, and this is news. */
  predicate WentOff(c: Context, st: Status) {
    st.mov == OFF && st.pos != c.desiredPos && (c.lastCtlPos != st.pos || c.lastCtlDir != st.mov)
  }

  /** The report is on the target or beyond it. */
  predicate Arrived(c: Context, pos: uint8) {
    pos != 255 && ((c.desiredDir == INC && pos >= c.desiredPos) || (c.desiredDir == DEC && pos <= c.desiredPos))
  }

  predicate SameOrder(c: Context, c': Context) {
    c'.commandTs == c.commandTs && c'.desiredDir == c.desiredDir && c'.desiredPos == c.desiredPos
  }

  /** How the loop answers a report on an active command: it waits for a motor that is still
      starting; it sends OFF and sleeps exactly if a motor went off, off short of the target and
      not reported so before; otherwise it remembers the report and ends the command with one OFF
      exactly if it has arrived or timed out. A motor that is reported moving, or in no valid
      state, is never answered with anything but that OFF. */
  lemma FrameAnswered(trace: seq<Session>, es: seq<Event>, config: Config, callbackSet: bool, k: nat)
    requires Run(trace, es, config, callbackSet) && k < |es| && es[k].FrameIn? && Sane(es[k].frame)
    requires Active(trace[k].ctx) && trace[k].ctx.socketOpen
    ensures var c, s, s', st := trace[k].ctx, trace[k], trace[k + 1], es[k].frame.payload.value;
            var waits, over := StillStarting(c, st, es[k].now), es[k].now - c.commandTs > config.commandTimeout;
            && (s'.loop.Asleep? <==> !waits && WentOff(c, st))
            && (st.mov != OFF && Active(s'.ctx) ==> s'.tx == s.tx)
            && (waits ==> s'.tx == s.tx && SameOrder(c, s'.ctx) && s'.ctx.lastCtlPos == c.lastCtlPos && s'.ctx.lastCtlDir == c.lastCtlDir)
            && (s'.loop.Asleep? ==>
                  && s'.tx == s.tx + [Command(OFF, 0)] && SameOrder(c, s'.ctx) && s'.loop.elapsed == es[k].now - c.commandTs
                  && s'.ctx.lastCtlPos == c.lastCtlPos && s'.ctx.lastCtlDir == c.lastCtlDir)
            && (!waits && s'.loop.Awake? ==> (Idle(s'.ctx) <==> Arrived(c, st.pos) || over))
            && (!waits && s'.loop.Awake? && Active(s'.ctx) ==>
                  s'.tx == s.tx && SameOrder(c, s'.ctx) && s'.ctx.lastCtlPos == st.pos && s'.ctx.lastCtlDir == st.mov)
            && (Idle(s'.ctx) ==> s'.tx == s.tx + [Command(OFF, 0)] && s'.ctx.lastCtlPos == 255 && s'.ctx.lastCtlDir == OFF)
  {
    RunInv(trace, es, config, callbackSet, k);
    assert StepAt(trace, es, k);
  }

  /** Without an active command, or without a socket, the loop answers nothing. */
  lemma FrameUnanswered(trace: seq<Session>, es: seq<Event>, config: Config, callbackSet: bool, k: nat)
    requires Run(trace, es, config, callbackSet) && k < |es| && es[k].FrameIn?
    requires Idle(trace[k].ctx) || !trace[k].ctx.socketOpen
    ensures var c, s, s' := trace[k].ctx, trace[k], trace[k + 1];
            && s'.tx == s.tx && s'.loop.Awake? && SameOrder(c, s'.ctx)
            && s'.ctx.lastCtlPos == c.lastCtlPos && s'.ctx.lastCtlDir == c.lastCtlDir
  {
    RunInv(trace, es, config, callbackSet, k);
    assert StepAt(trace, es, k);
  }

  /** What a loop sends that wakes with the socket open: the direction desired by then at the
      configured rpm, OFF if there is none, and one more OFF if it then ends the command. */
  lemma WakeAnswered(trace: seq<Session>, es: seq<Event>, config: Config, callbackSet: bool, k: nat)
    requires Run(trace, es, config, callbackSet) && k < |es| && es[k].LoopWake?
    ensures trace[k].loop.Asleep?
    ensures var c, s, s' := trace[k].ctx, trace[k], trace[k + 1];
            var ends := Arrived(c, c.motorPos) || s.loop.elapsed > config.commandTimeout;
            var resent := [Command(c.desiredDir, config.motorRpm % 256)];
            && s'.loop.Awake? && s'.ctx.motorPos == c.motorPos && s'.ctx.motorMov == c.motorMov
            && s'.tx == s.tx + (if !c.socketOpen then [] else if ends then resent + [Command(OFF, 0)] else resent)
            && (ends ==> Idle(s'.ctx) && s'.ctx.lastCtlPos == 255 && s'.ctx.lastCtlDir == OFF)
            && (!ends ==> SameOrder(c, s'.ctx) && s'.ctx.lastCtlPos == c.motorPos && s'.ctx.lastCtlDir == c.motorMov)
  {
    RunInv(trace, es, config, callbackSet, k);
    assert StepAt(trace, es, k);
  }

  /** What a caller can rely on when it asks for a position: out of 0..100 it is refused and
      nothing happens; with the position unknown nothing happens yet; otherwise the motor is
      stopped first. */
  lemma CallAnswered(trace: seq<Session>, es: seq<Event>, config: Config, callbackSet: bool, k: nat)
    requires Run(trace, es, config, callbackSet) && k < |es| && es[k].Call?
    ensures var target, c, s, s' := es[k].target, trace[k].ctx, trace[k], trace[k + 1];
            && (target < 0 || 100 < target ==> s' == s.(result := ErrInvalid))
            && (0 <= target <= 100 && c.motorPos == 255 ==> s' == s.(setter := AwaitPosition(target, 1), result := Ok))
            && (0 <= target <= 100 && c.motorPos != 255 ==>
                  && s'.setter == Stopped(target) && Idle(s'.ctx) && s'.ctx.motorPos == c.motorPos && s'.callbacks == s.callbacks
                  && s'.tx == s.tx + if c.socketOpen then [Command(OFF, 0)] else [])
  {
    RunInv(trace, es, config, callbackSet, k);
    assert StepAt(trace, es, k);
  }

  /** The caller waits for a position through 30 sleeps of set_position and no more. */
  lemma WaitAnswered(trace: seq<Session>, es: seq<Event>, config: Config, callbackSet: bool, k: nat)
    requires Run(trace, es, config, callbackSet) && k < |es| && es[k].Wake? && trace[k].setter.AwaitPosition?
    ensures var c, s, s', target, slept := trace[k].ctx, trace[k], trace[k + 1], trace[k].setter.target, trace[k].setter.slept;
            && (c.motorPos == 255 && slept < 30 ==> s' == s.(clock := es[k].now, setter := AwaitPosition(target, slept + 1), result := Ok))
            && (c.motorPos == 255 && slept >= 30 ==> s' == s.(clock := es[k].now, setter := Outside, result := ErrNoFrames))
            && (c.motorPos != 255 ==>
                  && s'.setter == Stopped(target) && Idle(s'.ctx)
                  && s'.tx == s.tx + if c.socketOpen then [Command(OFF, 0)] else [])
  {
    RunInv(trace, es, config, callbackSet, k);
    assert StepAt(trace, es, k);
  }

  /** After its OFF the caller commits to a move towards its target, dated now and sent at the
      configured rpm; or, if the seat is there already, to nothing, with OFF again only for a
      motor that is still reported moving. */
  lemma CommitAnswered(trace: seq<Session>, es: seq<Event>, config: Config, callbackSet: bool, k: nat)
    requires Run(trace, es, config, callbackSet) && k < |es| && es[k].Wake? && trace[k].setter.Stopped?
    ensures var c, s, s', target := trace[k].ctx, trace[k], trace[k + 1], trace[k].setter.target;
            && s'.setter == Outside && s'.clock == es[k].now && s'.ctx.motorPos == c.motorPos
            && (c.motorPos == target ==>
                  && Idle(s'.ctx) && s'.result == Ok
                  && s'.tx == s.tx + if c.socketOpen && c.motorMov != OFF then [Command(OFF, 0)] else [])
            && (c.motorPos != target ==>
                  && s'.ctx.commandTs == es[k].now && s'.ctx.desiredPos == target
                  && s'.ctx.desiredDir == (if c.motorPos < target then INC else DEC)
                  && s'.tx == s.tx + (if c.socketOpen then [Command(s'.ctx.desiredDir, config.motorRpm % 256)] else [])
                  && s'.result == (if !c.socketOpen then Err else if es[k].sendOk then Ok else ErrCanIo))
  {
    RunInv(trace, es, config, callbackSet, k);
    assert StepAt(trace, es, k);
  }

  /** A stop leaves no command and sends one OFF. */
  lemma StopAnswered(trace: seq<Session>, es: seq<Event>, config: Config, callbackSet: bool, k: nat)
    requires Run(trace, es, config, callbackSet) && k < |es| && es[k].StopRequest?
    ensures var c, s, s' := trace[k].ctx, trace[k], trace[k + 1];
            && Idle(s'.ctx) && s'.ctx.motorPos == c.motorPos && s'.setter == s.setter && s'.loop == s.loop
            && s'.tx == s.tx + if c.socketOpen then [Command(OFF, 0)] else []
  {
    RunInv(trace, es, config, callbackSet, k);
    assert StepAt(trace, es, k);
  }
}
