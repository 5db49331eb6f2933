/** The seat controller of seat_controller.cc. The functions of this module say what each
    C function does to the context; the class at its end performs the same updates field
    by field and is proved to agree with them. */
module SeatController {
  import opened CanBus

  /** How long the controller waits for the motor to start, in ms. */
  const STARTUP_WAIT := 500

  /** Number of 100 ms sleeps that set_position spends waiting for a first valid position. */
  const POSITION_RETRIES := 30

  datatype Rc = Ok | Err | ErrCanIo | ErrInvalid | ErrNoFrames

  datatype Config = Config(commandTimeout: int, motorRpm: int)

  /** seatctrl_context_t together with the file statics last_ctl_pos and last_ctl_dir. */
  datatype Context = Context(
    config: Config,
    socketOpen: bool,
    running: bool,
    callbackSet: bool,
    commandTs: int,
    desiredPos: uint8,
    desiredDir: Direction,
    motorPos: uint8,
    motorMov: Direction,
    learning: uint8,
    lastCtlPos: uint8,
    lastCtlDir: Direction)

  /** A context and the frames handed to write() on the way to it. */
  datatype Outcome = Outcome(ctx: Context, tx: seq<Command>)

  /** seatctrl_init_ctx followed by installing (or not) an event callback. */
  function InitContext(config: Config, callbackSet: bool): Context {
    Context(config, false, false, callbackSet, 0, MOTOR_POS_INVALID, OFF,
            MOTOR_POS_INVALID, INV, 2, MOTOR_POS_INVALID, OFF)
  }

  predicate Idle(c: Context) {
    c.commandTs == 0 && c.desiredDir == OFF && c.desiredPos == MOTOR_POS_INVALID
  }

  predicate Active(c: Context) {
    c.commandTs > 0 && (c.desiredDir == INC || c.desiredDir == DEC) && c.desiredPos <= 100
  }

  predicate IsCtlRunning(c: Context) {
    c.socketOpen && c.commandTs > 0 && c.desiredDir != OFF && c.desiredPos != MOTOR_POS_INVALID
  }

  /** What seatctrl_send_cmd1 puts on the bus: nothing without a socket, otherwise one frame
      (whether or not write() then succeeds). The rpm argument is narrowed to a byte. */
  function Sent(c: Context, dir: Direction, rpm: int): seq<Command> {
    if c.socketOpen then [Command(dir, rpm % 256)] else []
  }

  function StopMovement(c: Context): Outcome {
    Outcome(c.(desiredPos := MOTOR_POS_INVALID, desiredDir := OFF, commandTs := 0), Sent(c, OFF, 0))
  }

  predicate Plausible(st: Status) {
    st.pos <= 100 || st.pos == MOTOR_POS_INVALID
  }

  function HandleRc(f: Frame): Rc {
    if f.id != STAT_FRAME_ID then ErrInvalid
    else if f.payload.None? then Err
    else if Plausible(f.payload.value) then Ok
    else ErrInvalid
  }

  /** handle_secu_stat: the context after a frame ... */
  function HandleStat(c: Context, f: Frame): Context {
    if HandleRc(f) == Ok
    then c.(motorPos := f.payload.value.pos, motorMov := f.payload.value.mov, learning := f.payload.value.learning)
    else c
  }

  /** ... and the Motor1Pos notifications it raises. */
  function Notified(c: Context, f: Frame): seq<uint8> {
    if HandleRc(f) == Ok && c.running && c.callbackSet && c.motorPos != f.payload.value.pos
    then [f.payload.value.pos]
    else []
  }

  /** Start-up phase: the command is young and the motor has not been seen moving. */
  predicate StartupWait(c: Context, elapsed: int) {
    elapsed < STARTUP_WAIT && c.motorMov == OFF && c.motorPos != c.desiredPos
  }

  predicate Reached(c: Context) {
    c.motorPos != MOTOR_POS_INVALID &&
    ((c.desiredDir == INC && c.motorPos >= c.desiredPos) ||
     (c.desiredDir == DEC && c.motorPos <= c.desiredPos))
  }

  /** The report differs from the one the loop last looked at. */
  predicate Changed(c: Context) {
    c.lastCtlPos != c.motorPos || c.lastCtlDir != c.motorMov
  }

  /** The motor went off short of the target and the loop has not reacted to that yet. */
  predicate NeedsResend(c: Context) {
    Changed(c) && c.motorMov == OFF && c.motorMov != c.desiredDir && c.motorPos != c.desiredPos
  }

  function Resent(c: Context): seq<Command> {
    if NeedsResend(c) then Sent(c, OFF, 0) + Sent(c, c.desiredDir, c.config.motorRpm) else []
  }

  /** Where the control thread is: between two frames, or asleep in the control loop between its
      OFF frame and the resend, with the elapsed time it computed before. */
  datatype Loop = Awake | Asleep(elapsed: int)

  /** One stretch of a control-loop turn, up to its sleep or its end. */
  datatype Part = Part(out: Outcome, loop: Loop)

  /** The end of a turn: remember the report, then end a command that has arrived or timed out. */
  function Judged(c: Context, elapsed: int): Outcome {
    var seen := c.(lastCtlPos := c.motorPos, lastCtlDir := c.motorMov);
    if Reached(c) || elapsed > c.config.commandTimeout then
      var off := StopMovement(seen);
      Outcome(off.ctx.(lastCtlPos := MOTOR_POS_INVALID, lastCtlDir := OFF), off.tx)
    else
      Outcome(seen, [])
  }

  /** seatctrl_control_loop up to its sleep, or all of it if it does not sleep. */
  function LoopBegun(c: Context, now: int): Part {
    var elapsed := now - c.commandTs;
    if !IsCtlRunning(c) || StartupWait(c, elapsed) then Part(Outcome(c, []), Awake)
    else if NeedsResend(c) then Part(Outcome(c, Sent(c, OFF, 0)), Asleep(elapsed))
    else Part(Judged(c, elapsed), Awake)
  }

  /** The loop after its sleep: it sends whatever direction is desired by now and goes on with
      the elapsed time from before. */
  function LoopResumed(c: Context, elapsed: int): Outcome {
    var o := Judged(c, elapsed);
    o.(tx := Sent(c, c.desiredDir, c.config.motorRpm) + o.tx)
  }

  /** A whole turn with nobody getting in at the sleep. */
  function ControlLoop(c: Context, now: int): Outcome {
    if !IsCtlRunning(c) || StartupWait(c, now - c.commandTs) then Outcome(c, [])
    else
      var o := Judged(c, now - c.commandTs);
      o.(tx := Resent(c) + o.tx)
  }

  lemma LoopUndisturbed(c: Context, now: int)
    ensures var p := LoopBegun(c, now);
            ControlLoop(c, now) ==
            if p.loop.Awake? then p.out
            else var o := LoopResumed(p.out.ctx, p.loop.elapsed); o.(tx := p.out.tx + o.tx)
  {}

  predicate Accepted(f: Frame) {
    f.id == STAT_FRAME_ID && HandleRc(f) == Ok
  }

  /** One turn of seatctrl_threadFunc on a frame that was read successfully, up to the sleep. */
  function FrameBegun(c: Context, f: Frame, now: int): Part {
    if Accepted(f) then LoopBegun(HandleStat(c, f), now) else Part(Outcome(c, []), Awake)
  }

  /** The whole turn with nobody getting in at the sleep. */
  function OnFrame(c: Context, f: Frame, now: int): Outcome {
    if Accepted(f) then ControlLoop(HandleStat(c, f), now) else Outcome(c, [])
  }

  /** Where the caller of set_position is: outside it, asleep waiting for a valid position
      (`slept` sleeps so far), or asleep after its OFF frame. */
  datatype Setter = Outside | AwaitPosition(target: Percent, slept: nat) | Stopped(target: Percent)

  /** One stretch of set_position between sleeps; `rc` is its result once back Outside. */
  datatype Stretch = Stretch(out: Outcome, setter: Setter, rc: Rc)

  /** set_position from its check of the motor position to its next sleep or return. */
  function TryPosition(c: Context, target: Percent, slept: nat): Stretch {
    if c.motorPos == MOTOR_POS_INVALID then
      if slept < POSITION_RETRIES then Stretch(Outcome(c, []), AwaitPosition(target, slept + 1), Ok)
      else Stretch(Outcome(c, []), Outside, ErrNoFrames)
    else
      Stretch(StopMovement(c), Stopped(target), Ok)
  }

  /** set_position from its entry. */
  function RequestPosition(c: Context, position: int): Stretch {
    if position < 0 || position > 100 then Stretch(Outcome(c, []), Outside, ErrInvalid)
    else TryPosition(c, position, 0)
  }

  function SendRc(c: Context, sendOk: bool): Rc {
    if !c.socketOpen then Err else if sendOk then Ok else ErrCanIo
  }

  /** set_position after the OFF frame and the 100 ms sleep. */
  function CommitPosition(c: Context, target: Percent, now: int, sendOk: bool): Stretch {
    if c.motorPos == target then
      if c.motorMov != OFF then Stretch(StopMovement(c), Outside, Ok)
      else Stretch(Outcome(c.(desiredDir := OFF, desiredPos := MOTOR_POS_INVALID, commandTs := 0), []), Outside, Ok)
    else
      var dir := if c.motorPos < target then INC else DEC;
      Stretch(Outcome(c.(commandTs := now, desiredDir := dir, desiredPos := target), Sent(c, dir, c.config.motorRpm)),
              Outside, SendRc(c, sendOk))
  }

  /** CanError notifications of a send: one if there is a callback and the write() fails. */
  function Errors(c: Context, sent: seq<Command>, ok: bool): nat {
    if sent != [] && c.callbackSet && !ok then 1 else 0
  }

  /** The context updated in place. `tx` is the socket's outgoing traffic, `callbacks` the
      Motor1Pos notifications, `canErrors` the number of CanError notifications; `sendOk`
      arguments say whether a write() succeeds. */
  class Controller {
    const config: Config
    var socketOpen: bool
    var running: bool
    var callbackSet: bool
    var commandTs: int
    var desiredPos: uint8
    var desiredDir: Direction
    var motorPos: uint8
    var motorMov: Direction
    var learning: uint8
    var lastCtlPos: uint8
    var lastCtlDir: Direction
    var tx: seq<Command>
    var callbacks: seq<uint8>
    var canErrors: nat

    function View(): Context
      reads this
    {
      Context(config, socketOpen, running, callbackSet, commandTs, desiredPos, desiredDir,
              motorPos, motorMov, learning, lastCtlPos, lastCtlDir)
    }

    constructor (config: Config, callbackSet: bool)
      ensures View() == InitContext(config, callbackSet) && tx == [] && callbacks == [] && canErrors == 0
    {
      this.config := config;
      this.callbackSet := callbackSet;
      socketOpen, running := false, false;
      commandTs, desiredPos, desiredDir := 0, MOTOR_POS_INVALID, OFF;
      motorPos, motorMov, learning := MOTOR_POS_INVALID, INV, 2;
      lastCtlPos, lastCtlDir := MOTOR_POS_INVALID, OFF;
      tx, callbacks, canErrors := [], [], 0;
    }

    method SendCmd1(dir: Direction, rpm: int, sendOk: bool) returns (rc: Rc)
      modifies this`tx, this`canErrors
      ensures tx == old(tx) + Sent(View(), dir, rpm)
      ensures canErrors == old(canErrors) + Errors(View(), Sent(View(), dir, rpm), sendOk)
      ensures rc == SendRc(View(), sendOk)
    {
      if !socketOpen {
        return Err;
      }
      tx := tx + [Command(dir, rpm % 256)];
      if !sendOk {
        if callbackSet {
          canErrors := canErrors + 1;
        }
        return ErrCanIo;
      }
      return Ok;
    }

    method Stop(sendOk: bool) returns (rc: Rc)
      modifies this`tx, this`canErrors, this`desiredPos, this`desiredDir, this`commandTs
      ensures View() == StopMovement(old(View())).ctx
      ensures tx == old(tx) + StopMovement(old(View())).tx
      ensures canErrors == old(canErrors) + Errors(old(View()), StopMovement(old(View())).tx, sendOk)
      ensures Idle(View())
      ensures rc == SendRc(View(), sendOk)
    {
      rc := SendCmd1(OFF, 0, sendOk);
      desiredPos := MOTOR_POS_INVALID;
      desiredDir := OFF;
      commandTs := 0;
    }

    method HandleSecuStat(f: Frame) returns (rc: Rc)
      modifies this`motorPos, this`motorMov, this`learning, this`callbacks
      ensures rc == HandleRc(f)
      ensures View() == HandleStat(old(View()), f)
      ensures callbacks == old(callbacks) + Notified(old(View()), f)
    {
      if f.id != STAT_FRAME_ID {
        return ErrInvalid;
      }
      if f.payload.None? {
        return Err;
      }
      var stat := f.payload.value;
      if stat.pos <= 100 || stat.pos == MOTOR_POS_INVALID {
        if running && callbackSet && motorPos != stat.pos {
          callbacks := callbacks + [stat.pos];
        }
        motorMov := stat.mov;
        learning := stat.learning;
        motorPos := stat.pos;
        return Ok;
      }
      return ErrInvalid;
    }

    /** Both endings of a command: stop the motor and forget the last report looked at. */
    method Conclude(stopOk: bool)
      modifies this`tx, this`canErrors, this`desiredPos, this`desiredDir, this`commandTs, this`lastCtlPos, this`lastCtlDir
      ensures View() == StopMovement(old(View())).ctx.(lastCtlPos := MOTOR_POS_INVALID, lastCtlDir := OFF)
      ensures tx == old(tx) + Sent(old(View()), OFF, 0)
      ensures canErrors == old(canErrors) + Errors(old(View()), Sent(old(View()), OFF, 0), stopOk)
    {
      var _ := Stop(stopOk);
      lastCtlDir := OFF;
      lastCtlPos := MOTOR_POS_INVALID;
    }

    /** Reached the target, or out of time. */
    method Judge(elapsed: int, stopOk: bool)
      requires lastCtlPos == motorPos && lastCtlDir == motorMov
      modifies this`tx, this`canErrors, this`desiredPos, this`desiredDir, this`commandTs, this`lastCtlPos, this`lastCtlDir
      ensures View() == Judged(old(View()), elapsed).ctx
      ensures tx == old(tx) + Judged(old(View()), elapsed).tx
      ensures canErrors == old(canErrors) + Errors(old(View()), Judged(old(View()), elapsed).tx, stopOk)
    {
      if motorPos != MOTOR_POS_INVALID &&
         ((desiredDir == INC && motorPos >= desiredPos) || (desiredDir == DEC && motorPos <= desiredPos)) {
        Conclude(stopOk);
      } else if elapsed > config.commandTimeout {
        Conclude(stopOk);
      }
    }

    /** The control loop up to the sleep in its reaction to a motor that went off early. */
    method LoopBegin(now: int, offOk: bool, stopOk: bool) returns (loop: Loop)
      modifies this`tx, this`canErrors, this`desiredPos, this`desiredDir, this`commandTs, this`lastCtlPos, this`lastCtlDir
      ensures Part(Outcome(View(), tx), loop) ==
              var p := LoopBegun(old(View()), now); p.(out := p.out.(tx := old(tx) + p.out.tx))
      ensures canErrors == old(canErrors) + Errors(old(View()), LoopBegun(old(View()), now).out.tx, if loop.Asleep? then offOk else stopOk)
    {
      if socketOpen && commandTs > 0 && desiredDir != OFF && desiredPos != MOTOR_POS_INVALID {
        var elapsed := now - commandTs;
        if elapsed < STARTUP_WAIT && motorMov == OFF && motorPos != desiredPos {
          return Awake;
        }
        if lastCtlPos != motorPos || lastCtlDir != motorMov {
          if motorMov != desiredDir && motorPos != desiredPos {
            if motorMov == OFF {
              var _ := SendCmd1(OFF, 0, offOk);
              return Asleep(elapsed);
            }
          }
          lastCtlDir := motorMov;
          lastCtlPos := motorPos;
        }
        Judge(elapsed, stopOk);
      }
      return Awake;
    }

    method LoopResume(elapsed: int, resendOk: bool, stopOk: bool)
      modifies this`tx, this`canErrors, this`desiredPos, this`desiredDir, this`commandTs, this`lastCtlPos, this`lastCtlDir
      ensures View() == LoopResumed(old(View()), elapsed).ctx
      ensures tx == old(tx) + LoopResumed(old(View()), elapsed).tx
      ensures canErrors == old(canErrors) + Errors(old(View()), Sent(old(View()), old(desiredDir), config.motorRpm), resendOk)
                           + Errors(old(View()), Judged(old(View()), elapsed).tx, stopOk)
    {
      var _ := SendCmd1(desiredDir, config.motorRpm, resendOk);
      lastCtlDir := motorMov;
      lastCtlPos := motorPos;
      Judge(elapsed, stopOk);
    }

    /** A whole turn with nobody getting in at the sleep. */
    method ControlStep(now: int, offOk: bool, resendOk: bool, stopOk: bool)
      modifies this`tx, this`canErrors, this`desiredPos, this`desiredDir, this`commandTs, this`lastCtlPos, this`lastCtlDir
      ensures View() == ControlLoop(old(View()), now).ctx
      ensures tx == old(tx) + ControlLoop(old(View()), now).tx
      ensures offOk && resendOk && stopOk ==> canErrors == old(canErrors)
    {
      LoopUndisturbed(View(), now);
      var loop := LoopBegin(now, offOk, stopOk);
      if loop.Asleep? {
        LoopResume(loop.elapsed, resendOk, stopOk);
      }
    }

    method FrameRead(f: Frame, now: int, offOk: bool, stopOk: bool) returns (loop: Loop)
      modifies this
      ensures Part(Outcome(View(), tx), loop) ==
              var p := FrameBegun(old(View()), f, now); p.(out := p.out.(tx := old(tx) + p.out.tx))
      ensures canErrors == old(canErrors) + Errors(old(View()), FrameBegun(old(View()), f, now).out.tx, if loop.Asleep? then offOk else stopOk)
      ensures callbacks == old(callbacks) + Notified(old(View()), f)
    {
      loop := Awake;
      if f.id == STAT_FRAME_ID {
        var rc := HandleSecuStat(f);
        if rc == Ok {
          loop := LoopBegin(now, offOk, stopOk);
        }
      }
    }

    method SetPosition(position: int, sendOk: bool) returns (setter: Setter, rc: Rc)
      modifies this`tx, this`canErrors, this`desiredPos, this`desiredDir, this`commandTs
      ensures Stretch(Outcome(View(), tx), setter, rc) ==
              var r := RequestPosition(old(View()), position); r.(out := r.out.(tx := old(tx) + r.out.tx))
      ensures canErrors == old(canErrors) + Errors(old(View()), RequestPosition(old(View()), position).out.tx, sendOk)
    {
      if position < 0 || position > 100 {
        return Outside, ErrInvalid;
      }
      setter, rc := AwaitThenStop(position, 0, sendOk);
    }

    method AwaitThenStop(target: Percent, slept: nat, sendOk: bool) returns (setter: Setter, rc: Rc)
      modifies this`tx, this`canErrors, this`desiredPos, this`desiredDir, this`commandTs
      ensures Stretch(Outcome(View(), tx), setter, rc) ==
              var r := TryPosition(old(View()), target, slept); r.(out := r.out.(tx := old(tx) + r.out.tx))
      ensures canErrors == old(canErrors) + Errors(old(View()), TryPosition(old(View()), target, slept).out.tx, sendOk)
    {
      if motorPos == MOTOR_POS_INVALID {
        if slept < POSITION_RETRIES {
          return AwaitPosition(target, slept + 1), Ok;
        }
        return Outside, ErrNoFrames;
      }
      rc := Stop(sendOk);
      return Stopped(target), Ok;
    }

    method Commit(target: Percent, now: int, sendOk: bool) returns (rc: Rc)
      modifies this`tx, this`canErrors, this`desiredPos, this`desiredDir, this`commandTs
      ensures Stretch(Outcome(View(), tx), Outside, rc) ==
              var r := CommitPosition(old(View()), target, now, sendOk); r.(out := r.out.(tx := old(tx) + r.out.tx))
      ensures canErrors == old(canErrors) + Errors(old(View()), CommitPosition(old(View()), target, now, sendOk).out.tx, sendOk)
    {
      var current := motorPos;
      if current == target {
        if motorMov != OFF {
          rc := Stop(sendOk);
        } else {
          desiredDir := OFF;
          desiredPos := MOTOR_POS_INVALID;
          commandTs := 0;
        }
        return Ok;
      }
      var dir := if current < target then INC else DEC;
      commandTs := now;
      desiredDir := dir;
      desiredPos := target;
      rc := SendCmd1(dir, config.motorRpm, sendOk);
    }
  }
}
