/** The controller object at work: driven by any events of its thread, its caller and time, it
    goes through a run of ControllerRun. */
module ControllerThread {
  import opened CanBus
  import opened SeatController
  import opened ControllerRun

  /** The object and where its two threads are. */
  class Driver {
    const controller: Controller
    var setter: Setter
    var loop: Loop
    var thread: bool
    var clock: int
    var accepted: seq<uint8>
    var result: Rc

    function View(): Session
      reads this, controller
    {
      Session(controller.View(), setter, loop, thread, clock, controller.tx, controller.callbacks, accepted, result)
    }

    constructor (config: Config, callbackSet: bool)
      ensures View() == Start(config, callbackSet) && fresh(controller)
    {
      controller := new Controller(config, callbackSet);
      setter, loop, thread, clock := Outside, Awake, false, 0;
      accepted, result := [], Ok;
    }

    /** seatctrl_open and the stretches of seatctrl_close. */
    method OpenOrClose(e: Event)
      requires e.Open? || e.CloseBegin? || e.CloseSocket? || e.CloseEnd?
      modifies this`thread, controller
      ensures View() == Next(old(View()), e)
    {
      match e
      case Open =>
        controller.socketOpen, controller.running := true, true;
        thread := true;
      case CloseBegin => controller.running := false;
      case CloseSocket => controller.socketOpen := false;
      case CloseEnd => thread := false;
    }

    method Handle(f: Frame, now: int)
      modifies this, controller
      ensures View() == Next(old(View()), FrameIn(f, now))
    {
      loop := controller.FrameRead(f, now, true, true);
      clock := now;
      if HandleRc(f) == Ok {
        accepted := accepted + [f.payload.value.pos];
      }
    }

    method WakeLoop()
      requires loop.Asleep?
      modifies this`loop, controller
      ensures View() == Next(old(View()), LoopWake)
    {
      controller.LoopResume(loop.elapsed, true, true);
      loop := Awake;
    }

    /** set_position goes on after a sleep. */
    method WakeCaller(now: int, sendOk: bool)
      requires !setter.Outside?
      modifies this, controller
      ensures View() == Next(old(View()), Wake(now, sendOk))
    {
      clock := now;
      match setter
      case AwaitPosition(target, slept) => setter, result := controller.AwaitThenStop(target, slept, true);
      case Stopped(target) =>
        result := controller.Commit(target, now, sendOk);
        setter := Outside;
    }

    /** One event. Whether other sends than a commit succeed makes no difference to the session. */
    method Perform(e: Event)
      requires Enabled(View(), e)
      modifies this, controller
      ensures View() == Next(old(View()), e)
    {
      match e
      case FrameIn(f, now) => Handle(f, now);
      case LoopWake => WakeLoop();
      case Call(position) => setter, result := controller.SetPosition(position, true);
      case Wake(now, sendOk) => WakeCaller(now, sendOk);
      case StopRequest => var _ := controller.Stop(true);
      case Open => OpenOrClose(e);
      case CloseBegin => OpenOrClose(e);
      case CloseSocket => OpenOrClose(e);
      case CloseEnd => OpenOrClose(e);
    }

    /** Any events, as far as they are possible: the object goes through a run, so all that is
        proved of runs holds of it. */
    method Execute(es: seq<Event>) returns (done: nat, ghost trace: seq<Session>)
      requires View() == Start(controller.config, controller.callbackSet)
      modifies this, controller
      ensures done <= |es| && Run(trace, es[..done], controller.config, old(controller.callbackSet)) && trace[done] == View()
      ensures done < |es| ==> !Enabled(View(), es[done])
    {
      ghost var callbackSet := controller.callbackSet;
      done, trace := 0, [View()];
      while done < |es| && Enabled(View(), es[done])
        invariant done <= |es| && |trace| == done + 1 && trace[done] == View()
        invariant Run(trace, es[..done], controller.config, callbackSet)
      {
        ghost var more;
        trace, more := Extend(trace, es[..done], controller.config, callbackSet, es[done]);
        Perform(es[done]);
        assert es[..done + 1] == more;
        done := done + 1;
      }
    }
  }
}
