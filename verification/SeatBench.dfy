/** The controller object driving the simulator object, as under cansim: any acts take the two
    through a run of the closed loop. */
module SeatBench {
  import opened CanBus
  import CT = ControllerThread
  import CR = ControllerRun
  import opened ClosedLoop
  import E = SeatEngine
  import L = Landing

  class Bench {
    const driver: CT.Driver
    const simulator: E.Simulator

    function View(): World
      reads driver, driver.controller, simulator
    {
      World(driver.View(), simulator.View())
    }

    constructor (u: L.Setup)
      ensures View() == Begin(u.config, E.Init(u.start, u.delay, u.learning, u.thresholds)) && simulator.started
      ensures fresh(driver) && fresh(driver.controller) && fresh(simulator)
    {
      var d := new CT.Driver(u.config, true);
      d.Perform(CR.Open);
      driver := d;
      simulator := new E.Simulator(u.start, u.delay, u.learning, u.thresholds);
    }

    /** The simulator receives the frames sent. */
    method Deliver(cs: seq<Command>)
      requires simulator.started
      modifies simulator
      ensures simulator.View() == WriteAll(old(simulator.View()), cs) && simulator.started
    {
      var i := 0;
      while i < |cs|
        invariant 0 <= i <= |cs| && simulator.started
        invariant simulator.View() == WriteAll(old(simulator.View()), cs[..i])
      {
        assert cs[..i + 1][..i] == cs[..i];
        var _ := simulator.WriteCb(cs[i]);
        i := i + 1;
      }
      assert cs[..i] == cs;
    }

    /** Read, handle, and one turn of the control loop in one go. */
    method DoCycle(now: int)
      requires simulator.started && CR.Enabled(driver.View(), AsEvent(View(), Cycle(now)))
      modifies driver, driver.controller, simulator
      ensures View() == Step(old(View()), Cycle(now)) && simulator.started
    {
      var sent := |driver.controller.tx|;
      var f := simulator.ReadCb();
      driver.Handle(f.value, now);
      if driver.loop.Asleep? {
        driver.WakeLoop();
      }
      CR.SentSoFar(old(driver.View()), f.value, now);
      Deliver(driver.controller.tx[sent..]);
    }

    method Perform(a: Act)
      requires simulator.started && CR.Enabled(driver.View(), AsEvent(View(), a))
      modifies driver, driver.controller, simulator
      ensures View() == Step(old(View()), a) && simulator.started
    {
      if a.Cycle? {
        DoCycle(a.now);
      } else {
        var sent := |driver.controller.tx|;
        CR.SentBefore(driver.View(), AsEvent(View(), a));
        driver.Perform(AsEvent(View(), a));
        Deliver(driver.controller.tx[sent..]);
      }
    }

    method Execute(acts: seq<Act>, ghost u: L.Setup) returns (done: nat, ghost trace: seq<World>)
      requires View() == Begin(u.config, E.Init(u.start, u.delay, u.learning, u.thresholds)) && simulator.started
      modifies driver, driver.controller, simulator
      ensures done <= |acts| && L.Run(trace, acts[..done], u) && trace[done] == View()
      ensures done < |acts| ==> !CR.Enabled(driver.View(), AsEvent(View(), acts[done]))
    {
      done, trace := 0, [View()];
      while done < |acts| && CR.Enabled(driver.View(), AsEvent(View(), acts[done]))
        invariant done <= |acts| && |trace| == done + 1 && trace[done] == View() && simulator.started
        invariant L.Run(trace, acts[..done], u)
      {
        Perform(acts[done]);
        ghost var more;
        trace, more := L.Extend(trace, acts[..done], u, acts[done], View());
        assert acts[..done + 1] == more;
        done := done + 1;
      }
    }
  }
}
