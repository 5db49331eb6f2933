/** The seat adjuster ECU simulator of seatadjuster_engine.c: motor 1 as a fixed-point
    position with 10 fractional bits, end clamps and one-shot stops at 85% and 14%. */
module SeatEngine {
  import opened CanBus
  import opened Options

  const POS_SHIFT_VAL := 1024
  const POS_INVALID := -1
  const HI_THRESHOLD := 85
  const LO_THRESHOLD := 14

  /** Read delays (ms) for which the increment is computed without int overflow. */
  type Delay = d: int | 0 <= d <= 20961

  datatype Engine = Engine(
    started: bool,
    delay: Delay,
    pos: int,
    rpm: uint8,
    learning: uint8,
    status: Direction,
    thresholds: bool,
    hiStop: bool,
    loStop: bool,
    inc: int)

  function PosRaw(percent: int): int { percent * POS_SHIFT_VAL }

  /** Arithmetic shift: rounds towards minus infinity. */
  function PosPercent(raw: int): int { raw / POS_SHIFT_VAL }

  function EstimateMoveTime(rpm: uint8): (ms: int)
    ensures ms == 0 <==> rpm < 30
    ensures 0 <= ms <= 22000
  {
    if rpm < 30 then 0 else if rpm > 130 then 1000 else 8000 + 200 * (100 - rpm)
  }

  /** Raw units travelled per read. */
  function PosIncrement(started: bool, delay: Delay, rpm: uint8): (step: int)
    ensures 0 <= step
    ensures started && rpm >= 30 ==> 46 <= step
    ensures POS_SHIFT_VAL * 100 * (delay + 10) < 0x8000_0000
  {
    if !started || EstimateMoveTime(rpm) == 0 then 0
    else POS_SHIFT_VAL * 100 * (delay + 10) / EstimateMoveTime(rpm)
  }

  /** An increment is the whole part of what a read covers when 100% take the estimated time. */
  lemma StepIsShare(delay: Delay, rpm: uint8)
    requires rpm >= 30
    ensures var time, step := EstimateMoveTime(rpm), PosIncrement(true, delay, rpm);
            step * time <= PosRaw(100) * (delay + 10) < (step + 1) * time
  {
    var time, way := EstimateMoveTime(rpm), PosRaw(100) * (delay + 10);
    assert way == way / time * time + way % time;
    assert (way / time + 1) * time == way / time * time + time;
  }

  /** From 30 rpm on, more rpm never take longer and never make a smaller step. */
  lemma SpeedGrows(delay: Delay, slow: uint8, fast: uint8)
    requires 30 <= slow <= fast
    ensures 1000 <= EstimateMoveTime(fast) <= EstimateMoveTime(slow)
    ensures PosIncrement(true, delay, slow) <= PosIncrement(true, delay, fast)
  {
    StepIsShare(delay, slow);
    StepIsShare(delay, fast);
    ProductGrows(PosIncrement(true, delay, fast) + 1, PosIncrement(true, delay, slow), EstimateMoveTime(fast), EstimateMoveTime(slow));
  }

  lemma ProductGrows(a: nat, b: nat, c: nat, d: nat)
    requires c <= d
    ensures a <= b ==> a * c <= b * d
  {
    if a <= b {
      assert b * d - b * c == b * (d - c) >= 0;
      assert b * c - a * c == (b - a) * c >= 0;
    }
  }

  /** sae_init then sae_start; `start` is None for an invalid start position. */
  function Init(start: Option<Percent>, delay: Delay, learning: uint8, thresholds: bool): Engine {
    Engine(true, delay, if start.None? then POS_INVALID else PosRaw(start.value), 0, learning, OFF,
           thresholds, false, false, 0)
  }

  /** Read callback, first part: leave the invalid position. */
  function Calibrated(e: Engine): Engine {
    if e.pos == POS_INVALID then e.(pos := PosRaw(42)) else e
  }

  /** Read callback, second part: a threshold is armed again once the motor is back inside it. */
  function Rearmed(e: Engine): Engine {
    if !e.thresholds then e
    else e.(loStop := e.loStop && PosPercent(e.pos) <= LO_THRESHOLD,
            hiStop := e.hiStop && PosPercent(e.pos) >= HI_THRESHOLD)
  }

  /** Read callback, third part: travel one increment or clamp, then stop at an armed threshold. */
  function Travelled(e: Engine): Engine {
    var next := e.pos + e.inc;
    match e.status
    case INC =>
      var m := if PosPercent(next) <= 100 then e.(pos := next) else e.(status := OFF);
      if e.thresholds && PosPercent(m.pos) >= HI_THRESHOLD && !e.hiStop then m.(status := OFF, hiStop := true) else m
    case DEC =>
      var m := if PosPercent(next) >= 0 then e.(pos := next) else e.(status := OFF);
      if e.thresholds && PosPercent(m.pos) <= LO_THRESHOLD && !e.loStop then m.(status := OFF, loStop := true) else m
    case OFF => e
    case INV => e
  }

  /** sae_read_cb on a started engine ... */
  function Read(e: Engine): Engine {
    if e.started then Travelled(Rearmed(Calibrated(e))) else e
  }

  /** ... and the frame it then hands out. */
  function Report(e: Engine): Frame {
    Frame(STAT_FRAME_ID, Some(Status(PosPercent(e.pos) % 256, e.status, e.learning % 4)))
  }

  /** sae_write_cb for a SECU1_CMD_1 frame. */
  function Write(e: Engine, c: Command): Engine
  {
    if !e.started then e
    else
      var step := PosIncrement(e.started, e.delay, c.rpm);
      if c.dir == OFF then e.(status := OFF, rpm := 0, inc := 0)
      else if c.dir == INC && c.rpm > 0 then e.(status := INC, rpm := c.rpm, inc := step)
      else if c.dir == DEC && c.rpm > 0 then e.(status := DEC, rpm := c.rpm, inc := -step)
      else e.(rpm := c.rpm)
  }

  // ----- the range of the motor -----

  datatype Op = ReadOp | WriteOp(command: Command)

  function Apply(e: Engine, op: Op): Engine
  {
    match op
    case ReadOp => Read(e)
    case WriteOp(c) => Write(e, c)
  }

  predicate InRange(raw: int) { 0 <= raw < 101 * POS_SHIFT_VAL }

  /** A rising motor never has a negative increment, a falling one never a positive one; this
      survives threshold stops, clamps and commands the engine does not handle. */
  predicate Inv(e: Engine) {
    && (e.pos == POS_INVALID || InRange(e.pos))
    && e.status != INV
    && (e.status == INC ==> 0 <= e.inc)
    && (e.status == DEC ==> e.inc <= 0)
  }

  lemma TravelKeepsInv(e: Engine)
    requires Inv(e) && InRange(e.pos)
    ensures Inv(Travelled(e)) && InRange(Travelled(e).pos)
  {}

  lemma WriteKeepsInv(e: Engine, c: Command)
    requires Inv(e)
    ensures Inv(Write(e, c)) && Write(e, c).pos == e.pos && Write(e, c).started == e.started
  {}

  lemma ApplyKeepsInv(e: Engine, op: Op)
    requires Inv(e) && e.started
    ensures Inv(Apply(e, op)) && Apply(e, op).started
    ensures op.ReadOp? || InRange(e.pos) ==> InRange(Apply(e, op).pos)
  {
    match op
    case ReadOp => TravelKeepsInv(Rearmed(Calibrated(e)));
    case WriteOp(c) => WriteKeepsInv(e, c);
  }

  ghost predicate Run(trace: seq<Engine>, ops: seq<Op>, start: Option<Percent>, delay: Delay, learning: uint8, thresholds: bool) {
    && |trace| == |ops| + 1
    && trace[0] == Init(start, delay, learning, thresholds)
    && forall i :: 0 <= i < |ops| ==> trace[i + 1] == Apply(trace[i], ops[i])
  }

  lemma {:induction false} RunInv(trace: seq<Engine>, ops: seq<Op>, start: Option<Percent>, delay: Delay, learning: uint8, thresholds: bool, k: nat)
    requires Run(trace, ops, start, delay, learning, thresholds) && k < |trace|
    ensures Inv(trace[k]) && trace[k].started
    ensures (exists j :: 0 <= j < k && ops[j].ReadOp?) ==> InRange(trace[k].pos)
  {
    if k > 0 {
      RunInv(trace, ops, start, delay, learning, thresholds, k - 1);
      ApplyKeepsInv(trace[k - 1], ops[k - 1]);
    }
  }

  /** From any start, under any reads and any command frames, the motor stays between 0% and
      just under 101% once it has been read. */
  lemma SimulatorRange(trace: seq<Engine>, ops: seq<Op>, start: Option<Percent>, delay: Delay, learning: uint8, thresholds: bool, j: nat, k: nat)
    requires Run(trace, ops, start, delay, learning, thresholds)
    requires j < k < |trace| && ops[j].ReadOp?
    ensures 0 <= trace[k].pos < 101 * POS_SHIFT_VAL
    ensures Report(trace[k]).payload.value.pos == PosPercent(trace[k].pos) <= 100
  {
    RunInv(trace, ops, start, delay, learning, thresholds, k);
  }

  /** sae_context_t updated in place. */
  class Simulator {
    var started: bool
    var delay: Delay
    var pos: int
    var rpm: uint8
    var learning: uint8
    var status: Direction
    var thresholds: bool
    var hiStop: bool
    var loStop: bool
    var inc: int

    function View(): Engine
      reads this
    {
      Engine(started, delay, pos, rpm, learning, status, thresholds, hiStop, loStop, inc)
    }

    constructor (start: Option<Percent>, delay: Delay, learning: uint8, thresholds: bool)
      ensures View() == Init(start, delay, learning, thresholds)
    {
      started, this.delay := true, delay;
      pos := if start.None? then POS_INVALID else PosRaw(start.value);
      this.learning, this.thresholds := learning, thresholds;
      status, rpm, inc := OFF, 0, 0;
      hiStop, loStop := false, false;
    }

    /** Returns None where the callback fails with an errno. */
    method ReadCb() returns (f: Option<Frame>)
      modifies this`pos, this`status, this`hiStop, this`loStop
      ensures View() == Read(old(View()))
      ensures f == if started then Some(Report(View())) else None
    {
      if !started {
        return None;
      }
      if pos == POS_INVALID {
        pos := PosRaw(42);
      }
      if thresholds {
        if loStop && PosPercent(pos) > LO_THRESHOLD {
          loStop := false;
        }
        if hiStop && PosPercent(pos) < HI_THRESHOLD {
          hiStop := false;
        }
      }
      Travel();
      f := Some(Frame(STAT_FRAME_ID, Some(Status(PosPercent(pos) % 256, status, learning % 4))));
    }

    method Travel()
      modifies this`pos, this`status, this`hiStop, this`loStop
      ensures View() == Travelled(old(View()))
    {
      var next := pos + inc;
      if status == INC {
        if PosPercent(next) <= 100 {
          pos := next;
        } else {
          status := OFF;
        }
        if thresholds && PosPercent(pos) >= HI_THRESHOLD && !hiStop {
          status := OFF;
          hiStop := true;
        }
      } else if status == DEC {
        if PosPercent(next) >= 0 {
          pos := next;
        } else {
          status := OFF;
        }
        if thresholds && PosPercent(pos) <= LO_THRESHOLD && !loStop {
          status := OFF;
          loStop := true;
        }
      }
    }

    method WriteCb(c: Command) returns (ok: bool)
      modifies this`status, this`rpm, this`inc
      ensures View() == Write(old(View()), c)
      ensures ok == started
    {
      if !started {
        return false;
      }
      rpm := c.rpm;
      var step := PosIncrement(started, delay, rpm);
      if c.dir == OFF {
        status, rpm, inc := OFF, 0, 0;
      } else if c.dir == INC && c.rpm > 0 {
        status, inc := INC, step;
      } else if c.dir == DEC && c.rpm > 0 {
        status, inc := DEC, -step;
      }
      return true;
    }
  }
}
