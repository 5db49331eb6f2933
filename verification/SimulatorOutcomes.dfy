/** What reads and commands do to the simulator, on raw positions: 1024 units to a percent, stops
    at 85% and 14%. */
module SimulatorOutcomes {
  import opened CanBus
  import opened Options
  import opened SeatEngine

  /** Where a read starts: an unknown position is taken for 42%. */
  function From(e: Engine): int {
    if e.pos == -1 then 42 * 1024 else e.pos
  }

  /** A rising motor that this read carries to `raw` is stopped at 85%: it has just come from
      below, or it has not been stopped there since it last was below. */
  predicate StoppedHigh(e: Engine, raw: int) {
    e.thresholds && raw >= 85 * 1024 && (From(e) < 85 * 1024 || !e.hiStop)
  }

  /** The same for a falling one, from 14.99% down. */
  predicate StoppedLow(e: Engine, raw: int) {
    e.thresholds && raw < 15 * 1024 && (From(e) >= 15 * 1024 || !e.loStop)
  }

  predicate SameDrive(e: Engine, e': Engine) {
    e'.inc == e.inc && e'.rpm == e.rpm && e'.delay == e.delay && e'.thresholds == e.thresholds && e'.learning == e.learning
  }

  /** A read of a motor that is off: it does not travel, but leaves an unknown position for 42%. */
  lemma ReadAtRest(trace: seq<Engine>, ops: seq<Op>, start: Option<Percent>, delay: Delay, learning: uint8, thresholds: bool, k: nat)
    requires Run(trace, ops, start, delay, learning, thresholds) && k < |ops| && ops[k].ReadOp? && trace[k].status == OFF
    ensures var e, e' := trace[k], trace[k + 1];
            && e'.pos == From(e) && e'.status == OFF && SameDrive(e, e')
            && e'.hiStop == (e.hiStop && (e.thresholds ==> From(e) >= 85 * 1024))
            && e'.loStop == (e.loStop && (e.thresholds ==> From(e) < 15 * 1024))
  {
    RunInv(trace, ops, start, delay, learning, thresholds, k);
  }

  /** A read of a rising motor: it travels one increment if that stays below 101%, and otherwise
      stays and goes off; at 85% it goes off exactly as StoppedHigh says, and then only once. */
  lemma ReadRising(trace: seq<Engine>, ops: seq<Op>, start: Option<Percent>, delay: Delay, learning: uint8, thresholds: bool, k: nat)
    requires Run(trace, ops, start, delay, learning, thresholds) && k < |ops| && ops[k].ReadOp? && trace[k].status == INC
    ensures var e, e' := trace[k], trace[k + 1];
            var clamped := From(e) + e.inc >= 101 * 1024;
            && e'.pos == (if clamped then From(e) else From(e) + e.inc) && SameDrive(e, e')
            && e'.status == (if clamped || StoppedHigh(e, e'.pos) then OFF else INC)
            && (e.thresholds ==> e'.hiStop == (e'.pos >= 85 * 1024) && e'.loStop == (e.loStop && From(e) < 15 * 1024))
            && (!e.thresholds ==> e'.hiStop == e.hiStop && e'.loStop == e.loStop)
  {
    RunInv(trace, ops, start, delay, learning, thresholds, k);
  }

  /** And of a falling one, with 0% and 14%. */
  lemma ReadFalling(trace: seq<Engine>, ops: seq<Op>, start: Option<Percent>, delay: Delay, learning: uint8, thresholds: bool, k: nat)
    requires Run(trace, ops, start, delay, learning, thresholds) && k < |ops| && ops[k].ReadOp? && trace[k].status == DEC
    ensures var e, e' := trace[k], trace[k + 1];
            var clamped := From(e) + e.inc < 0;
            && e'.pos == (if clamped then From(e) else From(e) + e.inc) && SameDrive(e, e')
            && e'.status == (if clamped || StoppedLow(e, e'.pos) then OFF else DEC)
            && (e.thresholds ==> e'.loStop == (e'.pos < 15 * 1024) && e'.hiStop == (e.hiStop && From(e) >= 85 * 1024))
            && (!e.thresholds ==> e'.hiStop == e.hiStop && e'.loStop == e.loStop)
  {
    RunInv(trace, ops, start, delay, learning, thresholds, k);
  }

  /** What a read reports is what it leaves behind. */
  lemma ReadReports(trace: seq<Engine>, ops: seq<Op>, start: Option<Percent>, delay: Delay, learning: uint8, thresholds: bool, k: nat)
    requires Run(trace, ops, start, delay, learning, thresholds) && k < |ops| && ops[k].ReadOp?
    ensures var e, f := trace[k + 1], Report(trace[k + 1]);
            && f.id == 0x712 && f.payload.Some?
            && f.payload.value.pos * 1024 <= e.pos < (f.payload.value.pos + 1) * 1024
            && f.payload.value.mov == e.status && f.payload.value.learning == e.learning % 4
  {
    RunInv(trace, ops, start, delay, learning, thresholds, k + 1);
  }

  /** `step` is the whole part of what a read every `delay` + 10 ms covers of 100% at `rpm`: not at
      all below 30 rpm, in 28 s less 200 ms per rpm up to 130 rpm, in one second beyond. */
  predicate StepFor(step: int, delay: Delay, rpm: uint8) {
    var time := if rpm > 130 then 1000 else 28000 - 200 * rpm;
    if rpm < 30 then step == 0
    else 0 <= step && step * time <= 102400 * (delay + 10) < (step + 1) * time
  }

  lemma IncrementIs(delay: Delay, rpm: uint8)
    ensures StepFor(PosIncrement(true, delay, rpm), delay, rpm)
  {
    if rpm >= 30 {
      StepIsShare(delay, rpm);
    }
  }

  /** A command sets status and increment, upwards or downwards, OFF stops, and any other, or a
      move without rpm, changes the rpm only; none moves the motor or touches a threshold. */
  lemma WriteTaken(trace: seq<Engine>, ops: seq<Op>, start: Option<Percent>, delay: Delay, learning: uint8, thresholds: bool, k: nat)
    requires Run(trace, ops, start, delay, learning, thresholds) && k < |ops| && ops[k].WriteOp?
    ensures var c, e, e' := ops[k].command, trace[k], trace[k + 1];
            && e'.pos == e.pos && e'.hiStop == e.hiStop && e'.loStop == e.loStop
            && e'.delay == e.delay && e'.thresholds == e.thresholds && e'.learning == e.learning
            && (c.dir == OFF ==> e'.status == OFF && e'.inc == 0 && e'.rpm == 0)
            && (c.dir == INC && c.rpm > 0 ==> e'.status == INC && StepFor(e'.inc, e.delay, c.rpm) && e'.rpm == c.rpm)
            && (c.dir == DEC && c.rpm > 0 ==> e'.status == DEC && StepFor(-e'.inc, e.delay, c.rpm) && e'.rpm == c.rpm)
            && (c.dir == INV || (c.dir != OFF && c.rpm == 0) ==> e'.status == e.status && e'.inc == e.inc && e'.rpm == c.rpm)
  {
    RunInv(trace, ops, start, delay, learning, thresholds, k);
    IncrementIs(trace[k].delay, ops[k].command.rpm);
  }
}
