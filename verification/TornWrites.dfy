/** The command fields of the context, shared without a lock between one caller of
    set_position and the control thread. Steps are single reads and writes of a field (taken to
    be atomic and ordered as written); either thread may be preempted between any two of them. */
module TornWrites {
  import opened CanBus
  import opened Options

  /** command_ts, desired_direction and desired_position. */
  datatype Triple = Triple(ts: int, dir: Direction, pos: uint8)

  const RESET := Triple(0, OFF, MOTOR_POS_INVALID)

  /** is_ctl_running on an open socket. */
  predicate Running(t: Triple) {
    t.ts > 0 && t.dir != OFF && t.pos != MOTOR_POS_INVALID
  }

  /** What set_position publishes. */
  predicate Proper(t: Triple) {
    t.ts > 0 && (t.dir == INC || t.dir == DEC) && t.pos <= 100
  }

  /** The caller: idle, `n` writes into stop_movement, asleep, `n` writes into resetting the
      fields because the seat is already there (through stop_movement if the motor moves),
      or `n` writes into publishing `t`. */
  datatype Setter = Idle | Stopping(n: nat) | Asleep | Clearing(n: nat, viaStop: bool) | Publishing(n: nat, t: Triple)

  /** The control thread: idle, `n` fields into is_ctl_running with all tests passed so far,
      having been told that a command is running, or `n` writes into stop_movement. */
  datatype Control = Watching | Reading(n: nat) | Decided | Halting(n: nat)

  /** `last` is the command of the most recently completed set_position, None if that call
      found the seat already in place or there was none. */
  datatype State = State(fields: Triple, setter: Setter, control: Control, last: Option<Triple>)

  datatype Event =
    | Call
    | SetterWrite
    | FindInPlace(viaStop: bool)
    | Decide(t: Triple)
    | Look
    | Halt
    | Leave
    | ControlWrite

  const START := State(RESET, Idle, Watching, None)

  predicate Enabled(s: State, e: Event) {
    match e
    case Call => s.setter.Idle?
    case SetterWrite => s.setter.Stopping? || s.setter.Clearing? || s.setter.Publishing?
    case FindInPlace(_) => s.setter.Asleep?
    case Decide(t) => s.setter.Asleep? && Proper(t)
    case Look => s.control.Watching? || s.control.Reading?
    case Halt => s.control.Decided?
    case Leave => s.control.Decided?
    case ControlWrite => s.control.Halting?
  }

  /** The n-th write of stop_movement: position, direction, timestamp. */
  function StopWrite(f: Triple, n: nat): Triple {
    if n == 0 then f.(pos := MOTOR_POS_INVALID)
    else if n == 1 then f.(dir := OFF)
    else f.(ts := 0)
  }

  /** The n-th write of the other reset: direction, position, timestamp. */
  function ClearWrite(f: Triple, n: nat): Triple {
    if n == 0 then f.(dir := OFF)
    else if n == 1 then f.(pos := MOTOR_POS_INVALID)
    else f.(ts := 0)
  }

  /** The n-th write of a new command: timestamp, direction, position. */
  function PublishWrite(f: Triple, n: nat, t: Triple): Triple {
    if n == 0 then f.(ts := t.ts)
    else if n == 1 then f.(dir := t.dir)
    else f.(pos := t.pos)
  }

  /** The n-th test of is_ctl_running: timestamp, direction, position. */
  predicate Passes(f: Triple, n: nat) {
    if n == 0 then f.ts > 0 else if n == 1 then f.dir != OFF else f.pos != MOTOR_POS_INVALID
  }

  function Looked(c: Control, f: Triple): Control {
    var n := if c.Reading? then c.n else 0;
    if !Passes(f, n) then Watching else if n < 2 then Reading(n + 1) else Decided
  }

  function Next(s: State, e: Event): State {
    match e
    case Call => s.(setter := Stopping(0))
    case SetterWrite => (
      match s.setter
      case Stopping(n) => s.(fields := StopWrite(s.fields, n), setter := if n < 2 then Stopping(n + 1) else Asleep)
      case Clearing(n, viaStop) =>
        var s' := s.(fields := if viaStop then StopWrite(s.fields, n) else ClearWrite(s.fields, n));
        if n < 2 then s'.(setter := Clearing(n + 1, viaStop)) else s'.(setter := Idle, last := None)
      case Publishing(n, t) =>
        var s' := s.(fields := PublishWrite(s.fields, n, t));
        if n < 2 then s'.(setter := Publishing(n + 1, t)) else s'.(setter := Idle, last := Some(t))
      case Idle => s
      case Asleep => s
    )
    case FindInPlace(viaStop) => s.(setter := Clearing(0, viaStop))
    case Decide(t) => s.(setter := Publishing(0, t))
    case Look => s.(control := Looked(s.control, s.fields))
    case Halt => s.(control := Halting(0))
    case Leave => s.(control := Watching)
    case ControlWrite => (
      match s.control
      case Halting(n) => s.(fields := StopWrite(s.fields, n), control := if n < 2 then Halting(n + 1) else Watching)
      case _ => s
    )
  }

  ghost predicate Run(trace: seq<State>, es: seq<Event>) {
    && |trace| == |es| + 1
    && trace[0] == START
    && forall i :: 0 <= i < |es| ==> Enabled(trace[i], es[i]) && trace[i + 1] == Next(trace[i], es[i])
  }

  /** Every field of `f` is reset or has its value from `t`. */
  predicate Within(f: Triple, t: Triple) {
    (f.ts == 0 || f.ts == t.ts) && (f.dir == OFF || f.dir == t.dir) && (f.pos == MOTOR_POS_INVALID || f.pos == t.pos)
  }

  function LastOrReset(s: State): Triple {
    if s.last.Some? then s.last.value else RESET
  }

  /** The control thread only ever resets fields, so what is not reset comes from the call
      that wrote last; between the first write of a call and its last one the position is
      reset; and while the control thread reads it does not write, so a field that passed its
      test is still set once the position is. */
  predicate Inv(s: State) {
    && (s.last.Some? ==> Proper(s.last.value))
    && (match s.setter
        case Idle => Within(s.fields, LastOrReset(s))
        case Stopping(n) =>
          && n <= 2 && Within(s.fields, LastOrReset(s))
          && (n >= 1 ==> s.fields.pos == MOTOR_POS_INVALID)
          && (n >= 2 ==> s.fields.dir == OFF)
        case Asleep => s.fields == RESET
        case Clearing(n, _) => n <= 2 && s.fields == RESET
        case Publishing(n, t) =>
          && n <= 2 && Proper(t) && Within(s.fields, t)
          && s.fields.pos == MOTOR_POS_INVALID
          && (n <= 1 ==> s.fields.dir == OFF)
          && (n == 0 ==> s.fields.ts == 0))
    && (s.control.Reading? ==> ReadInv(s))
  }

  predicate ReadInv(s: State)
    requires s.control.Reading?
  {
    var n, published := s.control.n, if s.setter.Publishing? then s.setter.n else if s.fields.pos != MOTOR_POS_INVALID then 3 else 0;
    && 1 <= n <= 2
    && (published >= 1 ==> s.fields.ts > 0)
    && (published >= 2 && n == 2 ==> s.fields.dir != OFF)
  }

  lemma SetterWriteKeepsInv(s: State)
    requires Inv(s) && Enabled(s, SetterWrite)
    ensures Inv(Next(s, SetterWrite))
  {}

  lemma ControlWriteKeepsInv(s: State)
    requires Inv(s) && Enabled(s, ControlWrite)
    ensures Inv(Next(s, ControlWrite))
  {}

  lemma LookKeepsInv(s: State)
    requires Inv(s) && Enabled(s, Look)
    ensures Inv(Next(s, Look))
  {}

  lemma StepKeepsInv(s: State, e: Event)
    requires Inv(s) && Enabled(s, e)
    ensures Inv(Next(s, e))
  {
    match e
    case SetterWrite => SetterWriteKeepsInv(s);
    case ControlWrite => ControlWriteKeepsInv(s);
    case Look => LookKeepsInv(s);
    case _ =>
  }

  lemma {:induction false} RunInv(trace: seq<State>, es: seq<Event>, k: nat)
    requires Run(trace, es) && k < |trace|
    ensures Inv(trace[k])
  {
    if k > 0 {
      RunInv(trace, es, k - 1);
      StepKeepsInv(trace[k - 1], es[k - 1]);
    }
  }

  /** However the two threads interleave, a command that the control thread takes for running
      is complete and is the one of the most recently completed set_position; and no call is
      past its first write then. */
  lemma TornWriteSafety(trace: seq<State>, es: seq<Event>, k: nat)
    requires Run(trace, es) && k < |trace|
    requires Running(trace[k].fields)
    ensures trace[k].last == Some(trace[k].fields) && Proper(trace[k].fields)
    ensures trace[k].setter == Idle || trace[k].setter == Stopping(0)
  {
    RunInv(trace, es, k);
  }

  /** And so it is when is_ctl_running answers true after reading its fields one by one: at the
      last read they are a whole command, the one of the most recently completed set_position. */
  lemma TrueAnswer(trace: seq<State>, es: seq<Event>, k: nat)
    requires Run(trace, es) && k < |es| && es[k].Look? && trace[k + 1].control.Decided?
    ensures Running(trace[k].fields) && Proper(trace[k].fields) && trace[k].last == Some(trace[k].fields)
  {
    RunInv(trace, es, k);
    TornWriteSafety(trace, es, k);
  }

  // ----- what interleaving can still break -----

  /** The steps that tear a command: a stop of the control thread resets a field that the current
      publication has already written, or the publication completes with such a stop half done. */
  predicate Tears(s: State, e: Event) {
    && s.control.Halting? && s.setter.Publishing?
    && ((e.ControlWrite? && s.control.n == 1 && s.setter.n >= 2)
        || (e.ControlWrite? && s.control.n == 2 && s.setter.n >= 1)
        || (e.SetterWrite? && s.control.n >= 1 && s.setter.n == 2))
  }

  /** That has happened to the last call that got past its sleep. */
  predicate Torn(trace: seq<State>, es: seq<Event>, k: nat)
    requires k <= |es| < |trace|
  {
    && k > 0
    && !es[k - 1].Decide? && !es[k - 1].FindInPlace?
    && (Tears(trace[k - 1], es[k - 1]) || Torn(trace, es, k - 1))
  }

  /** The fields that stop_movement has not reset after `n` writes. */
  function Reset(t: Triple, n: nat): Triple {
    Triple(if n >= 3 then 0 else t.ts, if n >= 2 then OFF else t.dir, if n >= 1 then MOTOR_POS_INVALID else t.pos)
  }

  /** What `n` writes of a publication have set. */
  function Published(t: Triple, n: nat): Triple {
    Triple(if n >= 1 then t.ts else 0, if n >= 2 then t.dir else OFF, MOTOR_POS_INVALID)
  }

  function Halted(s: State): nat { if s.control.Halting? then s.control.n else 0 }

  /** `torn` tells exactly whether the command, once published, lacks a field for good. */
  predicate TornInv(s: State, torn: bool) {
    && Inv(s)
    && Halted(s) <= 2
    && (torn ==> !s.setter.Clearing? && (s.control.Watching? || s.control.Reading? || Halted(s) >= 1))
    && (s.setter.Idle? || s.setter == Stopping(0) ==>
          if torn then s.last.Some? && s.fields.pos == s.last.value.pos && (s.fields.ts == 0 || s.fields.dir == OFF || Halted(s) >= 1)
          else s.fields == RESET || s.fields == Reset(LastOrReset(s), Halted(s)))
    && (s.setter.Publishing? ==>
          if torn then (s.setter.n >= 1 && s.fields.ts == 0) || (s.setter.n >= 2 && s.fields.dir == OFF)
          else s.fields == Published(s.setter.t, s.setter.n))
  }

  lemma SetterWriteKeepsTorn(s: State, torn: bool)
    requires TornInv(s, torn) && Enabled(s, SetterWrite)
    ensures TornInv(Next(s, SetterWrite), Tears(s, SetterWrite) || torn)
  {
    SetterWriteKeepsInv(s);
  }

  lemma ControlWriteKeepsTorn(s: State, torn: bool)
    requires TornInv(s, torn) && Enabled(s, ControlWrite)
    ensures TornInv(Next(s, ControlWrite), Tears(s, ControlWrite) || torn)
  {
    ControlWriteKeepsInv(s);
  }

  lemma StepKeepsTorn(s: State, e: Event, torn: bool)
    requires TornInv(s, torn) && Enabled(s, e)
    ensures TornInv(Next(s, e), !e.Decide? && !e.FindInPlace? && (Tears(s, e) || torn))
  {
    match e
    case SetterWrite => SetterWriteKeepsTorn(s, torn);
    case ControlWrite => ControlWriteKeepsTorn(s, torn);
    case _ => StepKeepsInv(s, e);
  }

  lemma {:induction false} RunTorn(trace: seq<State>, es: seq<Event>, k: nat)
    requires Run(trace, es) && k < |trace|
    ensures TornInv(trace[k], Torn(trace, es, k))
  {
    if k > 0 {
      RunTorn(trace, es, k - 1);
      StepKeepsTorn(trace[k - 1], es[k - 1], Torn(trace, es, k - 1));
    }
  }

  /** Whenever neither thread is writing, the fields are all reset or hold the whole last
      command if and only if that command was not torn. */
  lemma WholeUnlessTorn(trace: seq<State>, es: seq<Event>, k: nat)
    requires Run(trace, es) && k < |trace|
    requires trace[k].setter.Idle? && !trace[k].control.Halting?
    ensures trace[k].fields == RESET || trace[k].last == Some(trace[k].fields) <==> !Torn(trace, es, k)
  {
    RunTorn(trace, es, k);
  }

  function Last(trace: seq<State>): State
    requires trace != []
  {
    trace[|trace| - 1]
  }

  lemma Extend(trace: seq<State>, es: seq<Event>, e: Event) returns (trace': seq<State>, es': seq<Event>)
    requires Run(trace, es) && Enabled(Last(trace), e)
    ensures Run(trace', es') && Last(trace') == Next(Last(trace), e)
  {
    trace', es' := trace + [Next(Last(trace), e)], es + [e];
  }

  /** A whole, undisturbed call of set_position. */
  lemma ExtendCall(trace: seq<State>, es: seq<Event>, t: Triple) returns (trace': seq<State>, es': seq<Event>)
    requires Run(trace, es) && Last(trace).setter.Idle? && Proper(t)
    ensures Run(trace', es') && Last(trace') == Last(trace).(fields := t, last := Some(t))
  {
    trace', es' := Extend(trace, es, Call);
    trace', es' := Extend(trace', es', SetterWrite);
    trace', es' := Extend(trace', es', SetterWrite);
    trace', es' := Extend(trace', es', SetterWrite);
    trace', es' := Extend(trace', es', Decide(t));
    trace', es' := Extend(trace', es', SetterWrite);
    trace', es' := Extend(trace', es', SetterWrite);
    trace', es' := Extend(trace', es', SetterWrite);
  }

  /** A command of which the control thread has reset the position and the direction. */
  lemma HalfHalted() returns (trace: seq<State>, es: seq<Event>)
    ensures Run(trace, es)
    ensures Last(trace) == State(Triple(1000, OFF, MOTOR_POS_INVALID), Idle, Halting(2), Some(Triple(1000, INC, 60)))
  {
    trace, es := ExtendCall([START], [], Triple(1000, INC, 60));
    trace, es := Extend(trace, es, Look);
    trace, es := Extend(trace, es, Look);
    trace, es := Extend(trace, es, Look);
    trace, es := Extend(trace, es, Halt);
    trace, es := Extend(trace, es, ControlWrite);
    trace, es := Extend(trace, es, ControlWrite);
  }

  /** Such a run: the fields are left half set with nobody writing. The control
      thread starts to stop the first command, and its last write wipes the timestamp of the
      second one. The second command is then lost. */
  lemma OverlapLeavesRemnant() returns (trace: seq<State>, es: seq<Event>)
    ensures Run(trace, es)
    ensures Last(trace).setter == Idle && Last(trace).control == Watching
    ensures Last(trace).fields == Triple(0, DEC, 20) && Last(trace).last == Some(Triple(2000, DEC, 20))
  {
    trace, es := HalfHalted();
    trace, es := Extend(trace, es, Call);
    trace, es := Extend(trace, es, SetterWrite);
    trace, es := Extend(trace, es, SetterWrite);
    trace, es := Extend(trace, es, SetterWrite);
    trace, es := Extend(trace, es, Decide(Triple(2000, DEC, 20)));
    trace, es := Extend(trace, es, SetterWrite);
    trace, es := Extend(trace, es, SetterWrite);
    trace, es := Extend(trace, es, ControlWrite);
    trace, es := Extend(trace, es, SetterWrite);
  }
}
