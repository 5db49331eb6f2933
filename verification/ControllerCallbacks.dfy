/** The Motor1Pos notifications of a run: the accepted positions without repetitions, unless one
    changes while the controller is being closed. */
module ControllerCallbacks {
  import opened CanBus
  import opened SeatController
  import opened ControllerRun

  /** `s` without elements equal to their predecessor, `prev` preceding the first. */
  function Dedup(prev: uint8, s: seq<uint8>): seq<uint8> {
    if s == [] then []
    else if s[|s| - 1] == LastOr(prev, s[..|s| - 1]) then Dedup(prev, s[..|s| - 1])
    else Dedup(prev, s[..|s| - 1]) + [s[|s| - 1]]
  }

  lemma {:induction false} DedupLast(prev: uint8, s: seq<uint8>)
    ensures LastOr(prev, Dedup(prev, s)) == LastOr(prev, s)
  {
    if s != [] {
      DedupLast(prev, s[..|s| - 1]);
    }
  }

  /** Dedup repeats no value. */
  lemma {:induction false} DedupNoRepeats(prev: uint8, s: seq<uint8>, i: nat)
    requires i < |Dedup(prev, s)|
    ensures Dedup(prev, s)[i] != if i == 0 then prev else Dedup(prev, s)[i - 1]
  {
    var front := s[..|s| - 1];
    if i < |Dedup(prev, front)| {
      DedupNoRepeats(prev, front, i);
    } else {
      DedupLast(prev, front);
    }
  }

  /** Dedup drops nothing but repetitions: it grows by prefixes, and the prefix it has reached
      at `s[i]` ends with `s[i]`. */
  lemma {:induction false} DedupKeepsValues(prev: uint8, s: seq<uint8>, i: nat)
    requires i < |s|
    ensures LastOr(prev, Dedup(prev, s[..i + 1])) == s[i]
    ensures Dedup(prev, s[..i + 1]) <= Dedup(prev, s)
  {
    DedupLast(prev, s[..i + 1]);
    if i + 1 == |s| {
      assert s[..i + 1] == s;
    } else {
      var front := s[..|s| - 1];
      assert front[..i + 1] == s[..i + 1];
      DedupKeepsValues(prev, front, i);
    }
  }

  /** Every change of position has been notified. */
  ghost predicate Streamed(s: Session) {
    s.callbacks == Dedup(MOTOR_POS_INVALID, s.accepted)
  }

  /** A frame whose change of position is not notified, because seatctrl_close has cleared
      `running` while the thread still handles it. */
  predicate Misses(s: Session, e: Event) {
    e.FrameIn? && HandleRc(e.frame) == Ok && !s.ctx.running && e.frame.payload.value.pos != s.ctx.motorPos
  }

  /** Such frames among the first `k` events. */
  function Missed(trace: seq<Session>, es: seq<Event>, k: nat): nat
    requires k <= |es| < |trace|
  {
    if k == 0 then 0 else Missed(trace, es, k - 1) + if Misses(trace[k - 1], es[k - 1]) then 1 else 0
  }

  lemma DedupMore(prev: uint8, s: seq<uint8>, x: uint8)
    ensures Dedup(prev, s + [x]) == Dedup(prev, s) + if x == LastOr(prev, s) then [] else [x]
  {
    assert (s + [x])[..|s|] == s;
  }

  /** What a step adds to the notifications and to what they should be. */
  lemma StepNotifies(s: Session, e: Event, s': Session)
    requires Inv(s) && Follows(s, e, s') && s.ctx.callbackSet
    ensures var more := if e.FrameIn? && HandleRc(e.frame) == Ok && e.frame.payload.value.pos != s.ctx.motorPos then [e.frame.payload.value.pos] else [];
            && Dedup(MOTOR_POS_INVALID, s'.accepted) == Dedup(MOTOR_POS_INVALID, s.accepted) + more
            && s'.callbacks == s.callbacks + if Misses(s, e) then [] else more
  {
    if e.FrameIn? && HandleRc(e.frame) == Ok {
      DedupMore(MOTOR_POS_INVALID, s.accepted, e.frame.payload.value.pos);
    }
  }

  /** Notifications and missed changes add up. */
  lemma {:induction false} NotifiedOrMissed(trace: seq<Session>, es: seq<Event>, config: Config, k: nat)
    requires Run(trace, es, config, true) && k < |trace|
    ensures |Dedup(MOTOR_POS_INVALID, trace[k].accepted)| == |trace[k].callbacks| + Missed(trace, es, k)
    ensures Missed(trace, es, k) == 0 ==> Streamed(trace[k])
  {
    if k > 0 {
      NotifiedOrMissed(trace, es, config, k - 1);
      RunInv(trace, es, config, true, k - 1);
      assert StepAt(trace, es, k - 1);
      StepNotifies(trace[k - 1], es[k - 1], trace[k]);
    }
  }

  /** With a callback installed from the start, the notifications are the accepted positions
      without repetitions if and only if no accepted frame has changed the position while
      `running` was false; and then the last one is the position the controller holds. */
  lemma CallbackStream(trace: seq<Session>, es: seq<Event>, config: Config, k: nat)
    requires Run(trace, es, config, true) && k < |trace|
    ensures trace[k].callbacks == Dedup(MOTOR_POS_INVALID, trace[k].accepted) <==>
            forall i :: 0 <= i < k ==> !Misses(trace[i], es[i])
    ensures Streamed(trace[k]) ==> LastOr(MOTOR_POS_INVALID, trace[k].callbacks) == trace[k].ctx.motorPos
  {
    NotifiedOrMissed(trace, es, config, k);
    MissedIsAny(trace, es, k);
    RunInv(trace, es, config, true, k);
    DedupLast(MOTOR_POS_INVALID, trace[k].accepted);
  }

  lemma {:induction false} MissedIsAny(trace: seq<Session>, es: seq<Event>, k: nat)
    requires k <= |es| < |trace|
    ensures Missed(trace, es, k) == 0 <==> forall i :: 0 <= i < k ==> !Misses(trace[i], es[i])
  {
    if k > 0 {
      MissedIsAny(trace, es, k - 1);
    }
  }

  /** A frame handled in one go by a running controller keeps the stream. */
  lemma WholeFrameStreams(s: Session, f: Frame, now: int)
    requires Inv(s) && Enabled(s, FrameIn(f, now)) && s.ctx.running && s.ctx.callbackSet && Streamed(s)
    ensures Streamed(WholeFrame(s, f, now))
  {
    WholeFrameIs(s, f, now);
    StepNotifies(s, FrameIn(f, now), Next(s, FrameIn(f, now)));
  }

  // ----- a run that misses one -----

  /** Opened and hearing of 50%, then being closed when it hears of 51%. */
  lemma ChangeWhileClosing(config: Config) returns (trace: seq<Session>, es: seq<Event>)
    ensures Run(trace, es, config, true)
    ensures var s := trace[|es|];
            && s == Start(config, true).(ctx := s.ctx, thread := true, clock := 2, accepted := [50, 51], callbacks := [50])
            && s.ctx == InitContext(config, true).(socketOpen := true, motorPos := 51, motorMov := OFF, learning := 1)
  {
    trace, es := Extend([Start(config, true)], [], config, true, Open);
    trace, es := Extend(trace, es, config, true, FrameIn(OffAt(50), 1));
    assert trace[2].accepted == [50] == trace[2].callbacks;
    trace, es := Extend(trace, es, config, true, CloseBegin);
    trace, es := Extend(trace, es, config, true, FrameIn(OffAt(51), 2));
  }

  /** After it has been opened again and has heard of 51% once more, 50% is still the only
      notification. */
  lemma ChangeMissed(config: Config) returns (trace: seq<Session>, es: seq<Event>)
    ensures Run(trace, es, config, true)
    ensures var s := trace[|es|];
            s.ctx.running && s.accepted == [50, 51, 51] && s.ctx.motorPos == 51 && s.callbacks == [50]
  {
    trace, es := ChangeWhileClosing(config);
    trace, es := Extend(trace, es, config, true, CloseSocket);
    trace, es := Extend(trace, es, config, true, CloseEnd);
    trace, es := Extend(trace, es, config, true, Open);
    trace, es := Extend(trace, es, config, true, FrameIn(OffAt(51), 3));
  }
}
