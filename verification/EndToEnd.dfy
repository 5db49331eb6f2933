/** From a Move request to the value the data broker holds: the seat service's scaling, the
    closed loop, the position callback and the feeder put together. */
module EndToEnd {
  import opened Options
  import opened CanBus
  import opened SeatController
  import CR = ControllerRun
  import CB = ControllerCallbacks
  import opened ClosedLoop
  import E = SeatEngine
  import Landing
  import S = Settling
  import F = Feeder
  import FR = FeederRun
  import FO = FeederOrder
  import FC = FeederConnections
  import FB = FeederBroker

  /** What the seat service feeds for its position datapoint. */
  datatype Reading = Uint(value: nat) | NotAvailable | InvalidValue

  /** SeatServiceImpl::Move: tenths of a percent to whole percent, rounded. */
  function MovePercent(base: int): Option<Percent> {
    if base < 0 || 1000 < base then None else Some((base + 5) / 10)
  }

  /** seatctrl_event_cb: the position handed on to the subscriber. */
  function Reported(motorPos: uint8): int {
    if motorPos == MOTOR_POS_INVALID then -1 else motorPos
  }

  /** The position callback of SeatDataFeeder. */
  function ReadingOf(position: int): Reading {
    if 0 <= position <= 100 then Uint(position * 10)
    else if position == -1 then NotAvailable
    else InvalidValue
  }

  /** A Move is refused outside 0..1000, and otherwise asks for the nearest percent, the higher one
      half-way. */
  lemma MoveAsksFor(base: int)
    ensures MovePercent(base).None? <==> base < 0 || base > 1000
    ensures MovePercent(base).Some? ==> var p := MovePercent(base).value; 0 <= p <= 100 && 10 * p - 5 <= base < 10 * p + 5
  {}

  /** A known position is fed as ten times its percent, an unknown one (255) as not available, and
      any other as invalid. */
  lemma PositionIsFed(motorPos: uint8)
    ensures motorPos <= 100 ==> ReadingOf(Reported(motorPos)) == Uint(10 * motorPos)
    ensures motorPos == 255 ==> ReadingOf(Reported(motorPos)) == NotAvailable
    ensures 100 < motorPos < 255 ==> ReadingOf(Reported(motorPos)) == InvalidValue
  {}

  method PositionChanged(feeder: F.DataBrokerFeeder<Reading>, seat: string, motorPos: uint8)
    modifies feeder`stored
    ensures feeder.stored == if feeder.active then old(feeder.stored) + map[seat := ReadingOf(Reported(motorPos))] else old(feeder.stored)
    ensures var reading := if motorPos <= 100 then Uint(10 * motorPos) else if motorPos == 255 then NotAvailable else InvalidValue;
            feeder.active ==> seat in feeder.stored && feeder.stored[seat] == reading
  {
    var position := if motorPos == MOTOR_POS_INVALID then -1 else motorPos;
    var reading;
    if 0 <= position <= 100 {
      reading := Uint(position * 10);
    } else if position == -1 {
      reading := NotAvailable;
    } else {
      reading := InvalidValue;
    }
    feeder.FeedValue(seat, reading);
  }

  /** The values fed for a name, in order. */
  function FedFor(log: seq<F.Values<FO.Stamped<Reading>>>, n: string): seq<FO.Stamped<Reading>> {
    if log == [] then []
    else FedFor(log[..|log| - 1], n) + if n in log[|log| - 1] then [log[|log| - 1][n]] else []
  }

  /** The feeder was given exactly the readings of the controller's notifications. */
  predicate FedFrom(log: seq<F.Values<FO.Stamped<Reading>>>, n: string, callbacks: seq<uint8>) {
    && |FedFor(log, n)| == |callbacks|
    && forall i :: 0 <= i < |callbacks| ==> FedFor(log, n)[i].val == ReadingOf(Reported(callbacks[i]))
  }

  lemma {:induction false} LastFeed(log: seq<F.Values<FO.Stamped<Reading>>>, n: string) returns (i: nat)
    requires FedFor(log, n) != []
    ensures FO.LatestFeed(log, n, i)
    ensures log[i][n] == FedFor(log, n)[|FedFor(log, n)| - 1]
  {
    var front := log[..|log| - 1];
    if n in log[|log| - 1] {
      i := |log| - 1;
    } else {
      i := LastFeed(front, n);
      assert forall j :: 0 <= j < |front| ==> log[j] == front[j];
    }
  }

  /** The last position the controller has notified is the one it holds. */
  lemma LastNotification(trace: seq<World>, acts: seq<Act>, u: Landing.Setup, k: nat)
    requires Landing.Run(trace, acts, u) && Landing.SetupSize(u) >= 1
    requires k < |trace| && trace[k].s.ctx.motorPos != MOTOR_POS_INVALID
    ensures var s := trace[k].s; |s.callbacks| > 0 && s.callbacks[|s.callbacks| - 1] == s.ctx.motorPos <= 100
  {
    Landing.RunInv(trace, acts, u, k);
    var s := trace[k].s;
    CB.DedupLast(MOTOR_POS_INVALID, s.accepted);
    assert CR.LastOr(MOTOR_POS_INVALID, s.callbacks) == s.ctx.motorPos;
  }

  // ----- the closed loop and the feeder together -----

  /** A point of a joint run: the closed loop has made `i` steps and the feeder `m`. */
  datatype Point = Point(i: nat, m: nat)

  /** The position callback's feed of `pos`. */
  predicate FeedsReading(e: FR.Event<FO.Stamped<Reading>>, seat: string, pos: uint8) {
    e.Feed? && !e.late && e.values.Keys == {seat} && e.values[seat].val == ReadingOf(Reported(pos))
  }

  /** From `p` to `q` the closed loop takes a step that notifies nobody, or the feeder takes one
      that feeds nothing for the seat, or a step of the closed loop notifies a position and the
      callback feeds it. The callback is subscribed when the closed loop has made `sub` steps;
      what is notified before is dropped. */
  predicate Advances(trace: seq<World>, fes: seq<FR.Event<FO.Stamped<Reading>>>, seat: string, sub: nat, p: Point, q: Point) {
    || (q == Point(p.i + 1, p.m) && q.i < |trace| && (p.i < sub || trace[q.i].s.callbacks == trace[p.i].s.callbacks))
    || (q == Point(p.i, p.m + 1) && p.m < |fes| && (fes[p.m].Feed? ==> seat !in fes[p.m].values))
    || (q == Point(p.i + 1, p.m + 1) && sub <= p.i && q.i < |trace| && p.m < |fes| && NotifiesAndFeeds(trace[p.i], trace[q.i], fes[p.m], seat))
  }

  predicate NotifiesAndFeeds(w: World, w': World, e: FR.Event<FO.Stamped<Reading>>, seat: string) {
    var before, after := w.s.callbacks, w'.s.callbacks;
    |after| == |before| + 1 && after[..|before|] == before && FeedsReading(e, seat, after[|before|])
  }

  ghost predicate JointRun(
    trace: seq<World>, acts: seq<Act>, u: Landing.Setup,
    ftrace: seq<FR.State<FO.Stamped<Reading>>>, fes: seq<FR.Event<FO.Stamped<Reading>>>, seat: string, sub: nat, points: seq<Point>)
  {
    && Landing.Run(trace, acts, u) && Landing.SetupSize(u) >= 1 && FC.StrictRun(ftrace, fes)
    && |points| > 0 && points[0] == Point(0, 0)
    && forall j :: 0 < j < |points| ==> Advances(trace, fes, seat, sub, points[j - 1], points[j])
  }

  /** No act of the closed loop notifies more than one position, so none is left out. */
  lemma OneNotification(w: World, a: Act)
    requires w.s.loop.Awake?
    ensures var before, after := w.s.callbacks, Step(w, a).s.callbacks;
            after == before || (|after| == |before| + 1 && after[..|before|] == before)
  {}

  lemma {:induction false} InBounds(
    trace: seq<World>, acts: seq<Act>, u: Landing.Setup,
    ftrace: seq<FR.State<FO.Stamped<Reading>>>, fes: seq<FR.Event<FO.Stamped<Reading>>>, seat: string, sub: nat, points: seq<Point>, j: nat)
    requires JointRun(trace, acts, u, ftrace, fes, seat, sub, points) && j < |points|
    ensures points[j].i < |trace| && points[j].m < |ftrace|
  {
    if j > 0 {
      InBounds(trace, acts, u, ftrace, fes, seat, sub, points, j - 1);
      assert Advances(trace, fes, seat, sub, points[j - 1], points[j]);
    }
  }

  lemma FedMore(log: seq<F.Values<FO.Stamped<Reading>>>, values: F.Values<FO.Stamped<Reading>>, n: string)
    ensures FedFor(log + [values], n) == FedFor(log, n) + if n in values then [values[n]] else []
  {
    assert (log + [values])[..|log|] == log;
  }

  /** What one step of the feeder adds to what it was fed for the seat. */
  lemma FeederStep(s: FR.State<FO.Stamped<Reading>>, e: FR.Event<FO.Stamped<Reading>>, s': FR.State<FO.Stamped<Reading>>, n: string)
    requires FR.Follows(s, e, s') && s'.link.active
    ensures s.link.active
    ensures FedFor(s'.box.log, n) == FedFor(s.box.log, n) + if e.Feed? && n in e.values then [e.values[n]] else []
  {
    FO.ActiveBefore(s, e, s');
    if e.Feed? {
      FedMore(s.box.log, e.values, n);
    } else {
      FO.LogKept(s, e, s');
    }
  }

  lemma RunFeeds(ftrace: seq<FR.State<FO.Stamped<Reading>>>, fes: seq<FR.Event<FO.Stamped<Reading>>>, m: nat, n: string)
    requires FC.StrictRun(ftrace, fes) && m < |fes| && ftrace[m + 1].link.active
    ensures ftrace[m].link.active
    ensures FedFor(ftrace[m + 1].box.log, n) == FedFor(ftrace[m].box.log, n) + if fes[m].Feed? && n in fes[m].values then [fes[m].values[n]] else []
  {
    assert FR.StepAt(ftrace, fes, m);
    FeederStep(ftrace[m], fes[m], ftrace[m + 1], n);
  }

  lemma FedOne(log: seq<F.Values<FO.Stamped<Reading>>>, log': seq<F.Values<FO.Stamped<Reading>>>, e: FR.Event<FO.Stamped<Reading>>, n: string,
               callbacks: seq<uint8>, callbacks': seq<uint8>)
    requires FedFrom(log, n, callbacks)
    requires FedFor(log', n) == FedFor(log, n) + if e.Feed? && n in e.values then [e.values[n]] else []
    requires if e.Feed? && n in e.values
             then |callbacks'| == |callbacks| + 1 && callbacks'[..|callbacks|] == callbacks && FeedsReading(e, n, callbacks'[|callbacks|])
             else callbacks' == callbacks
    ensures FedFrom(log', n, callbacks')
  {}

  /** The positions notified at step `i` or before, and not before the subscription. */
  function Subscribed(trace: seq<World>, sub: nat, i: nat): seq<uint8>
    requires i < |trace|
  {
    if i <= sub || |trace[i].s.callbacks| <= |trace[sub].s.callbacks| then []
    else trace[i].s.callbacks[|trace[sub].s.callbacks|..]
  }

  /** Notifications only accumulate. */
  lemma {:induction false} CallbacksGrow(trace: seq<World>, acts: seq<Act>, u: Landing.Setup, i: nat, j: nat)
    requires Landing.Run(trace, acts, u) && Landing.SetupSize(u) >= 1 && i <= j < |trace|
    ensures trace[i].s.callbacks <= trace[j].s.callbacks
    decreases j
  {
    if i < j {
      CallbacksGrow(trace, acts, u, i, j - 1);
      CallbackStep(trace, acts, u, j - 1);
    }
  }

  lemma CallbackStep(trace: seq<World>, acts: seq<Act>, u: Landing.Setup, i: nat)
    requires Landing.Run(trace, acts, u) && Landing.SetupSize(u) >= 1 && i < |acts|
    ensures trace[i].s.callbacks <= trace[i + 1].s.callbacks
  {
    Landing.RunInv(trace, acts, u, i);
    assert Landing.StepAt(trace, acts, i);
    OneNotification(trace[i], acts[i]);
  }

  /** One step of the closed loop, by what it adds to that. */
  lemma SubscribedStep(trace: seq<World>, acts: seq<Act>, u: Landing.Setup, sub: nat, i: nat)
    requires Landing.Run(trace, acts, u) && Landing.SetupSize(u) >= 1 && i < |acts|
    ensures |trace[i].s.callbacks| <= |trace[i + 1].s.callbacks|
    ensures Subscribed(trace, sub, i + 1) == if i < sub then [] else Subscribed(trace, sub, i) + trace[i + 1].s.callbacks[|trace[i].s.callbacks|..]
    ensures i < sub ==> Subscribed(trace, sub, i) == []
  {
    if sub <= i {
      CallbacksGrow(trace, acts, u, sub, i);
    }
    CallbackStep(trace, acts, u, i);
  }

  /** As long as the feeder is active it has been fed exactly the readings of all notifications
      since the subscription. */
  lemma {:induction false} FedAlong(
    trace: seq<World>, acts: seq<Act>, u: Landing.Setup,
    ftrace: seq<FR.State<FO.Stamped<Reading>>>, fes: seq<FR.Event<FO.Stamped<Reading>>>, seat: string, sub: nat, points: seq<Point>, j: nat)
    requires JointRun(trace, acts, u, ftrace, fes, seat, sub, points) && j < |points|
    ensures points[j].i < |trace| && points[j].m < |ftrace|
    ensures ftrace[points[j].m].link.active ==> FedFrom(ftrace[points[j].m].box.log, seat, Subscribed(trace, sub, points[j].i))
  {
    InBounds(trace, acts, u, ftrace, fes, seat, sub, points, j);
    if j == 0 {
      FedAtStart(trace, acts, u, ftrace, fes, seat, sub);
    } else {
      FedAlong(trace, acts, u, ftrace, fes, seat, sub, points, j - 1);
      var p, q := points[j - 1], points[j];
      assert Advances(trace, fes, seat, sub, p, q);
      SubscribedNext(trace, acts, u, fes, seat, sub, p, q);
      FedNext(ftrace, fes, seat, p, q, Subscribed(trace, sub, p.i), Subscribed(trace, sub, q.i));
    }
  }

  lemma FedAtStart(
    trace: seq<World>, acts: seq<Act>, u: Landing.Setup,
    ftrace: seq<FR.State<FO.Stamped<Reading>>>, fes: seq<FR.Event<FO.Stamped<Reading>>>, seat: string, sub: nat)
    requires Landing.Run(trace, acts, u) && FC.StrictRun(ftrace, fes)
    ensures FedFrom(ftrace[0].box.log, seat, Subscribed(trace, sub, 0))
  {}

  /** A step of a joint run conveys to the feeder what it adds to the notifications heard. */
  predicate Conveys(fes: seq<FR.Event<FO.Stamped<Reading>>>, seat: string, p: Point, q: Point, before: seq<uint8>, after: seq<uint8>) {
    if q.m == p.m + 1 && p.m < |fes| && fes[p.m].Feed? && seat in fes[p.m].values
    then |after| == |before| + 1 && after[..|before|] == before && FeedsReading(fes[p.m], seat, after[|before|])
    else after == before
  }

  lemma SubscribedNext(
    trace: seq<World>, acts: seq<Act>, u: Landing.Setup,
    fes: seq<FR.Event<FO.Stamped<Reading>>>, seat: string, sub: nat, p: Point, q: Point)
    requires Landing.Run(trace, acts, u) && Landing.SetupSize(u) >= 1
    requires Advances(trace, fes, seat, sub, p, q) && p.i < |trace| && q.i < |trace|
    ensures Conveys(fes, seat, p, q, Subscribed(trace, sub, p.i), Subscribed(trace, sub, q.i))
  {
    if q.i == p.i + 1 {
      SubscribedStep(trace, acts, u, sub, p.i);
    }
    AdvanceConveys(trace, fes, seat, sub, p, q, Subscribed(trace, sub, p.i), Subscribed(trace, sub, q.i));
  }

  lemma AdvanceConveys(trace: seq<World>, fes: seq<FR.Event<FO.Stamped<Reading>>>, seat: string, sub: nat, p: Point, q: Point,
                       before: seq<uint8>, after: seq<uint8>)
    requires Advances(trace, fes, seat, sub, p, q) && p.i < |trace| && q.i < |trace|
    requires |trace[p.i].s.callbacks| <= |trace[q.i].s.callbacks|
    requires q.i == p.i ==> after == before
    requires q.i == p.i + 1 ==> after == if p.i < sub then [] else before + trace[q.i].s.callbacks[|trace[p.i].s.callbacks|..]
    requires q.i == p.i + 1 && p.i < sub ==> before == []
    ensures Conveys(fes, seat, p, q, before, after)
  {}

  lemma FedNext(
    ftrace: seq<FR.State<FO.Stamped<Reading>>>, fes: seq<FR.Event<FO.Stamped<Reading>>>, seat: string, p: Point, q: Point,
    heard: seq<uint8>, heard': seq<uint8>)
    requires FC.StrictRun(ftrace, fes) && p.m < |ftrace| && q.m < |ftrace| && (q.m == p.m || q.m == p.m + 1)
    requires Conveys(fes, seat, p, q, heard, heard')
    requires ftrace[p.m].link.active ==> FedFrom(ftrace[p.m].box.log, seat, heard)
    ensures ftrace[q.m].link.active ==> FedFrom(ftrace[q.m].box.log, seat, heard')
  {
    if q.m == p.m + 1 && ftrace[q.m].link.active {
      RunFeeds(ftrace, fes, p.m, seat);
      FedOne(ftrace[p.m].box.log, ftrace[q.m].box.log, fes[p.m], seat, heard, heard');
    }
  }

  /** The last of them, if any, is the one the controller holds. */
  lemma LastSubscribed(trace: seq<World>, acts: seq<Act>, u: Landing.Setup, sub: nat, i: nat)
    requires Landing.Run(trace, acts, u) && Landing.SetupSize(u) >= 1
    requires i < |trace| && trace[i].s.ctx.motorPos != MOTOR_POS_INVALID && Subscribed(trace, sub, i) != []
    ensures var h := Subscribed(trace, sub, i); h[|h| - 1] == trace[i].s.ctx.motorPos <= 100
  {
    LastNotification(trace, acts, u, i);
  }

  /** Whatever the closed loop does, at any point of a joint run where nothing is pending for the
      seat: the broker holds ten times the motor percent that the controller holds if a position
      was notified since the subscription and the connection that took the last one is still up;
      otherwise the initial value, or nothing before the first connection. */
  lemma BrokerMirrorsMotor(
    trace: seq<World>, acts: seq<Act>, u: Landing.Setup,
    ftrace: seq<FR.State<FO.Stamped<Reading>>>, fes: seq<FR.Event<FO.Stamped<Reading>>>, seat: string, sub: nat, points: seq<Point>, j: nat)
    requires JointRun(trace, acts, u, ftrace, fes, seat, sub, points) && j < |points|
    requires points[j].i < |trace| && points[j].m < |ftrace|
    requires trace[points[j].i].s.ctx.motorPos != MOTOR_POS_INVALID && ftrace[points[j].m].link.active
    requires seat in F.Names(ftrace[0].config) && seat !in FR.Pending(ftrace[points[j].m].box)
    ensures var b := ftrace[points[j].m].box;
            FB.BrokerValue(b.sends, seat) ==
            if Subscribed(trace, sub, points[j].i) != [] && FB.StillUp(b, seat) then Some(Uint(10 * trace[points[j].i].s.ctx.motorPos))
            else if b.conn == 0 then None
            else Some(F.Initials(ftrace[0].config)[seat].val)
  {
    FedAlong(trace, acts, u, ftrace, fes, seat, sub, points, j);
    var m := points[j].m;
    if Subscribed(trace, sub, points[j].i) == [] {
      NeverFed(ftrace[m].box.log, seat);
      FB.NeverFedHolds(ftrace, fes, m, seat);
    } else {
      LastSubscribed(trace, acts, u, sub, points[j].i);
      var i := LastFeed(ftrace[m].box.log, seat);
      FB.BrokerHolds(ftrace, fes, m, seat, i);
      FB.FedIsConnected(ftrace, fes, m, seat, i);
    }
  }

  lemma {:induction false} NeverFed(log: seq<F.Values<FO.Stamped<Reading>>>, n: string)
    requires FedFor(log, n) == []
    ensures forall i :: 0 <= i < |log| ==> n !in log[i]
  {
    if log != [] {
      NeverFed(log[..|log| - 1], n);
      assert forall i :: 0 <= i < |log| - 1 ==> log[i] == log[..|log| - 1][i];
    }
  }

  /** End to end: a Move to `base` (0..1000) that nobody disturbs and that does not time out. At a
      point of a joint run where it has settled and nothing is pending for the seat, the final
      motor percent times ten is within 5 of `base`, and the broker holds it if and only if a
      position was notified since the subscription and the feeder has not reconnected since the
      last one was taken, or the initial value happens to be the same. */
  lemma MoveReachesBroker(
    trace: seq<World>, acts: seq<Act>, u: Landing.Setup, k: nat, base: int,
    ftrace: seq<FR.State<FO.Stamped<Reading>>>, fes: seq<FR.Event<FO.Stamped<Reading>>>, seat: string, sub: nat, points: seq<Point>, j: nat)
    requires JointRun(trace, acts, u, ftrace, fes, seat, sub, points) && j < |points| && Landing.SetupSize(u) <= 1024
    requires k < points[j].i < |trace| && points[j].m < |ftrace|
    requires MovePercent(base).Some? && acts[k] == Request(MovePercent(base).value) && S.Undisturbed(trace, acts, u, k, points[j].i)
    requires var s := trace[points[j].i].s; s.setter.Outside? && s.result == Ok && !Active(s.ctx)
    requires ftrace[points[j].m].link.active && seat in F.Names(ftrace[0].config) && seat !in FR.Pending(ftrace[points[j].m].box)
    ensures var final, b := E.PosPercent(trace[points[j].i].e.pos), ftrace[points[j].m].box;
            && 0 <= final && -5 <= 10 * final - base <= 5
            && (FB.BrokerValue(b.sends, seat) == Some(Uint(10 * final)) <==>
                || (Subscribed(trace, sub, points[j].i) != [] && FB.StillUp(b, seat))
                || (b.conn > 0 && F.Initials(ftrace[0].config)[seat].val == Uint(10 * final)))
  {
    S.RequestSettles(trace, acts, u, k, points[j].i, MovePercent(base).value);
    BrokerMirrorsMotor(trace, acts, u, ftrace, fes, seat, sub, points, j);
  }
}
