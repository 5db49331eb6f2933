/** A Move that the broker never hears of: the seat service starts its CAN thread before the data
    feeder has subscribed to positions. */
module UnheardMove {
  import opened Options
  import opened SeatController
  import opened ClosedLoop
  import L = Landing
  import O = OvershootRuns
  import F = Feeder
  import FR = FeederRun
  import FO = FeederOrder
  import FC = FeederConnections
  import FB = FeederBroker
  import FW = FeederWitnesses
  import opened EndToEnd

  /** A request for the percent that the seat is at ... */
  lemma RequestHere(w: World)
    requires O.AtRest(w)
    ensures var w' := Step(w, Request(w.s.ctx.motorPos));
            && Follows(w, Request(w.s.ctx.motorPos), w') && w'.s.setter == Stopped(w.s.ctx.motorPos)
            && w'.s.ctx.motorPos == w.s.ctx.motorPos && w'.s.clock == w.s.clock && w'.s.callbacks == w.s.callbacks
  {}

  /** ... succeeds without moving it. */
  lemma ResumeHere(w: World)
    requires w.s.clock >= 1 && w.s.setter.Stopped? && w.s.setter.target == w.s.ctx.motorPos
    ensures var w' := Step(w, Resume(w.s.clock + 1));
            && Follows(w, Resume(w.s.clock + 1), w') && w'.s.setter.Outside? && w'.s.result == Ok && Idle(w'.s.ctx)
            && w'.s.ctx.motorPos == w.s.ctx.motorPos && w'.s.callbacks == w.s.callbacks
  {}

  /** One frame, and a request for what it reports. */
  lemma SeatRun(u: L.Setup) returns (trace: seq<World>, acts: seq<Act>)
    requires L.SetupSize(u) >= 1
    ensures L.Run(trace, acts, u) && |acts| == 3 && acts[1] == Request(O.StartPercent(u))
    ensures trace[2].s.callbacks == trace[1].s.callbacks == trace[3].s.callbacks
    ensures var s := trace[3].s;
            s.setter.Outside? && s.result == Ok && Idle(s.ctx) && s.ctx.motorPos == O.StartPercent(u)
  {
    trace, acts := O.FirstRun(u);
    var w1 := trace[1];
    RequestHere(w1);
    var w2 := Step(w1, Request(w1.s.ctx.motorPos));
    ResumeHere(w2);
    trace, acts := L.Extend(trace, acts, u, Request(w1.s.ctx.motorPos), w2);
    trace, acts := L.Extend(trace, acts, u, Resume(w2.s.clock + 1), Step(w2, Resume(w2.s.clock + 1)));
  }

  /** A connection on which the first batch is acknowledged; nobody feeds anything. */
  lemma FeederRunOf(config: seq<F.Datapoint<FO.Stamped<Reading>>>)
    returns (trace: seq<FR.State<FO.Stamped<Reading>>>, es: seq<FR.Event<FO.Stamped<Reading>>>)
    requires config != [] && FO.InitialsMarked(config)
    ensures FC.StrictRun(trace, es) && trace[0].config == config
    ensures forall i :: 0 <= i < |es| ==> !es[i].Feed?
    ensures var s := trace[|es|]; s.link.active && FR.Pending(s.box) == map[] && s.box.conn == 1
  {
    var ids;
    trace, es, ids := FW.Registered(config);
    var l, b, initials := trace[|es|].link, trace[|es|].box, F.Initials(config);
    var taken := b.(inflight := initials, conn := 1);
    assert FR.Taken(b, true, initials) == taken;
    trace, es := FW.Fairly(trace, es, FR.Enter, FR.State(config, l, b, FR.Swap(true)));
    trace, es := FW.Fairly(trace, es, FR.Take, FR.State(config, l, taken, FR.Sending(true)));
    trace, es := FW.Fairly(trace, es, FR.Reply(true, F.OTHER(0)), FR.State(config, l, FR.Answered(taken, true, true, ids), FR.Rest));
    StrictIfQuiet(trace, es);
  }

  /** Without the subscriber's interference a run keeps all assumptions. */
  lemma StrictIfQuiet(trace: seq<FR.State<FO.Stamped<Reading>>>, es: seq<FR.Event<FO.Stamped<Reading>>>)
    requires FW.FairButForRaise(trace, es) && forall i :: 0 <= i < |es| ==> !es[i].Subscriber?
    ensures FC.StrictRun(trace, es)
  {
    FC.NoRaiseSuffices(trace, es, |es|);
  }

  /** The closed loop goes first, then the feeder. */
  function Schedule(n: nat): seq<Point> {
    seq(4 + n, j requires 0 <= j < 4 + n => if j <= 3 then Point(j, 0) else Point(3, j - 3))
  }

  /** The only frame before the subscription reports the start percent. A Move to that percent then
      succeeds, and the broker, with everything acknowledged, holds the initial value. */
  lemma MoveUnheard(u: L.Setup, config: seq<F.Datapoint<FO.Stamped<Reading>>>, seat: string)
    returns (trace: seq<World>, acts: seq<Act>, ftrace: seq<FR.State<FO.Stamped<Reading>>>, fes: seq<FR.Event<FO.Stamped<Reading>>>, points: seq<Point>)
    requires L.SetupSize(u) >= 1 && seat in F.Names(config) && FO.InitialsMarked(config)
    ensures JointRun(trace, acts, u, ftrace, fes, seat, 1, points) && ftrace[0].config == config
    ensures |acts| == 3 && acts[1] == Request(MovePercent(10 * O.StartPercent(u)).value)
    ensures var p, s := points[|points| - 1], trace[3].s;
            && p == Point(3, |fes|) && ftrace[p.m].link.active && seat !in FR.Pending(ftrace[p.m].box)
            && s.setter.Outside? && s.result == Ok && Idle(s.ctx) && s.ctx.motorPos == O.StartPercent(u)
            && FB.BrokerValue(ftrace[p.m].box.sends, seat) == Some(F.Initials(config)[seat].val)
  {
    trace, acts := SeatRun(u);
    ftrace, fes := FeederRunOf(config);
    points := Schedule(|fes|);
    forall j | 0 < j < |points|
      ensures Advances(trace, fes, seat, 1, points[j - 1], points[j])
    {}
    BrokerMirrorsMotor(trace, acts, u, ftrace, fes, seat, 1, points, |points| - 1);
  }
}
