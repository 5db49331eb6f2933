/** Runs in which the subscriber raises connected_ where the guarantees of FeederOrder and
    FeederConnections assume that it does not, and what is lost there. */
module FeederWitnesses {
  import opened Options
  import opened Feeder
  import opened FeederRun
  import opened FeederOrder
  import opened FeederConnections

  /** All assumptions of a FairRun hold but the one on connected_. */
  ghost predicate FairButForRaise<T>(trace: seq<State<Stamped<T>>>, es: seq<Event<Stamped<T>>>) {
    NumberedRun(trace, es) && forall i :: 0 <= i < |es| ==> CompleteReply(trace[i], es[i])
  }

  lemma Fairly<T>(trace: seq<State<Stamped<T>>>, es: seq<Event<Stamped<T>>>, e: Event<Stamped<T>>, s: State<Stamped<T>>)
    returns (trace': seq<State<Stamped<T>>>, es': seq<Event<Stamped<T>>>)
    requires FairButForRaise(trace, es) && Follows(trace[|es|], e, s)
    requires Numbered(trace[|es|], e) && CompleteReply(trace[|es|], e)
    ensures FairButForRaise(trace', es') && es' == es + [e] && |trace'| == |es'| + 1 && trace'[|es'|] == s && trace'[0] == trace[0]
  {
    trace', es' := Extend(trace, es, e, s);
  }

  /** A value is fed and the first connect fails, so nothing is registered. */
  lemma Unregistered<T>(config: seq<Datapoint<Stamped<T>>>, fed: Values<Stamped<T>>)
    returns (trace: seq<State<Stamped<T>>>, es: seq<Event<Stamped<T>>>)
    requires InitialsMarked(config) && forall n :: n in fed ==> fed[n].Update? && fed[n].seqNo == 0
    ensures FairButForRaise(trace, es) && trace[0].config == config
    ensures trace[|es|] == State(config, Link(true, false, true, map[], map[]), Box(fed, map[], 0, 0, [fed], []), Inner(true))
  {
    var s0 := Start(config);
    var b := Box(fed, map[], 0, 0, [fed], []);
    var l := Link(true, false, false, map[], map[]);
    trace, es := Fairly([s0], [], Feed(fed, false), State(config, l, b, Top));
    trace, es := Fairly(trace, es, Connect(false), State(config, l, b, Check));
    trace, es := Fairly(trace, es, Test, State(config, l.(ready := true), b, Inner(true)));
  }

  /** Before the inner loop is entered the subscriber connects, and a batch is taken. */
  lemma TakenWithoutIds<T>(config: seq<Datapoint<Stamped<T>>>, fed: Values<Stamped<T>>)
    returns (trace: seq<State<Stamped<T>>>, es: seq<Event<Stamped<T>>>)
    requires InitialsMarked(config) && forall n :: n in fed ==> fed[n].Update? && fed[n].seqNo == 0
    ensures FairButForRaise(trace, es) && trace[0].config == config
    ensures trace[|es|] == State(config, Link(true, true, true, map[], map[]),
                                 Taken(Box(fed, map[], 0, 0, [fed], []), true, Initials(config)), Sending(true))
  {
    trace, es := Unregistered(config, fed);
    var b := trace[|es|].box;
    var l := Link(true, true, true, map[], map[]);
    trace, es := Fairly(trace, es, Subscriber(true), State(config, l, b, Inner(true)));
    trace, es := Fairly(trace, es, Enter, State(config, l, b, Swap(true)));
    trace, es := Fairly(trace, es, Take, State(config, l, Taken(b, true, Initials(config)), Sending(true)));
  }

  /** The batch goes out without ids, is acknowledged, and the value fed is neither pending nor
      acknowledged. */
  lemma EntryRaiseRun<T>(config: seq<Datapoint<Stamped<T>>>, n: string, v: T, code: Code)
    returns (trace: seq<State<Stamped<T>>>, es: seq<Event<Stamped<T>>>)
    requires n in Names(config) && InitialsMarked(config)
    ensures FairButForRaise(trace, es) && trace[0].config == config
    ensures var s := trace[|es|];
            && s.link.active && LatestFeed(s.box.log, n, 0) && s.box.log[0][n] == Update(0, v)
            && !Held(s.box, n, Update(0, v))
  {
    trace, es := TakenWithoutIds(config, map[n := Update(0, v)]);
    var l, taken := trace[|es|].link, trace[|es|].box;
    var answered := taken.(inflight := map[], sends := [Send(1, true, true, map[])]);
    assert Known(taken.inflight, l.ids) == map[];
    trace, es := Fairly(trace, es, Reply(true, code), State(config, l, answered, Rest));
    NotHeld(answered, n, Update(0, v));
  }

  lemma NotHeld<V>(b: Box<V>, n: string, v: V)
    requires b.stored == map[] && b.inflight == map[] && |b.sends| == 1 && b.sends[0].values == map[]
    ensures !Held(b, n, v)
  {}

  /** A connection on which everything is registered. */
  lemma Registered<T>(config: seq<Datapoint<Stamped<T>>>)
    returns (trace: seq<State<Stamped<T>>>, es: seq<Event<Stamped<T>>>, ids: map<string, int>)
    requires config != [] && InitialsMarked(config)
    ensures FairButForRaise(trace, es) && trace[0].config == config && ids.Keys == Names(config)
    ensures forall i :: 0 <= i < |es| ==> !es[i].Subscriber? && !es[i].Feed?
    ensures trace[|es|] == State(config, Link(true, true, true, ids, map[]), Box(map[], map[], 0, 0, [], []), Inner(true))
  {
    ids := map n | n in Names(config) :: 0;
    var b := Box(map[], map[], 0, 0, [], []);
    var l := Link(true, true, false, map[], map[]);
    trace, es := Fairly([Start(config)], [], Connect(true), State(config, l, b, Check));
    trace, es := Fairly(trace, es, Test, State(config, l, b, Register));
    assert config[0] in config && !AllRegistered(config, map[]);
    assert l.meta + map[] == l.meta;
    trace, es := Fairly(trace, es, MetaReply(Some(map[]), OTHER(0)), State(config, l, b, RegisterRpc));
    trace, es := Fairly(trace, es, IdReply(Some(ids), OTHER(0)), State(config, l.(ids := ids, ready := true), b, Inner(true)));
  }

  /** Its first batch fails. */
  lemma FirstFails<T>(config: seq<Datapoint<Stamped<T>>>, code: Code)
    returns (trace: seq<State<Stamped<T>>>, es: seq<Event<Stamped<T>>>, ids: map<string, int>)
    requires config != [] && InitialsMarked(config) && !Unrecoverable(code)
    ensures FairButForRaise(trace, es) && trace[0].config == config && ids.Keys == Names(config)
    ensures var initials := Initials(config);
            trace[|es|] == State(config, Link(true, false, true, ids, map[]),
                                 Box(map[], initials, 1, 0, [], [Send(1, true, false, Known(initials, ids))]), Restoring)
  {
    trace, es, ids := Registered(config);
    var l, b := trace[|es|].link, trace[|es|].box;
    trace, es := Fairly(trace, es, Enter, State(config, l, b, Swap(true)));
    var taken := Box(map[], Initials(config), 1, 0, [], []);
    assert Taken(b, true, Initials(config)) == taken;
    trace, es := Fairly(trace, es, Take, State(config, l, taken, Sending(true)));
    trace, es := Fairly(trace, es, Reply(false, code),
                        State(config, l.(connected := false), Answered(taken, true, false, ids), Restoring));
  }

  /** The subscriber connects again before the inner loop is left, which therefore goes on. */
  lemma GoesOn<T>(config: seq<Datapoint<Stamped<T>>>, code: Code)
    returns (trace: seq<State<Stamped<T>>>, es: seq<Event<Stamped<T>>>, ids: map<string, int>)
    requires config != [] && InitialsMarked(config) && !Unrecoverable(code)
    ensures FairButForRaise(trace, es) && trace[0].config == config && ids.Keys == Names(config)
    ensures var initials := Initials(config);
            trace[|es|] == State(config, Link(true, true, true, ids, map[]),
                                 Box(initials, map[], 1, 0, [], [Send(1, true, false, Known(initials, ids))]), Swap(false))
  {
    trace, es, ids := FirstFails(config, code);
    var l, b := trace[|es|].link.(connected := true), trace[|es|].box;
    trace, es := Fairly(trace, es, Subscriber(true), State(config, l, b, Restoring));
    var restored := b.(stored := Initials(config), inflight := map[]);
    assert Restored(b) == restored;
    trace, es := Fairly(trace, es, PutBack, State(config, l, restored, Rest));
    trace, es := Fairly(trace, es, Recheck, State(config, l, restored, Inner(false)));
    trace, es := Fairly(trace, es, Enter, State(config, l, restored, Swap(false)));
  }

  /** The next batch is the failed one. */
  lemma TakesAgain<T>(config: seq<Datapoint<Stamped<T>>>, code: Code)
    returns (trace: seq<State<Stamped<T>>>, es: seq<Event<Stamped<T>>>, ids: map<string, int>)
    requires config != [] && InitialsMarked(config) && !Unrecoverable(code)
    ensures FairButForRaise(trace, es) && trace[0].config == config && ids.Keys == Names(config)
    ensures var initials := Initials(config);
            trace[|es|] == State(config, Link(true, true, true, ids, map[]),
                                 Box(map[], initials, 1, 0, [], [Send(1, true, false, Known(initials, ids))]), Sending(false))
  {
    trace, es, ids := GoesOn(config, code);
    var l, b := trace[|es|].link, trace[|es|].box;
    var taken := b.(stored := map[], inflight := Initials(config));
    assert Taken(b, false, Initials(config)) == taken;
    trace, es := Fairly(trace, es, Take, State(config, l, taken, Sending(false)));
  }

  /** So the next batch goes out on the connection whose first one failed, and carries initial
      values. */
  lemma ExitRaiseRun<T>(config: seq<Datapoint<Stamped<T>>>, n: string, code: Code)
    returns (trace: seq<State<Stamped<T>>>, es: seq<Event<Stamped<T>>>)
    requires n in Names(config) && InitialsMarked(config) && !Unrecoverable(code)
    ensures FairButForRaise(trace, es) && trace[0].config == config
    ensures var sends := trace[|es|].box.sends;
            && |sends| == 2 && sends[0].conn == sends[1].conn && !sends[0].ok && sends[1].ok && !sends[1].first
            && Carries(sends[1].values, n, Initials(config)[n])
  {
    var ids;
    trace, es, ids := TakesAgain(config, code);
    var l, b := trace[|es|].link, trace[|es|].box;
    trace, es := Fairly(trace, es, Reply(true, code), State(config, l, Answered(b, false, true, ids), Rest));
  }
}
