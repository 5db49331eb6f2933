/** The feeder's thread and its callers at work on the object: each program point of Run() and
    each entry from another thread performs exactly the step that FeederRun describes. */
module FeederThread {
  import opened Options
  import opened Feeder
  import opened FeederRun

  /** What registerDatapoints does to the link, in the terms of its contract, is what the run
      model makes of its one or two calls. */
  lemma RegisterSteps<V>(s: State<V>, l: Link, ok: bool, metaReply: Option<map<string, Metadata>>, metaCode: Code,
                         idReply: Option<map<string, int>>, idCode: Code)
    requires s.pc.Register? && l.ready == s.link.ready
    requires var asked, all := s.config != [], AllRegistered(s.config, l.meta);
             && (ok <==> all || idReply.Some?)
             && l.ids == (if all then s.link.ids + Ids(l.meta) else if idReply.Some? then idReply.value else s.link.ids)
             && l.meta == (if asked && metaReply.Some? then s.link.meta + metaReply.value else s.link.meta)
             && l.active == (s.link.active && !(asked && metaReply.None? && Unrecoverable(metaCode)) && (ok || !Unrecoverable(idCode)))
             && l.connected == (s.link.connected && ok && (!asked || metaReply.Some?))
    ensures var s1 := Next(s, MetaReply(metaReply, metaCode));
            (if s1.pc.RegisterRpc? then Next(s1, IdReply(idReply, idCode)) else s1) ==
            if ok then s.(link := l.(ready := true), pc := Inner(true)) else s.(link := l, pc := Top)
  {
    assert AfterMeta(s.config, s.link, metaReply, metaCode).meta == l.meta;
  }

  class Thread<V> {
    const feeder: DataBrokerFeeder<V>
    var pc: Pc
    var batch: Values<V>  // values_to_feed while a batch is on its way
    ghost var conn: nat
    ghost var mark: nat
    ghost var log: seq<Values<V>>
    ghost var sends: seq<Send<V>>

    ghost function View(): State<V>
      reads this, feeder
    {
      State(feeder.config,
            Link(feeder.active, feeder.connected, feeder.ready, feeder.ids, feeder.meta),
            Box(feeder.stored, batch, conn, mark, log, sends), pc)
    }

    constructor (config: seq<Datapoint<V>>)
      ensures View() == Start(config) && fresh(feeder)
    {
      feeder := new DataBrokerFeeder(config);
      pc, batch := Top, map[];
      conn, mark, log, sends := 0, 0, [], [];
    }

    /** A caller of FeedValues. */
    method Feed(values: Values<V>)
      modifies this`log, feeder`stored
      ensures View() == Next(old(View()), Event.Feed(values, false))
    {
      feeder.FeedValues(values);
      if feeder.active {
        log := log + [values];
      }
    }

    /** One that had passed the test of feeder_active_ when the feeder was shut down. */
    method FeedLate(values: Values<V>)
      modifies this`log, feeder`stored
      ensures View() == Next(old(View()), Event.Feed(values, true))
    {
      feeder.StoreValues(values);
      log := log + [values];
    }

    method SwapOut()
      requires pc.Swap?
      modifies this, feeder`stored
      ensures View() == Next(old(View()), Take)
    {
      batch := feeder.TakeBatch(pc.first);
      conn, mark := if pc.first then conn + 1 else conn, |log|;
      pc := Sending(pc.first);
    }

    /** The answer to UpdateDatapoints. */
    method Answer(ok: bool, code: Code)
      requires pc.Sending?
      modifies this, feeder`active, feeder`connected
      ensures View() == Next(old(View()), Event.Reply(ok, code))
    {
      sends := sends + [Send(conn, pc.first, ok, Known(batch, feeder.ids))];
      if ok {
        batch := map[];
        pc := Rest;
      } else {
        feeder.HandleError(code);
        pc := Restoring;
      }
    }

    method Restore()
      requires pc.Restoring?
      modifies this`pc, this`batch, feeder`stored
      ensures View() == Next(old(View()), PutBack)
    {
      feeder.RestoreValues(batch);
      batch := map[];
      pc := Rest;
    }

    /** Registration undisturbed by others: the second call is made only if the first does not
        find everything registered. */
    method RegisterAll(metaReply: Option<map<string, Metadata>>, metaCode: Code,
                       idReply: Option<map<string, int>>, idCode: Code)
      requires pc.Register?
      modifies this`pc, feeder
      ensures var s := Next(old(View()), MetaReply(metaReply, metaCode));
              View() == if s.pc.RegisterRpc? then Next(s, IdReply(idReply, idCode)) else s
    {
      var ok := feeder.RegisterDatapoints(metaReply, metaCode, idReply, idCode);
      RegisterSteps(old(View()), View().link, ok, metaReply, metaCode, idReply, idCode);
      if ok {
        feeder.ready := true;
        pc := Inner(true);
      } else {
        pc := Top;
      }
    }

    /** Registration in two steps, between which others may act. */
    method AnswerMeta(reply: Option<map<string, Metadata>>, code: Code)
      requires pc.Register?
      modifies this`pc, feeder
      ensures View() == Next(old(View()), MetaReply(reply, code))
    {
      var registered := feeder.AdoptRegistered(reply, code);
      if registered {
        feeder.ready := true;
        pc := Inner(true);
      } else {
        pc := RegisterRpc;
      }
    }

    method AnswerIds(reply: Option<map<string, int>>, code: Code)
      requires pc.RegisterRpc?
      modifies this`pc, feeder
      ensures View() == Next(old(View()), IdReply(reply, code))
    {
      var ok := feeder.Register(reply, code);
      if ok {
        feeder.ready := true;
        pc := Inner(true);
      } else {
        pc := Top;
      }
    }

    /** The tests of the two loops of Run(), the wait for the channel, and the clean-up. */
    method Control(e: Event<V>)
      requires e.Connect? || e.Test? || e.Enter? || e.Recheck? || e.Clean?
      requires PossibleAt(pc, e)
      modifies this`pc, feeder
      ensures View() == Next(old(View()), e)
    {
      match e
      case Connect(up) =>
        if feeder.active {
          feeder.connected := up;
          pc := Check;
        } else {
          pc := Exited;
        }
      case Test =>
        if feeder.active && feeder.connected {
          pc := Pc.Register;
        } else {
          feeder.ready := true;
          pc := Inner(true);
        }
      case Enter =>
        pc := if feeder.active && feeder.connected then Swap(pc.first) else Cleaning;
      case Recheck =>
        pc := if feeder.connected then Inner(false) else Cleaning;
      case Clean =>
        feeder.Cleanup();
        pc := Top;
    }

    /** One step of the thread or of anybody else. */
    method Perform(e: Event<V>)
      requires PossibleAt(pc, e)
      modifies this, feeder
      ensures View() == Next(old(View()), e)
    {
      match e
      case Feed(values, late) =>
        if late {
          FeedLate(values);
        } else {
          Feed(values);
        }
      case Stop => feeder.Shutdown();
      case Subscriber(up) => feeder.connected := up;
      case MetaReply(reply, code) => AnswerMeta(reply, code);
      case IdReply(reply, code) => AnswerIds(reply, code);
      case Take => SwapOut();
      case Reply(ok, code) => Answer(ok, code);
      case PutBack => Restore();
      case Connect(_) => Control(e);
      case Test => Control(e);
      case Enter => Control(e);
      case Recheck => Control(e);
      case Clean => Control(e);
    }

    /** Whatever happens, in whatever order, as far as it is possible: the object goes through a
        run of the model, so all that is proved of runs holds of the object. */
    method Execute(es: seq<Event<V>>) returns (done: nat, ghost trace: seq<State<V>>)
      requires View() == Start(feeder.config)
      modifies this, feeder
      ensures done <= |es| && Run(trace, es[..done]) && trace[done] == View()
      ensures done < |es| ==> !PossibleAt(pc, es[done])
    {
      done, trace := 0, [View()];
      while done < |es| && PossibleAt(pc, es[done])
        invariant done <= |es| && |trace| == done + 1 && trace[done] == View()
        invariant Run(trace, es[..done])
      {
        Perform(es[done]);
        ghost var more;
        trace, more := FeederRun.Extend(trace, es[..done], es[done], View());
        assert es[..done + 1] == more;
        done := done + 1;
      }
    }
  }
}
