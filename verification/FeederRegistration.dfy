/** Where the ids of a batch come from, and how Run() makes its way. */
module FeederRegistration {
  import opened Options
  import opened Feeder
  import opened FeederRun

  /** The points of Run() outside the inner loop and its clean-up. */
  predicate Unregistered(pc: Pc) {
    pc.Top? || pc.Check? || pc.Register? || pc.RegisterRpc? || pc.Exited?
  }

  /** No clean-up among the events from `i` on, up to `k`. */
  predicate NoClean<V>(es: seq<Event<V>>, i: nat, k: nat)
    requires k <= |es|
  {
    forall j :: i <= j < k ==> !es[j].Clean?
  }

  /** The `i`-th event is a metadata reply that describes `n` by `m`. */
  predicate Describes<V>(es: seq<Event<V>>, i: nat, n: string, m: Metadata)
    requires i < |es|
  {
    es[i].MetaReply? && es[i].meta.Some? && n in es[i].meta.value && es[i].meta.value[n] == m
  }

  /** The `i`-th event is a reply of the broker that gives `n` the id `id`. */
  predicate Gives<V>(es: seq<Event<V>>, i: nat, n: string, id: int)
    requires i < |es|
  {
    || (es[i].MetaReply? && es[i].meta.Some? && n in es[i].meta.value && es[i].meta.value[n].id == id)
    || (es[i].IdReply? && es[i].ids.Some? && n in es[i].ids.value && es[i].ids.value[n] == id)
  }

  ghost predicate Described<V>(es: seq<Event<V>>, k: nat, n: string, m: Metadata)
    requires k <= |es|
  {
    exists i :: 0 <= i < k && Describes(es, i, n, m) && NoClean(es, i, k)
  }

  ghost predicate Given<V>(es: seq<Event<V>>, k: nat, n: string, id: int)
    requires k <= |es|
  {
    exists i :: 0 <= i < k && Gives(es, i, n, id) && NoClean(es, i, k)
  }

  ghost predicate Sourced<V>(trace: seq<State<V>>, es: seq<Event<V>>, k: nat)
    requires k <= |es| < |trace|
  {
    var s := trace[k];
    && (forall n :: n in s.link.meta ==> Described(es, k, n, s.link.meta[n]))
    && (forall n :: n in s.link.ids ==> Given(es, k, n, s.link.ids[n]))
    && (Unregistered(s.pc) ==> s.link.ids == map[])
    && (s.link.ready <==> !Unregistered(s.pc))
  }

  lemma StillDescribed<V>(es: seq<Event<V>>, k: nat, n: string, m: Metadata)
    requires k < |es| && Described(es, k, n, m) && !es[k].Clean?
    ensures Described(es, k + 1, n, m)
  {
    var i :| 0 <= i < k && Describes(es, i, n, m) && NoClean(es, i, k);
    assert NoClean(es, i, k + 1);
  }

  lemma StillGiven<V>(es: seq<Event<V>>, k: nat, n: string, id: int)
    requires k < |es| && Given(es, k, n, id) && !es[k].Clean?
    ensures Given(es, k + 1, n, id)
  {
    var i :| 0 <= i < k && Gives(es, i, n, id) && NoClean(es, i, k);
    assert NoClean(es, i, k + 1);
  }

  lemma DescribedGives<V>(es: seq<Event<V>>, k: nat, n: string, m: Metadata)
    requires k <= |es| && Described(es, k, n, m)
    ensures Given(es, k, n, m.id)
  {
    var i :| 0 <= i < k && Describes(es, i, n, m) && NoClean(es, i, k);
    assert Gives(es, i, n, m.id);
  }

  /** What a step does to the registration. */
  lemma StepRegisters<V>(s: State<V>, e: Event<V>, s': State<V>)
    requires Follows(s, e, s')
    ensures s'.link.meta == if e.MetaReply? && e.meta.Some? && |s.config| > 0 then s.link.meta + e.meta.value
                            else if e.Clean? then map[] else s.link.meta
    ensures var adopts := e.MetaReply? && AllRegistered(s.config, s'.link.meta);
            s'.link.ids == if adopts then s.link.ids + Ids(s'.link.meta)
                           else if e.IdReply? && e.ids.Some? then e.ids.value
                           else if e.Clean? then map[] else s.link.ids
    ensures (Unregistered(s.pc) && s.link.ids == map[]) || e.Clean? ==> Unregistered(s'.pc) ==> s'.link.ids == map[]
    ensures !Unregistered(s.pc) && !e.Clean? ==> !Unregistered(s'.pc)
    ensures (s.link.ready <==> !Unregistered(s.pc)) ==> (s'.link.ready <==> !Unregistered(s'.pc))
  {}

  lemma StepSourced<V>(trace: seq<State<V>>, es: seq<Event<V>>, k: nat)
    requires Run(trace, es) && k < |es| && Sourced(trace, es, k)
    ensures Sourced(trace, es, k + 1)
  {
    var s, e, s' := trace[k], es[k], trace[k + 1];
    assert StepAt(trace, es, k);
    StepRegisters(s, e, s');
    forall n | n in s'.link.meta
      ensures Described(es, k + 1, n, s'.link.meta[n])
    {
      if e.MetaReply? && e.meta.Some? && |s.config| > 0 && n in e.meta.value {
        assert Describes(es, k, n, s'.link.meta[n]) && NoClean(es, k, k + 1);
      } else {
        StillDescribed(es, k, n, s.link.meta[n]);
      }
    }
    forall n | n in s'.link.ids
      ensures Given(es, k + 1, n, s'.link.ids[n])
    {
      if e.IdReply? && e.ids.Some? {
        assert Gives(es, k, n, s'.link.ids[n]) && NoClean(es, k, k + 1);
      } else if e.MetaReply? && AllRegistered(s.config, s'.link.meta) && n in s'.link.meta {
        DescribedGives(es, k + 1, n, s'.link.meta[n]);
      } else {
        StillGiven(es, k, n, s.link.ids[n]);
      }
    }
  }

  lemma {:induction false} RunSourced<V>(trace: seq<State<V>>, es: seq<Event<V>>, k: nat)
    requires Run(trace, es) && k < |trace|
    ensures Sourced(trace, es, k)
  {
    if k > 0 {
      RunSourced(trace, es, k - 1);
      StepSourced(trace, es, k - 1);
    }
  }

  // ----- main results -----

  /** Outside the inner loop and its clean-up no ids are held and the feeder is not ready; inside,
      every id that a batch is sent under was given by a reply of the broker after the last
      clean-up. */
  lemma IdsAreCurrent<V>(trace: seq<State<V>>, es: seq<Event<V>>, k: nat)
    requires Run(trace, es) && k < |trace|
    ensures Unregistered(trace[k].pc) ==> trace[k].link.ids == map[] && !trace[k].link.ready
    ensures !Unregistered(trace[k].pc) ==> trace[k].link.ready
    ensures forall n :: n in trace[k].link.ids ==>
              exists i :: 0 <= i < k && Gives(es, i, n, trace[k].link.ids[n]) && NoClean(es, i, k)
  {
    RunSourced(trace, es, k);
    forall n | n in trace[k].link.ids
      ensures exists i :: 0 <= i < k && Gives(es, i, n, trace[k].link.ids[n]) && NoClean(es, i, k)
    {
      assert Given(es, k, n, trace[k].link.ids[n]);
    }
  }

  /** Registration: a metadata reply is enough exactly if every configured name is then known with
      its configured type; otherwise the names are registered, which fails only with the call. */
  lemma RegisteredIff<V>(trace: seq<State<V>>, es: seq<Event<V>>, k: nat)
    requires Run(trace, es) && k < |es|
    ensures es[k].MetaReply? ==>
              var meta := if es[k].meta.Some? && |trace[k].config| > 0 then trace[k].link.meta + es[k].meta.value else trace[k].link.meta;
              && trace[k + 1].link.meta == meta
              && trace[k + 1].pc == if (forall d :: d in trace[k].config ==> d.name in meta && meta[d.name].dataType == d.dataType)
                                    then Inner(true) else RegisterRpc
    ensures es[k].IdReply? ==> trace[k + 1].pc == if es[k].ids.Some? then Inner(true) else Top
  {
    assert StepAt(trace, es, k);
  }

  predicate Fatal(code: Code) {
    code == INTERNAL || code == UNAUTHENTICATED || code == UNIMPLEMENTED
  }

  /** A failed call disconnects, and on the three unrecoverable codes ends the feeder. */
  lemma FailureDisconnects<V>(trace: seq<State<V>>, es: seq<Event<V>>, k: nat)
    requires Run(trace, es) && k < |es|
    requires || (es[k].Reply? && !es[k].ok) || (es[k].IdReply? && es[k].ids.None?)
             || (es[k].MetaReply? && es[k].meta.None? && |trace[k].config| > 0)
    ensures !trace[k + 1].link.connected
    ensures trace[k + 1].link.active <==> trace[k].link.active && !Fatal(es[k].code)
  {
    assert StepAt(trace, es, k);
  }

  /** The way of Run() through its two loops. */
  lemma WayOfRun<V>(trace: seq<State<V>>, es: seq<Event<V>>, k: nat)
    requires Run(trace, es) && k < |es|
    ensures var l, pc, pc' := trace[k].link, trace[k].pc, trace[k + 1].pc;
            && (es[k].Connect? ==> pc == Top && pc' == (if l.active then Check else Exited) && (l.active ==> trace[k + 1].link.connected == es[k].up))
            && (es[k].Test? ==> pc == Check && pc' == if l.active && l.connected then Register else Inner(true))
            && (es[k].Enter? ==> pc.Inner? && pc' == if l.active && l.connected then Swap(pc.first) else Cleaning)
            && (es[k].Take? ==> pc.Swap? && pc' == Sending(pc.first))
            && (es[k].Reply? ==> pc.Sending? && pc' == if es[k].ok then Rest else Restoring)
            && (es[k].PutBack? ==> pc == Restoring && pc' == Rest)
            && (es[k].Recheck? ==> pc == Rest && pc' == if l.connected then Inner(false) else Cleaning)
            && (es[k].Clean? ==> pc == Cleaning && pc' == Top)
            && (es[k].Feed? || es[k].Stop? || es[k].Subscriber? ==> pc' == pc)
  {
    assert StepAt(trace, es, k);
  }

  /** A shutdown drops what is stored and ends the feeder; nobody is fed after that but by a caller
      that had passed the test before. */
  lemma StopDrops<V>(trace: seq<State<V>>, es: seq<Event<V>>, k: nat)
    requires Run(trace, es) && k < |es|
    ensures es[k].Stop? ==> !trace[k + 1].link.active && (trace[k].link.active ==> trace[k + 1].box.stored == map[])
    ensures es[k].Feed? ==>
              trace[k + 1].box.stored == trace[k].box.stored + if trace[k].link.active || es[k].late then es[k].values else map[]
    ensures !trace[k].link.active ==> !trace[k + 1].link.active
  {
    assert StepAt(trace, es, k);
  }

  // ----- metadata outlives a failed registration -----

  function OnlyA<V>(a: Datapoint<V>): map<string, Metadata> { map[a.name := Metadata(1, a.dataType)] }

  function OnlyB<V>(b: Datapoint<V>): map<string, Metadata> { map[b.name := Metadata(2, b.dataType)] }

  /** The broker describes "a" only, and then fails to register. */
  lemma FailsToRegister<V>(a: Datapoint<V>, b: Datapoint<V>, code: Code) returns (trace: seq<State<V>>, es: seq<Event<V>>)
    requires a.name != b.name && !Unrecoverable(code)
    ensures Run(trace, es) && trace[0].config == [a, b]
    ensures es == [Connect(true), Test, MetaReply(Some(OnlyA(a)), code), IdReply(None, code)]
    ensures trace[|es|] == State([a, b], Link(true, false, false, map[], OnlyA(a)), Box(map[], map[], 0, 0, [], []), Top)
  {
    var config := [a, b];
    var box := Box(map[], map[], 0, 0, [], []);
    var up := Link(true, true, false, map[], map[]);
    assert b in config && !AllRegistered(config, OnlyA(a));
    assert map[] + OnlyA(a) == OnlyA(a);
    trace, es := Extend([Start(config)], [], Connect(true), State(config, up, box, Check));
    trace, es := Extend(trace, es, Test, State(config, up, box, Register));
    trace, es := Extend(trace, es, MetaReply(Some(OnlyA(a)), code), State(config, up.(meta := OnlyA(a)), box, RegisterRpc));
    trace, es := Extend(trace, es, IdReply(None, code), State(config, up.(meta := OnlyA(a), connected := false), box, Top));
  }

  /** A registration that fails goes back to the outer loop without a clean-up. So metadata of an
      earlier connection can complete that of a later one: on the second the broker describes "b"
      only, and both are taken for registered. */
  lemma StaleMetadata<V>(a: Datapoint<V>, b: Datapoint<V>, code: Code) returns (trace: seq<State<V>>, es: seq<Event<V>>)
    requires a.name != b.name && !Unrecoverable(code)
    ensures Run(trace, es) && trace[0].config == [a, b]
    ensures es == [Connect(true), Test, MetaReply(Some(OnlyA(a)), code), IdReply(None, code),
                   Connect(true), Test, MetaReply(Some(OnlyB(b)), code)]
    ensures trace[|es|].pc == Inner(true) && trace[|es|].link.connected && trace[|es|].link.ids == map[a.name := 1, b.name := 2]
  {
    trace, es := FailsToRegister(a, b, code);
    var config, box := [a, b], trace[|es|].box;
    var up := trace[|es|].link.(connected := true);
    trace, es := Extend(trace, es, Connect(true), State(config, up, box, Check));
    trace, es := Extend(trace, es, Test, State(config, up, box, Register));
    var both, ids := OnlyA(a) + OnlyB(b), map[a.name := 1, b.name := 2];
    assert AllRegistered(config, both);
    assert map[] + Ids(both) == ids;
    trace, es := Extend(trace, es, MetaReply(Some(OnlyB(b)), code), State(config, up.(ids := ids, meta := both, ready := true), box, Inner(true)));
  }
}
