/** Whole runs of the feeder: its thread in Run(), callers of FeedValue(s), a shutdown, and the
    subscriber that shares the client's connected_ flag. A step is what happens between two
    points where another thread can get in; RPCs and waits are such points. */
module FeederRun {
  import opened Options
  import opened Feeder

  /** Program points of Run(). `first` is also_feed_initial_values. */
  datatype Pc =
    | Top
    | Check
    | Register
    | RegisterRpc
    | Inner(first: bool)
    | Swap(first: bool)
    | Sending(first: bool)
    | Restoring
    | Rest
    | Cleaning
    | Exited

  /** A completed UpdateDatapoints call: the connection it was made on, whether it was the
      first one there, its outcome and the values it carried. */
  datatype Send<V> = Send(conn: nat, first: bool, ok: bool, values: Values<V>)

  /** The flags and the registration; `connected` belongs to the shared client. */
  datatype Link = Link(active: bool, connected: bool, ready: bool, ids: map<string, int>, meta: map<string, Metadata>)

  /** The values: what is stored, the current batch, and the history of accepted feeds and of
      sends. `conn` counts the connections on which a batch was taken, `mark` the feeds
      accepted before the last batch was. */
  datatype Box<V> = Box(
    stored: Values<V>,
    inflight: Values<V>,
    conn: nat,
    mark: nat,
    log: seq<Values<V>>,
    sends: seq<Send<V>>)

  datatype State<V> = State(config: seq<Datapoint<V>>, link: Link, box: Box<V>, pc: Pc)

  datatype Event<V> =
    | Feed(values: Values<V>, late: bool)
    | Stop
    | Subscriber(up: bool)
    | Connect(up: bool)
    | Test
    | MetaReply(meta: Option<map<string, Metadata>>, code: Code)
    | IdReply(ids: Option<map<string, int>>, code: Code)
    | Enter
    | Take
    | Reply(ok: bool, code: Code)
    | PutBack
    | Recheck
    | Clean

  function Start<V>(config: seq<Datapoint<V>>): State<V> {
    State(config, Link(true, false, false, map[], map[]), Box(map[], map[], 0, 0, [], []), Top)
  }

  /** Steps of the thread are possible at their program point only, those of others at any. */
  predicate PossibleAt<V>(pc: Pc, e: Event<V>) {
    match e
    case Feed(_, _) => true
    case Stop => true
    case Subscriber(_) => true
    case Connect(_) => pc.Top?
    case Test => pc.Check?
    case MetaReply(_, _) => pc.Register?
    case IdReply(_, _) => pc.RegisterRpc?
    case Enter => pc.Inner?
    case Take => pc.Swap?
    case Reply(_, _) => pc.Sending?
    case PutBack => pc.Restoring?
    case Recheck => pc.Rest?
    case Clean => pc.Cleaning?
  }

  predicate Enabled<V>(s: State<V>, e: Event<V>) {
    PossibleAt(s.pc, e)
  }

  /** handleError. */
  function Failed(l: Link, code: Code): Link {
    l.(active := l.active && !Unrecoverable(code), connected := false)
  }

  function Fed<V>(b: Box<V>, values: Values<V>): Box<V> {
    b.(stored := b.stored + values, log := b.log + [values])
  }

  function Taken<V>(b: Box<V>, first: bool, initials: Values<V>): Box<V> {
    b.(inflight := WithMissing(b.stored, if first then initials else map[]), stored := map[],
       conn := if first then b.conn + 1 else b.conn, mark := |b.log|)
  }

  function Answered<V>(b: Box<V>, first: bool, ok: bool, ids: map<string, int>): Box<V> {
    b.(sends := b.sends + [Send(b.conn, first, ok, Known(b.inflight, ids))],
       inflight := if ok then map[] else b.inflight)
  }

  function Restored<V>(b: Box<V>): Box<V> {
    b.(stored := WithMissing(b.stored, b.inflight), inflight := map[])
  }

  function AfterMeta<V>(config: seq<Datapoint<V>>, l: Link, reply: Option<map<string, Metadata>>, code: Code): Link {
    if |config| == 0 then l
    else if reply.Some? then l.(meta := l.meta + reply.value)
    else Failed(l, code)
  }

  ghost function Next<V>(s: State<V>, e: Event<V>): State<V>
    requires Enabled(s, e)
  {
    var l, b := s.link, s.box;
    match e
    case Feed(values, late) =>
      // `late`: the caller saw an active feeder just before it was shut down
      if l.active || late then s.(box := Fed(b, values)) else s
    case Stop => if l.active then s.(box := b.(stored := map[]), link := l.(active := false)) else s
    case Subscriber(up) => s.(link := l.(connected := up))
    case Connect(up) => if l.active then s.(link := l.(connected := up), pc := Check) else s.(pc := Exited)
    case Test =>
      if l.active && l.connected then s.(pc := Register) else s.(link := l.(ready := true), pc := Inner(true))
    case MetaReply(reply, code) =>
      var l' := AfterMeta(s.config, l, reply, code);
      if AllRegistered(s.config, l'.meta)
      then s.(link := l'.(ids := l'.ids + Ids(l'.meta), ready := true), pc := Inner(true))
      else s.(link := l', pc := RegisterRpc)
    case IdReply(reply, code) =>
      if reply.Some? then s.(link := l.(ids := reply.value, ready := true), pc := Inner(true))
      else s.(link := Failed(l, code), pc := Top)
    case Enter => s.(pc := if l.active && l.connected then Swap(s.pc.first) else Cleaning)
    case Take => s.(box := Taken(b, s.pc.first, Initials(s.config)), pc := Sending(s.pc.first))
    case Reply(ok, code) =>
      var s' := s.(box := Answered(b, s.pc.first, ok, l.ids));
      if ok then s'.(pc := Rest) else s'.(link := Failed(l, code), pc := Restoring)
    case PutBack => s.(box := Restored(b), pc := Rest)
    case Recheck => s.(pc := if l.connected then Inner(false) else Cleaning)
    case Clean => s.(link := l.(ids := map[], meta := map[], ready := false), pc := Top)
  }

  ghost predicate Follows<V>(s: State<V>, e: Event<V>, s': State<V>) {
    Enabled(s, e) && s' == Next(s, e)
  }

  ghost predicate Run<V>(trace: seq<State<V>>, es: seq<Event<V>>) {
    && |trace| == |es| + 1
    && trace[0] == Start(trace[0].config)
    && forall i :: 0 <= i < |es| ==> StepAt(trace, es, i)
  }

  ghost predicate StepAt<V>(trace: seq<State<V>>, es: seq<Event<V>>, i: nat)
    requires i < |es| < |trace|
  {
    Follows(trace[i], es[i], trace[i + 1])
  }

  lemma Extend<V>(trace: seq<State<V>>, es: seq<Event<V>>, e: Event<V>, s: State<V>) returns (trace': seq<State<V>>, es': seq<Event<V>>)
    requires Run(trace, es) && Follows(trace[|es|], e, s)
    ensures Run(trace', es') && es' == es + [e] && trace' == trace + [s]
  {
    trace', es' := trace + [s], es + [e];
    forall i | 0 <= i < |es'|
      ensures StepAt(trace', es', i)
    {
      assert i < |es| ==> StepAt(trace, es, i);
    }
  }

  // ----- refinement of a plain map -----

  /** What the feeder still owes the broker: the batch in flight overlaid by what is stored. */
  function Pending<V>(b: Box<V>): Values<V> {
    b.inflight + b.stored
  }

  /** A plain map of pending values: what is pending, the batch being sent, and the names put in
      since it was taken. */
  datatype Plain<V> = Plain(pending: Values<V>, batch: Values<V>, since: set<string>)

  datatype MapOp<V> = Keep | Put(values: Values<V>) | TakeAll(extra: Values<V>) | Ack | GiveBack | Shut

  /** Putting updates the map; taking a batch changes nothing in it but for missing extra values;
      an acknowledgement leaves only what was put in since; giving the batch back changes nothing;
      shutting leaves only the batch. */
  function PlainNext<V>(p: Plain<V>, op: MapOp<V>): Plain<V> {
    match op
    case Keep => p
    case Put(values) => p.(pending := p.pending + values, since := p.since + values.Keys)
    case TakeAll(extra) => Plain(extra + p.pending, extra + p.pending, {})
    case Ack => Plain(map n | n in p.pending && n in p.since :: p.pending[n], map[], {})
    case GiveBack => Plain(p.pending, map[], {})
    case Shut => Plain(p.batch, p.batch, {})
  }

  /** What each step asks of the plain map, by the event and the point it finds the thread at; the
      values held play no part in it. */
  function Asks<V>(config: seq<Datapoint<V>>, active: bool, pc: Pc, e: Event<V>): MapOp<V> {
    match e
    case Feed(values, late) => if active || late then Put(values) else Keep
    case Stop => if active then Shut else Keep
    case Take => TakeAll(if pc == Swap(true) then Initials(config) else map[])
    case Reply(ok, _) => if ok then Ack else Keep
    case PutBack => GiveBack
    case _ => Keep
  }

  /** The box holds what the plain map holds. */
  ghost predicate BoxHolds<V>(b: Box<V>, inBatch: bool, p: Plain<V>) {
    && Pending(b) == p.pending
    && (inBatch ==> b.inflight == p.batch && b.stored.Keys == p.since)
    && (!inBatch ==> p.batch == map[])
  }

  ghost predicate Holds<V>(s: State<V>, p: Plain<V>) {
    BoxHolds(s.box, InBatch(s.pc), p)
  }

  /** Several feeds at once: later ones win. */
  function Merged<V>(log: seq<Values<V>>): Values<V> {
    if log == [] then map[] else Merged(log[..|log| - 1]) + log[|log| - 1]
  }

  /** Feeds accepted since the last batch was taken. */
  function Since<V>(b: Box<V>): seq<Values<V>> {
    if b.mark <= |b.log| then b.log[b.mark..] else []
  }

  predicate InBatch(pc: Pc) { pc.Sending? || pc.Restoring? }

  /** No batch exists outside the two points where one is in flight or about to be put back;
      while one does, what is stored was fed since it was taken. */
  ghost predicate BatchInv<V>(s: State<V>) {
    && s.box.mark <= |s.box.log|
    && (InBatch(s.pc) && s.link.active ==> s.box.stored == Merged(Since(s.box)))
    && (!InBatch(s.pc) ==> s.box.inflight == map[])
  }

  /** Steps that leave values and history alone. */
  predicate Quiet<V>(e: Event<V>) {
    !e.Feed? && !e.Stop? && !e.Take? && !e.Reply? && !e.PutBack?
  }

  lemma QuietStep<V>(s: State<V>, e: Event<V>, s': State<V>)
    requires Follows(s, e, s') && Quiet(e)
    ensures s'.box == s.box && (s'.link.active ==> s.link.active)
    ensures if e.Subscriber? then s'.pc == s.pc else !InBatch(s.pc) && !InBatch(s'.pc)
  {}

  lemma MergedAppend<V>(log: seq<Values<V>>, values: Values<V>)
    ensures Merged(log + [values]) == Merged(log) + values
  {}

  lemma StepKeepsBatchInv<V>(s: State<V>, e: Event<V>, s': State<V>)
    requires BatchInv(s) && Follows(s, e, s')
    ensures BatchInv(s')
  {
    if Quiet(e) {
      QuietStep(s, e, s');
    } else if e.Feed? {
      assert Since(Fed(s.box, e.values)) == Since(s.box) + [e.values];
      MergedAppend(Since(s.box), e.values);
    }
  }

  lemma FedHolds<V>(b: Box<V>, inBatch: bool, p: Plain<V>, values: Values<V>)
    requires BoxHolds(b, inBatch, p)
    ensures BoxHolds(Fed(b, values), inBatch, PlainNext(p, Put(values)))
  {}

  lemma ShutHolds<V>(b: Box<V>, inBatch: bool, p: Plain<V>)
    requires BoxHolds(b, inBatch, p) && (!inBatch ==> b.inflight == map[])
    ensures BoxHolds(b.(stored := map[]), inBatch, PlainNext(p, Shut))
  {}

  lemma TakenHolds<V>(b: Box<V>, p: Plain<V>, first: bool, initials: Values<V>)
    requires BoxHolds(b, false, p) && b.inflight == map[]
    ensures BoxHolds(Taken(b, first, initials), true, PlainNext(p, TakeAll(if first then initials else map[])))
  {
    assert Pending(b) == b.stored;
  }

  lemma AckedHolds<V>(b: Box<V>, p: Plain<V>, first: bool, ids: map<string, int>)
    requires BoxHolds(b, true, p)
    ensures BoxHolds(Answered(b, first, true, ids), false, PlainNext(p, Ack))
  {
    assert (map n | n in p.pending && n in p.since :: p.pending[n]) == b.stored;
  }

  lemma RestoredHolds<V>(b: Box<V>, p: Plain<V>)
    requires BoxHolds(b, true, p)
    ensures BoxHolds(Restored(b), false, PlainNext(p, GiveBack))
  {}

  lemma StepRefines<V>(s: State<V>, e: Event<V>, s': State<V>, p: Plain<V>)
    requires BatchInv(s) && Follows(s, e, s') && Holds(s, p)
    ensures Holds(s', PlainNext(p, Asks(s.config, s.link.active, s.pc, e)))
  {
    match e
    case Feed(values, _) => FedHolds(s.box, InBatch(s.pc), p, values);
    case Stop => ShutHolds(s.box, InBatch(s.pc), p);
    case Take => TakenHolds(s.box, p, s.pc.first, Initials(s.config));
    case Reply(ok, _) => if ok { AckedHolds(s.box, p, s.pc.first, s.link.ids); }
    case PutBack => RestoredHolds(s.box, p);
    case _ => QuietStep(s, e, s');
  }

  /** The plain map after the first `k` steps. */
  function Abstract<V>(trace: seq<State<V>>, es: seq<Event<V>>, k: nat): Plain<V>
    requires k <= |es| <= |trace|
  {
    if k == 0 then Plain(map[], map[], {})
    else
      var s := trace[k - 1];
      PlainNext(Abstract(trace, es, k - 1), Asks(s.config, s.link.active, s.pc, es[k - 1]))
  }

  lemma {:induction false} RunBatchInv<V>(trace: seq<State<V>>, es: seq<Event<V>>, k: nat)
    requires Run(trace, es) && k < |trace|
    ensures BatchInv(trace[k])
  {
    if k > 0 {
      RunBatchInv(trace, es, k - 1);
      assert StepAt(trace, es, k - 1);
      StepKeepsBatchInv(trace[k - 1], es[k - 1], trace[k]);
    }
  }

  /** Refinement: through any interleaving of feeds, batches, failures, reconnects and
      shutdowns the feeder implements the plain map. */
  lemma {:induction false} RunRefines<V>(trace: seq<State<V>>, es: seq<Event<V>>, k: nat)
    requires Run(trace, es) && k < |trace|
    ensures Pending(trace[k].box) == Abstract(trace, es, k).pending
    ensures Holds(trace[k], Abstract(trace, es, k))
  {
    if k > 0 {
      RunBatchInv(trace, es, k - 1);
      RunRefines(trace, es, k - 1);
      assert StepAt(trace, es, k - 1);
      StepRefines(trace[k - 1], es[k - 1], trace[k], Abstract(trace, es, k - 1));
    }
  }

  /** An acknowledgement leaves pending exactly what was fed since the batch was taken, and a
      failure followed by putting the batch back leaves the batch overlaid by those feeds,
      however many feeds came in between. */
  lemma BatchOutcome<V>(trace: seq<State<V>>, es: seq<Event<V>>, k: nat)
    requires Run(trace, es) && k < |es| && trace[k].link.active
    ensures es[k].Reply? && es[k].ok ==> Pending(trace[k + 1].box) == Merged(Since(trace[k].box))
    ensures es[k].PutBack? ==> trace[k + 1].box.stored == trace[k].box.inflight + Merged(Since(trace[k].box))
  {
    RunBatchInv(trace, es, k);
    assert StepAt(trace, es, k);
  }
}
