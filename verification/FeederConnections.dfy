/** How the feeder uses a connection: what its batches may contain, and what a failed batch
    means. */
module FeederConnections {
  import opened Feeder
  import opened FeederRun
  import opened FeederOrder

  ghost predicate StrictRun<T>(trace: seq<State<Stamped<T>>>, es: seq<Event<Stamped<T>>>) {
    && FairRun(trace, es)
    && forall i :: 0 <= i < |es| ==> !BadExit(trace[i], es[i])
  }

  predicate LastFailed<V>(b: Box<V>) {
    b.sends != [] && !b.sends[|b.sends| - 1].ok
  }

  /** The test that should leave the inner loop after a failed send finds the link up. */
  predicate BadExit<V>(s: State<V>, e: Event<V>) {
    e.Recheck? && s.link.connected && LastFailed(s.box)
  }

  /** Sends in order of connections; a failed send is the last of its connection, a first one
      the first; and only a first one carries initial values. */
  ghost predicate Disciplined<T>(sends: seq<Send<Stamped<T>>>) {
    && (forall i, j :: 0 <= i < j < |sends| ==> sends[i].conn <= sends[j].conn)
    && (forall i, j :: 0 <= i < j < |sends| && (!sends[i].ok || sends[j].first) ==> sends[i].conn < sends[j].conn)
    && (forall i :: 0 <= i < |sends| && !sends[i].first ==> AllUpdates(sends[i].values))
  }

  /** No send on the current connection has failed. */
  ghost predicate Unfailed<V>(b: Box<V>) {
    forall i :: 0 <= i < |b.sends| && !b.sends[i].ok ==> b.sends[i].conn < b.conn
  }

  ghost predicate Unused<V>(b: Box<V>) {
    forall i :: 0 <= i < |b.sends| ==> b.sends[i].conn < b.conn
  }

  predicate Continuing(pc: Pc) {
    pc == Inner(false) || pc == Swap(false) || pc == Sending(false)
  }

  ghost predicate ConnInv<T>(s: State<Stamped<T>>) {
    && Disciplined(s.box.sends)
    && (forall i :: 0 <= i < |s.box.sends| ==> s.box.sends[i].conn <= s.box.conn)
    && (Continuing(s.pc) || InBatch(s.pc) ==> AllUpdates(s.box.stored))
    && (s.pc == Sending(false) ==> AllUpdates(s.box.inflight))
    && (Continuing(s.pc) ==> Unfailed(s.box))
    && (s.pc == Sending(true) ==> Unused(s.box))
    && (s.pc == Restoring ==> LastFailed(s.box))
    && (s.pc == Rest ==> LastFailed(s.box) || (AllUpdates(s.box.stored) && Unfailed(s.box)))
  }

  lemma QuietKeepsConn<T>(s: State<Stamped<T>>, e: Event<Stamped<T>>, s': State<Stamped<T>>)
    requires ConnInv(s) && Follows(s, e, s') && !BadExit(s, e) && Quiet(e)
    ensures ConnInv(s')
  {
    QuietStep(s, e, s');
    QuietPc(s, e, s');
  }

  /** Where quiet steps lead: on into a connection only while it is up. */
  lemma QuietPc<V>(s: State<V>, e: Event<V>, s': State<V>)
    requires Follows(s, e, s') && Quiet(e)
    ensures e.Subscriber? ==> s'.pc == s.pc
    ensures Continuing(s'.pc) && !e.Subscriber? ==> Continuing(s.pc) || (s.pc == Rest && e.Recheck? && s.link.connected)
    ensures !e.Subscriber? ==> s'.pc != Rest
  {}

  lemma AppendDisciplined<T>(sends: seq<Send<Stamped<T>>>, last: Send<Stamped<T>>)
    requires Disciplined(sends)
    requires forall i :: 0 <= i < |sends| ==> sends[i].conn <= last.conn
    requires forall i :: 0 <= i < |sends| && (!sends[i].ok || last.first) ==> sends[i].conn < last.conn
    requires last.first || AllUpdates(last.values)
    ensures Disciplined(sends + [last])
  {}

  lemma ReplyKeepsConn<T>(s: State<Stamped<T>>, e: Event<Stamped<T>>, s': State<Stamped<T>>)
    requires ConnInv(s) && Follows(s, e, s') && e.Reply?
    ensures ConnInv(s')
  {
    var last := Send(s.box.conn, s.pc.first, e.ok, Known(s.box.inflight, s.link.ids));
    assert s'.box.sends == s.box.sends + [last];
    if s.pc.first {
      assert Unused(s.box);
    } else {
      assert Unfailed(s.box) && AllUpdates(s.box.inflight);
    }
    AppendDisciplined(s.box.sends, last);
    assert s'.box.stored == s.box.stored && s'.box.conn == s.box.conn;
  }

  lemma TakeKeepsConn<T>(s: State<Stamped<T>>, e: Event<Stamped<T>>, s': State<Stamped<T>>)
    requires ConnInv(s) && Follows(s, e, s') && e.Take?
    ensures ConnInv(s')
  {
    assert s'.box.sends == s.box.sends;
  }

  lemma StepKeepsConn<T>(s: State<Stamped<T>>, e: Event<Stamped<T>>, s': State<Stamped<T>>)
    requires ConnInv(s) && Follows(s, e, s') && !BadExit(s, e) && Numbered(s, e)
    ensures ConnInv(s')
  {
    if Quiet(e) {
      QuietKeepsConn(s, e, s');
    } else if e.Reply? {
      ReplyKeepsConn(s, e, s');
    } else if e.Take? {
      TakeKeepsConn(s, e, s');
    }
  }

  lemma {:induction false} RunConnInv<T>(trace: seq<State<Stamped<T>>>, es: seq<Event<Stamped<T>>>, k: nat)
    requires StrictRun(trace, es) && k < |trace|
    ensures ConnInv(trace[k])
  {
    if k > 0 {
      RunConnInv(trace, es, k - 1);
      assert StepAt(trace, es, k - 1) && Assumed(trace[k - 1], es[k - 1]);
      StepKeepsConn(trace[k - 1], es[k - 1], trace[k]);
    }
  }

  // ----- who keeps the assumptions -----

  /** A successful registration reply names every configured datapoint. */
  ghost predicate CompleteReply<V>(s: State<V>, e: Event<V>) {
    e.IdReply? && e.ids.Some? ==> Names(s.config) <= e.ids.value.Keys
  }

  /** Nobody else raises connected_ between the test that decides on registering and the one that
      enters the inner loop, nor between a failed send and the test that leaves it. */
  predicate NoRaise<V>(s: State<V>, e: Event<V>) {
    e == Subscriber(true) ==> s.pc != Inner(true) && s.pc != Restoring && s.pc != Rest
  }

  ghost predicate UpOnlyIfSound<V>(s: State<V>) {
    && (s.pc == Inner(true) && s.link.active && s.link.connected ==> Covered(s))
    && (s.pc == Restoring || (s.pc == Rest && LastFailed(s.box)) ==> !s.link.connected)
  }

  lemma StepKeepsSound<V>(s: State<V>, e: Event<V>, s': State<V>)
    requires UpOnlyIfSound(s) && Follows(s, e, s') && CompleteReply(s, e) && NoRaise(s, e)
    ensures UpOnlyIfSound(s') && !BadEntry(s, e) && !BadExit(s, e)
  {
    match e
    case MetaReply(_, _) =>
    case IdReply(_, _) =>
    case Reply(_, _) =>
    case PutBack =>
    case _ =>
  }

  /** If nobody raises connected_ there, and registration replies are complete, no entry and no
      exit is bad. */
  lemma {:induction false} NoRaiseSuffices<V>(trace: seq<State<V>>, es: seq<Event<V>>, k: nat)
    requires Run(trace, es) && k < |trace|
    requires forall i :: 0 <= i < |es| ==> CompleteReply(trace[i], es[i]) && NoRaise(trace[i], es[i])
    ensures UpOnlyIfSound(trace[k])
    ensures forall i :: 0 <= i < k ==> !BadEntry(trace[i], es[i]) && !BadExit(trace[i], es[i])
  {
    if k > 0 {
      NoRaiseSuffices(trace, es, k - 1);
      assert StepAt(trace, es, k - 1);
      assert CompleteReply(trace[k - 1], es[k - 1]) && NoRaise(trace[k - 1], es[k - 1]);
      StepKeepsSound(trace[k - 1], es[k - 1], trace[k]);
    }
  }

  // ----- main results -----

  /** Every batch goes out with an id for every configured name, so it reaches the broker with
      all its configured values. */
  lemma EveryBatchRegistered<T>(trace: seq<State<Stamped<T>>>, es: seq<Event<Stamped<T>>>, k: nat)
    requires FairRun(trace, es) && k < |es| && es[k].Reply?
    ensures Covered(trace[k]) && trace[k].pc.Sending?
    ensures trace[k + 1].box.sends == trace[k].box.sends + [Send(trace[k].box.conn, trace[k].pc.first, es[k].ok, Known(trace[k].box.inflight, trace[k].link.ids))]
    ensures forall n :: n in trace[k].box.inflight && n in Names(trace[0].config) ==>
              Carries(trace[k + 1].box.sends[|trace[k].box.sends|].values, n, trace[k].box.inflight[n])
  {
    RunInv(trace, es, k);
    assert StepAt(trace, es, k);
  }

  /** The connections of a run: the sends are ordered by them, only the first send of one
      carries initial values, and none follows a failed one. */
  lemma ConnectionDiscipline<T>(trace: seq<State<Stamped<T>>>, es: seq<Event<Stamped<T>>>, k: nat, i: nat, j: nat)
    requires StrictRun(trace, es) && k < |trace| && i < j < |trace[k].box.sends|
    ensures var a, b := trace[k].box.sends[i], trace[k].box.sends[j];
            && a.conn <= b.conn
            && (!a.ok || b.first ==> a.conn < b.conn)
            && (a.conn == b.conn ==> forall n :: n in b.values ==> b.values[n].Update?)
  {
    RunConnInv(trace, es, k);
    assert trace[k].box.sends[j].first || AllUpdates(trace[k].box.sends[j].values);
  }

  /** A batch never replaces a stored value by an initial one; but on the first batch of a
      connection a name with nothing stored goes out with its initial value, whatever had been
      acknowledged for it before. */
  lemma FirstBatch<T>(trace: seq<State<Stamped<T>>>, es: seq<Event<Stamped<T>>>, k: nat, n: string)
    requires FairRun(trace, es) && k < |es| && es[k].Take?
    ensures n in trace[k].box.stored ==> Carries(trace[k + 1].box.inflight, n, trace[k].box.stored[n])
    ensures n !in trace[k].box.stored && n in Names(trace[0].config) ==>
              if trace[k].pc == Swap(true) then Carries(trace[k + 1].box.inflight, n, Initials(trace[0].config)[n])
              else n !in trace[k + 1].box.inflight
  {
    RunInv(trace, es, k);
    assert StepAt(trace, es, k);
  }

  /** The assumption at the exit is needed as well: after a failed batch the connection is given
      up exactly if nobody has raised connected_ again; otherwise the inner loop goes on with
      the whole failed batch stored, the initial values of a first one included. */
  lemma RaiseAtExitReusesConnection<T>(s: State<Stamped<T>>, code: Code, up: bool)
    requires s.pc.Sending? && s.link.active && !Unrecoverable(code)
    ensures var s3 := Next(Next(Next(s, Reply(false, code)), Subscriber(up)), PutBack);
            var s4 := Next(s3, Recheck);
            && s4.pc == (if up then Inner(false) else Cleaning)
            && s4.box.conn == s.box.conn && s4.box.stored == Pending(s.box)
  {}

  /** The assumption on connected_ at the entry is needed: raised at the entry of the inner loop while names
      lack their ids, it lets a batch out that drops their values. */
  lemma RaiseAtEntryDropsValues<T>(s: State<Stamped<T>>, code: Code)
    requires s.pc == Inner(true) && s.link.active && BatchInv(s)
    ensures var s1 := Next(s, Subscriber(true));
            var s3 := Next(Next(s1, Enter), Take);
            var s4 := Next(s3, Reply(true, code));
            && Pending(s4.box) == map[]
            && (Covered(s) <==> forall n :: n in Names(s.config) ==> n in s4.box.sends[|s.box.sends|].values)
  {
    var s3 := Next(Next(Next(s, Subscriber(true)), Enter), Take);
    assert Names(s.config) <= s3.box.inflight.Keys;
  }
}
