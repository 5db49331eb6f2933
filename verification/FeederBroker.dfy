/** What the broker holds for a name, in every run: the latest value fed, or again the initial
    one. */
module FeederBroker {
  import opened Options
  import opened Feeder
  import opened FeederRun
  import opened FeederOrder
  import opened FeederConnections

  /** What the broker holds for a name: the last acknowledged value. */
  function BrokerValue<T>(sends: seq<Send<Stamped<T>>>, n: string): Option<T> {
    if sends == [] then None
    else
      var last := sends[|sends| - 1];
      if last.ok && n in last.values then Some(last.values[n].val)
      else BrokerValue(sends[..|sends| - 1], n)
  }

  predicate Acks<T>(send: Send<Stamped<T>>, n: string) {
    send.ok && n in send.values
  }

  /** If all acknowledged values from `a` on are `v`, and there is one, the broker holds `v`. */
  lemma {:induction false} BrokerSettles<T>(sends: seq<Send<Stamped<T>>>, n: string, a: nat, v: T)
    requires a < |sends| && Acks(sends[a], n)
    requires forall j :: a <= j < |sends| && Acks(sends[j], n) ==> sends[j].values[n].val == v
    ensures BrokerValue(sends, n) == Some(v)
  {
    if a < |sends| - 1 {
      BrokerSettles(sends[..|sends| - 1], n, a, v);
    }
  }

  // ----- initial values stay what they are -----

  ghost predicate FromConfig<T>(m: Values<Stamped<T>>, initials: Values<Stamped<T>>) {
    forall n :: n in m && m[n].Initial? ==> n in initials && initials[n] == m[n]
  }

  ghost predicate InitialInv<T>(b: Box<Stamped<T>>, initials: Values<Stamped<T>>) {
    && FromConfig(b.stored, initials) && FromConfig(b.inflight, initials)
    && forall i :: 0 <= i < |b.sends| ==> FromConfig(b.sends[i].values, initials)
  }

  lemma StepKeepsInitials<T>(s: State<Stamped<T>>, e: Event<Stamped<T>>, s': State<Stamped<T>>)
    requires InitialInv(s.box, Initials(s.config)) && Follows(s, e, s') && Numbered(s, e)
    ensures InitialInv(s'.box, Initials(s.config))
  {
    match e
    case Feed(_, _) =>
    case Stop =>
    case Take =>
    case Reply(_, _) =>
    case PutBack =>
    case _ => QuietStep(s, e, s');
  }

  // ----- every configured name goes out on every connection -----

  /** Acknowledged on the current connection. */
  ghost predicate AckedHere<T>(b: Box<Stamped<T>>, n: string) {
    exists a :: 0 <= a < |b.sends| && Acks(b.sends[a], n) && b.sends[a].conn == b.conn
  }

  /** Once a connection has been used, every configured name is pending or acknowledged on it. */
  ghost predicate SupplyInv<T>(s: State<Stamped<T>>) {
    && (s.link.active && s.box.conn > 0 ==>
          forall n :: n in Names(s.config) ==> n in Pending(s.box) || AckedHere(s.box, n))
    && (s.box.conn == 0 ==> s.box.sends == [])
  }

  lemma StillAcked<T>(b: Box<Stamped<T>>, b': Box<Stamped<T>>, n: string)
    requires AckedHere(b, n) && b.sends <= b'.sends && b'.conn == b.conn
    ensures AckedHere(b', n)
  {
    var a :| 0 <= a < |b.sends| && Acks(b.sends[a], n) && b.sends[a].conn == b.conn;
    assert b'.sends[a] == b.sends[a];
  }

  lemma StepKeepsSupplied<T>(s: State<Stamped<T>>, e: Event<Stamped<T>>, s': State<Stamped<T>>, n: string)
    requires BatchInv(s) && CoverInv(s) && Follows(s, e, s') && s'.link.active && s'.box.conn > 0 && n in Names(s.config)
    requires s.box.conn > 0 ==> n in Pending(s.box) || AckedHere(s.box, n)
    ensures n in Pending(s'.box) || AckedHere(s'.box, n)
  {
    StepRefines(s, e, s', Plain(Pending(s.box), s.box.inflight, s.box.stored.Keys));
    ActiveBefore(s, e, s');
    if e.Take? && s.pc.first {
      assert n in Initials(s.config);
    } else {
      SameConnection(s, e, s');
      if n in Pending(s.box) {
        if e.Reply? && e.ok && n !in s.box.stored {
          assert Acks(s'.box.sends[|s.box.sends|], n);
        }
      } else {
        StillAcked(s.box, s'.box, n);
      }
    }
  }

  lemma SameConnection<V>(s: State<V>, e: Event<V>, s': State<V>)
    requires Follows(s, e, s') && !(e.Take? && s.pc.first)
    ensures s'.box.conn == s.box.conn && s.box.sends <= s'.box.sends
  {
    if Quiet(e) {
      QuietStep(s, e, s');
    }
  }

  lemma StepKeepsSupply<T>(s: State<Stamped<T>>, e: Event<Stamped<T>>, s': State<Stamped<T>>)
    requires BatchInv(s) && CoverInv(s) && SupplyInv(s) && ConnectedInv(s) && Follows(s, e, s')
    ensures SupplyInv(s') && ConnectedInv(s')
  {
    ConfigKept(s, e, s');
    if s'.link.active && s'.box.conn > 0 {
      ActiveBefore(s, e, s');
      forall n | n in Names(s.config)
        ensures n in Pending(s'.box) || AckedHere(s'.box, n)
      {
        StepKeepsSupplied(s, e, s', n);
      }
    }
    NoSendsYet(s, e, s');
  }

  /** A batch is in flight or has been only on a connection. */
  ghost predicate ConnectedInv<V>(s: State<V>) {
    InBatch(s.pc) || s.pc == Rest || Continuing(s.pc) ==> s.box.conn > 0
  }

  lemma NoSendsYet<V>(s: State<V>, e: Event<V>, s': State<V>)
    requires Follows(s, e, s') && ConnectedInv(s) && (s.box.conn == 0 ==> s.box.sends == [])
    ensures ConnectedInv(s') && (s'.box.conn == 0 ==> s'.box.sends == [])
  {
    if Quiet(e) {
      QuietStep(s, e, s');
    }
  }

  ghost predicate Inv<T>(s: State<Stamped<T>>) {
    InitialInv(s.box, Initials(s.config)) && SupplyInv(s) && ConnectedInv(s)
  }

  lemma {:induction false} RunBrokerInv<T>(trace: seq<State<Stamped<T>>>, es: seq<Event<Stamped<T>>>, k: nat)
    requires FairRun(trace, es) && k < |trace|
    ensures Inv(trace[k])
  {
    if k > 0 {
      RunBrokerInv(trace, es, k - 1);
      FeederOrder.RunInv(trace, es, k - 1);
      assert StepAt(trace, es, k - 1) && Assumed(trace[k - 1], es[k - 1]);
      ConfigKept(trace[k - 1], es[k - 1], trace[k]);
      StepKeepsInitials(trace[k - 1], es[k - 1], trace[k]);
      StepKeepsSupply(trace[k - 1], es[k - 1], trace[k]);
    }
  }

  // ----- the value -----

  /** The connection that acknowledged the latest value fed for `n` is still the current one. */
  ghost predicate StillUp<T>(b: Box<Stamped<T>>, n: string) {
    forall a, i: nat ::
      0 <= a < |b.sends| && b.sends[a].ok && LatestFeed(b.log, n, i) && Carries(b.sends[a].values, n, b.log[i][n])
      ==> b.sends[a].conn == b.conn
  }

  /** After the acknowledgement of the latest feed only initial values can follow, and on the
      same connection nothing. */
  lemma AfterLatest<T>(trace: seq<State<Stamped<T>>>, es: seq<Event<Stamped<T>>>, m: nat, n: string, i: nat, a: nat, j: nat)
    requires StrictRun(trace, es) && m < |trace|
    requires LatestFeed(trace[m].box.log, n, i)
    requires a < j < |trace[m].box.sends| && trace[m].box.sends[a].ok && Acks(trace[m].box.sends[j], n)
    requires Carries(trace[m].box.sends[a].values, n, trace[m].box.log[i][n])
    ensures n in Initials(trace[0].config) && trace[m].box.sends[j].values[n] == Initials(trace[0].config)[n]
    ensures trace[m].box.sends[a].conn < trace[m].box.sends[j].conn <= trace[m].box.conn
  {
    var b := trace[m].box;
    FeederOrder.RunInv(trace, es, m);
    LatestIsLast(b, n, i, a);
    ConnectionDiscipline(trace, es, m, a, j);
    RunConnInv(trace, es, m);
    RunBrokerInv(trace, es, m);
    assert FromConfig(b.sends[j].values, Initials(trace[0].config));
  }

  /** The latest feed was acknowledged at `a`; what the broker holds now depends on whether that
      was on the current connection. */
  lemma HeldAfter<T>(trace: seq<State<Stamped<T>>>, es: seq<Event<Stamped<T>>>, m: nat, n: string, i: nat, a: nat)
    requires StrictRun(trace, es) && m < |trace| && trace[m].link.active
    requires n in Names(trace[0].config) && n !in Pending(trace[m].box) && LatestFeed(trace[m].box.log, n, i)
    requires a < |trace[m].box.sends| && trace[m].box.sends[a].ok && Carries(trace[m].box.sends[a].values, n, trace[m].box.log[i][n])
    ensures BrokerValue(trace[m].box.sends, n) ==
            Some(if trace[m].box.sends[a].conn == trace[m].box.conn then trace[m].box.log[i][n].val else Initials(trace[0].config)[n].val)
  {
    var b := trace[m].box;
    forall j | a < j < |b.sends| && Acks(b.sends[j], n)
      ensures b.sends[a].conn < b.sends[j].conn <= b.conn && b.sends[j].values[n] == Initials(trace[0].config)[n]
    {
      AfterLatest(trace, es, m, n, i, a, j);
    }
    if b.sends[a].conn == b.conn {
      BrokerSettles(b.sends, n, a, b.log[i][n].val);
    } else {
      var c := SentHere(trace, es, m, n, a);
      BrokerSettles(b.sends, n, c, Initials(trace[0].config)[n].val);
    }
  }

  /** A name with nothing pending was acknowledged on the current connection. */
  lemma SentHere<T>(trace: seq<State<Stamped<T>>>, es: seq<Event<Stamped<T>>>, m: nat, n: string, a: nat) returns (c: nat)
    requires StrictRun(trace, es) && m < |trace| && trace[m].link.active
    requires n in Names(trace[0].config) && n !in Pending(trace[m].box)
    requires a < |trace[m].box.sends| && trace[m].box.sends[a].conn != trace[m].box.conn
    ensures a < c < |trace[m].box.sends| && Acks(trace[m].box.sends[c], n)
  {
    var b := trace[m].box;
    SuppliedHere(trace, es, m, n);
    c :| 0 <= c < |b.sends| && Acks(b.sends[c], n) && b.sends[c].conn == b.conn;
    ConnectionBound(trace, es, m, a);
    if c < a {
      ConnectionDiscipline(trace, es, m, c, a);
    }
  }

  lemma SuppliedHere<T>(trace: seq<State<Stamped<T>>>, es: seq<Event<Stamped<T>>>, m: nat, n: string)
    requires FairRun(trace, es) && m < |trace| && trace[m].link.active
    requires n in Names(trace[0].config) && n !in Pending(trace[m].box) && trace[m].box.sends != []
    ensures AckedHere(trace[m].box, n)
  {
    FeederOrder.RunInv(trace, es, m);
    RunBrokerInv(trace, es, m);
  }

  lemma ConnectionBound<T>(trace: seq<State<Stamped<T>>>, es: seq<Event<Stamped<T>>>, m: nat, a: nat)
    requires StrictRun(trace, es) && m < |trace| && a < |trace[m].box.sends|
    ensures trace[m].box.sends[a].conn <= trace[m].box.conn
  {
    RunConnInv(trace, es, m);
  }

  /** What the broker holds for a configured name whose latest feed has left the feeder: that
      value exactly as long as the connection that acknowledged it is still the current one;
      after a reconnect, the initial value again. */
  lemma BrokerHolds<T>(trace: seq<State<Stamped<T>>>, es: seq<Event<Stamped<T>>>, m: nat, n: string, i: nat)
    requires StrictRun(trace, es) && m < |trace| && trace[m].link.active
    requires n in Names(trace[0].config) && n !in Pending(trace[m].box) && LatestFeed(trace[m].box.log, n, i)
    ensures BrokerValue(trace[m].box.sends, n) ==
            Some(if StillUp(trace[m].box, n) then trace[m].box.log[i][n].val else Initials(trace[0].config)[n].val)
  {
    var b := trace[m].box;
    NothingLost(trace, es, m, n, i);
    assert LastUpdate(b.sends, n, b.log[i][n]);
    if StillUp(b, n) {
      var a :| 0 <= a < |b.sends| && b.sends[a].ok && Carries(b.sends[a].values, n, b.log[i][n]);
      HeldAfter(trace, es, m, n, i, a);
    } else {
      var a, i': nat :| 0 <= a < |b.sends| && b.sends[a].ok && LatestFeed(b.log, n, i')
                        && Carries(b.sends[a].values, n, b.log[i'][n]) && b.sends[a].conn != b.conn;
      assert i' == i;
      HeldAfter(trace, es, m, n, i, a);
    }
  }

  /** A name that was never fed and has nothing pending: the broker holds its initial value, or
      nothing before the first connection. */
  lemma NeverFedHolds<T>(trace: seq<State<Stamped<T>>>, es: seq<Event<Stamped<T>>>, m: nat, n: string)
    requires FairRun(trace, es) && m < |trace| && trace[m].link.active
    requires n in Names(trace[0].config) && n !in Pending(trace[m].box)
    requires forall i :: 0 <= i < |trace[m].box.log| ==> n !in trace[m].box.log[i]
    ensures BrokerValue(trace[m].box.sends, n) ==
            if trace[m].box.conn == 0 then None else Some(Initials(trace[0].config)[n].val)
  {
    var b := trace[m].box;
    FeederOrder.RunInv(trace, es, m);
    RunBrokerInv(trace, es, m);
    if b.conn > 0 {
      assert AckedHere(b, n);
      var c :| 0 <= c < |b.sends| && Acks(b.sends[c], n) && b.sends[c].conn == b.conn;
      forall j | c <= j < |b.sends| && Acks(b.sends[j], n)
        ensures b.sends[j].values[n].val == Initials(trace[0].config)[n].val
      {
        assert FromLog(b.sends[j].values, b.log) && FromConfig(b.sends[j].values, Initials(trace[0].config));
      }
      BrokerSettles(b.sends, n, c, Initials(trace[0].config)[n].val);
    }
  }

  /** A feed that is no longer pending has been sent on some connection. */
  lemma FedIsConnected<T>(trace: seq<State<Stamped<T>>>, es: seq<Event<Stamped<T>>>, m: nat, n: string, i: nat)
    requires FairRun(trace, es) && m < |trace| && trace[m].link.active
    requires n in Names(trace[0].config) && n !in Pending(trace[m].box) && LatestFeed(trace[m].box.log, n, i)
    ensures trace[m].box.conn > 0
  {
    NothingLost(trace, es, m, n, i);
    assert LastUpdate(trace[m].box.sends, n, trace[m].box.log[i][n]);
    RunBrokerInv(trace, es, m);
  }
}
