/** What the feeder guarantees over whole runs: nothing fed last is lost, nothing is
    acknowledged out of order, and every connection is used the same way. Because the feeder
    is parametric in its values, feeds can be told apart by running it on stamped ones. */
module FeederOrder {
  import opened Feeder
  import opened FeederRun

  /** A value fed by the `seqNo`-th accepted feed, or a configured initial value. */
  datatype Stamped<T> = Update(seqNo: nat, val: T) | Initial(val: T)

  // ----- assumptions on the environment -----

  /** Feeds carry their position in the order of feeds. */
  ghost predicate Numbered<T>(s: State<Stamped<T>>, e: Event<Stamped<T>>) {
    e.Feed? ==> forall n :: n in e.values ==> e.values[n].Update? && e.values[n].seqNo == |s.box.log|
  }

  ghost predicate InitialsMarked<T>(config: seq<Datapoint<Stamped<T>>>) {
    forall n :: n in Initials(config) ==> Initials(config)[n].Initial?
  }

  ghost predicate Covered<V>(s: State<V>) {
    Names(s.config) <= s.link.ids.Keys
  }

  /** The inner loop is entered for the first time on a connection without ids for all names. */
  ghost predicate BadEntry<V>(s: State<V>, e: Event<V>) {
    e.Enter? && s.pc == Inner(true) && s.link.active && s.link.connected && !Covered(s)
  }

  /** Order needs no more than that: feeds are numbered and initial values told apart. */
  ghost predicate NumberedRun<T>(trace: seq<State<Stamped<T>>>, es: seq<Event<Stamped<T>>>) {
    && Run(trace, es)
    && InitialsMarked(trace[0].config)
    && forall i :: 0 <= i < |es| ==> Numbered(trace[i], es[i])
  }

  ghost predicate Assumed<T>(s: State<Stamped<T>>, e: Event<Stamped<T>>) {
    Numbered(s, e) && !BadEntry(s, e)
  }

  ghost predicate FairRun<T>(trace: seq<State<Stamped<T>>>, es: seq<Event<Stamped<T>>>) {
    && Run(trace, es)
    && InitialsMarked(trace[0].config)
    && forall i :: 0 <= i < |es| ==> Assumed(trace[i], es[i])
  }

  // ----- registration -----

  predicate InLoop(pc: Pc) {
    pc == Inner(false) || pc.Swap? || InBatch(pc) || pc.Rest?
  }

  /** Inside the inner loop every configured name has an id. */
  ghost predicate CoverInv<V>(s: State<V>) {
    InLoop(s.pc) ==> Covered(s)
  }

  lemma StepKeepsCover<V>(s: State<V>, e: Event<V>, s': State<V>)
    requires CoverInv(s) && Follows(s, e, s')
    ensures s'.config == s.config && (CoverInv(s') <==> !BadEntry(s, e))
  {}

  /** So it has throughout a run if and only if it had at every entry. */
  lemma {:induction false} CoveredIff<V>(trace: seq<State<V>>, es: seq<Event<V>>, k: nat)
    requires Run(trace, es) && k < |trace|
    ensures (forall i :: 0 <= i <= k ==> CoverInv(trace[i])) <==> (forall i :: 0 <= i < k ==> !BadEntry(trace[i], es[i]))
  {
    if k > 0 {
      CoveredIff(trace, es, k - 1);
      assert StepAt(trace, es, k - 1);
      if CoverInv(trace[k - 1]) {
        StepKeepsCover(trace[k - 1], es[k - 1], trace[k]);
      }
    }
  }

  // ----- order -----

  /** Every update in `m` is the value its feed brought. */
  ghost predicate FromLog<T>(m: Values<Stamped<T>>, log: seq<Values<Stamped<T>>>) {
    forall n :: n in m && m[n].Update? ==> m[n].seqNo < |log| && n in log[m[n].seqNo] && log[m[n].seqNo][n] == m[n]
  }

  /** Where both have an update for a name, the one in `b` is later. */
  ghost predicate Older<T>(a: Values<Stamped<T>>, b: Values<Stamped<T>>) {
    forall n :: n in a && n in b && a[n].Update? && b[n].Update? ==> a[n].seqNo < b[n].seqNo
  }

  ghost predicate AllUpdates<T>(m: Values<Stamped<T>>) {
    forall n :: n in m ==> m[n].Update?
  }

  ghost predicate OrderInv<T>(b: Box<Stamped<T>>) {
    && (forall i, n :: 0 <= i < |b.log| && n in b.log[i] ==> b.log[i][n].Update? && b.log[i][n].seqNo == i)
    && FromLog(b.stored, b.log) && FromLog(b.inflight, b.log)
    && Older(b.inflight, b.stored)
    && (forall i :: 0 <= i < |b.sends| ==>
          FromLog(b.sends[i].values, b.log) &&
          (b.sends[i].ok ==> Older(b.sends[i].values, b.inflight) && Older(b.sends[i].values, b.stored)))
    && (forall i, j :: 0 <= i < j < |b.sends| && b.sends[i].ok && b.sends[j].ok ==>
          Older(b.sends[i].values, b.sends[j].values))
  }

  lemma FedKeepsOrder<T>(b: Box<Stamped<T>>, values: Values<Stamped<T>>)
    requires OrderInv(b)
    requires forall n :: n in values ==> values[n].Update? && values[n].seqNo == |b.log|
    ensures OrderInv(FeederRun.Fed(b, values))
  {
    var b' := FeederRun.Fed(b, values);
    forall i | 0 <= i < |b.sends|
      ensures FromLog(b.sends[i].values, b'.log) && (b.sends[i].ok ==> Older(b.sends[i].values, b'.stored))
    {
      assert FromLog(b.sends[i].values, b.log);
    }
  }

  lemma TakenKeepsOrder<T>(b: Box<Stamped<T>>, first: bool, initials: Values<Stamped<T>>)
    requires OrderInv(b)
    requires forall n :: n in initials ==> initials[n].Initial?
    ensures OrderInv(Taken(b, first, initials))
  {}

  lemma AnsweredKeepsOrder<T>(b: Box<Stamped<T>>, first: bool, ok: bool, ids: map<string, int>)
    requires OrderInv(b)
    ensures OrderInv(Answered(b, first, ok, ids))
  {}

  lemma RestoredKeepsOrder<T>(b: Box<Stamped<T>>)
    requires OrderInv(b)
    ensures OrderInv(Restored(b))
  {}

  lemma StepKeepsOrder<T>(s: State<Stamped<T>>, e: Event<Stamped<T>>, s': State<Stamped<T>>)
    requires OrderInv(s.box) && Follows(s, e, s') && Numbered(s, e) && InitialsMarked(s.config)
    ensures OrderInv(s'.box)
  {
    match e
    case Feed(values, _) => FedKeepsOrder(s.box, values);
    case Stop =>
    case Take => TakenKeepsOrder(s.box, s.pc.first, Initials(s.config));
    case Reply(ok, _) => AnsweredKeepsOrder(s.box, s.pc.first, ok, s.link.ids);
    case PutBack => RestoredKeepsOrder(s.box);
    case _ => QuietStep(s, e, s');
  }

  lemma {:induction false} RunOrderInv<T>(trace: seq<State<Stamped<T>>>, es: seq<Event<Stamped<T>>>, k: nat)
    requires NumberedRun(trace, es) && k < |trace|
    ensures OrderInv(trace[k].box) && trace[k].config == trace[0].config
  {
    if k > 0 {
      RunOrderInv(trace, es, k - 1);
      assert StepAt(trace, es, k - 1) && Numbered(trace[k - 1], es[k - 1]);
      ConfigKept(trace[k - 1], es[k - 1], trace[k]);
      StepKeepsOrder(trace[k - 1], es[k - 1], trace[k]);
    }
  }

  lemma ConfigKept<V>(s: State<V>, e: Event<V>, s': State<V>)
    requires Follows(s, e, s')
    ensures s'.config == s.config
  {}

  // ----- nothing fed last is lost -----

  predicate LatestFeed<T>(log: seq<Values<Stamped<T>>>, n: string, i: nat) {
    i < |log| && n in log[i] && forall j :: i < j < |log| ==> n !in log[j]
  }

  ghost predicate Carries<V>(m: Values<V>, n: string, v: V) {
    n in m && m[n] == v
  }

  ghost predicate Acknowledged<V>(sends: seq<Send<V>>, n: string, v: V) {
    exists k :: 0 <= k < |sends| && sends[k].ok && Carries(sends[k].values, n, v)
  }

  /** Stored, in flight with nothing newer stored, or acknowledged. */
  ghost predicate Held<V>(b: Box<V>, n: string, v: V) {
    || Carries(b.stored, n, v)
    || (n !in b.stored && Carries(b.inflight, n, v))
    || Acknowledged(b.sends, n, v)
  }

  ghost predicate NoLoss<T>(s: State<Stamped<T>>) {
    s.link.active ==>
      forall n, i: nat :: n in Names(s.config) && LatestFeed(s.box.log, n, i) ==> Held(s.box, n, s.box.log[i][n])
  }

  /** Sends only accumulate, so what was acknowledged stays so. */
  lemma MoreSends<V>(sends: seq<Send<V>>, more: seq<Send<V>>, n: string, v: V)
    requires sends <= more && Acknowledged(sends, n, v)
    ensures Acknowledged(more, n, v)
  {}

  lemma FeedKeepsHeld<T>(s: State<Stamped<T>>, values: Values<Stamped<T>>, n: string, i: nat)
    requires s.link.active && NoLoss(s) && n in Names(s.config)
    requires LatestFeed(FeederRun.Fed(s.box, values).log, n, i)
    ensures Held(FeederRun.Fed(s.box, values), n, FeederRun.Fed(s.box, values).log[i][n])
  {
    var log' := FeederRun.Fed(s.box, values).log;
    if i < |s.box.log| {
      assert forall j :: 0 <= j < |s.box.log| ==> log'[j] == s.box.log[j];
      assert LatestFeed(s.box.log, n, i);
      assert n !in values by { assert FeederRun.Fed(s.box, values).log[|s.box.log|] == values; }
      assert Held(s.box, n, s.box.log[i][n]);
    }
  }

  /** A step other than a feed or a stop carries a held value on. */
  lemma StepKeepsHeld<T>(s: State<Stamped<T>>, e: Event<Stamped<T>>, s': State<Stamped<T>>, n: string, v: Stamped<T>)
    requires Follows(s, e, s') && BatchInv(s) && CoverInv(s) && !e.Feed? && !e.Stop?
    requires n in Names(s.config) && Held(s.box, n, v)
    ensures s'.box.log == s.box.log && Held(s'.box, n, v)
  {
    if Quiet(e) {
      QuietStep(s, e, s');
    } else {
      assert s.box.sends <= s'.box.sends;
      if Acknowledged(s.box.sends, n, v) {
        MoreSends(s.box.sends, s'.box.sends, n, v);
      } else if e.Reply? && e.ok && n !in s.box.stored {
        assert Carries(s'.box.sends[|s.box.sends|].values, n, v);
        assert Acknowledged(s'.box.sends, n, v);
      }
    }
  }

  lemma StepKeepsNoLoss<T>(s: State<Stamped<T>>, e: Event<Stamped<T>>, s': State<Stamped<T>>)
    requires NoLoss(s) && Follows(s, e, s') && BatchInv(s) && CoverInv(s) && s'.config == s.config
    ensures NoLoss(s')
  {
    if s'.link.active {
      ActiveBefore(s, e, s');
      forall n, i: nat | n in Names(s.config) && LatestFeed(s'.box.log, n, i)
        ensures Held(s'.box, n, s'.box.log[i][n])
      {
        if e.Feed? {
          FeedKeepsHeld(s, e.values, n, i);
        } else {
          LogKept(s, e, s');
          StepKeepsHeld(s, e, s', n, s.box.log[i][n]);
        }
      }
    }
  }

  lemma ActiveBefore<V>(s: State<V>, e: Event<V>, s': State<V>)
    requires Follows(s, e, s') && s'.link.active
    ensures s.link.active && !e.Stop?
    ensures e.Feed? ==> s' == s.(box := FeederRun.Fed(s.box, e.values))
  {}

  lemma LogKept<V>(s: State<V>, e: Event<V>, s': State<V>)
    requires Follows(s, e, s') && !e.Feed?
    ensures s'.box.log == s.box.log
  {}

  ghost predicate Inv<T>(s: State<Stamped<T>>) {
    BatchInv(s) && CoverInv(s) && OrderInv(s.box) && NoLoss(s) && InitialsMarked(s.config)
  }

  lemma {:induction false} RunInv<T>(trace: seq<State<Stamped<T>>>, es: seq<Event<Stamped<T>>>, k: nat)
    requires FairRun(trace, es) && k < |trace|
    ensures Inv(trace[k]) && trace[k].config == trace[0].config
  {
    if k > 0 {
      RunInv(trace, es, k - 1);
      var s, e, s' := trace[k - 1], es[k - 1], trace[k];
      assert StepAt(trace, es, k - 1) && Assumed(s, e);
      StepKeepsBatchInv(s, e, s');
      StepKeepsCover(s, e, s');
      StepKeepsOrder(s, e, s');
      StepKeepsNoLoss(s, e, s');
    }
  }

  // ----- main results -----

  /** The last update acknowledged for `n` is `v`; after it came initial values at most. */
  ghost predicate LastUpdate<T>(sends: seq<Send<Stamped<T>>>, n: string, v: Stamped<T>) {
    exists a :: 0 <= a < |sends| && sends[a].ok && Carries(sends[a].values, n, v) && NoUpdateAfter(sends, a, n)
  }

  ghost predicate NoUpdateAfter<T>(sends: seq<Send<Stamped<T>>>, a: int, n: string) {
    forall j :: a < j < |sends| && 0 <= j && sends[j].ok && n in sends[j].values ==> sends[j].values[n].Initial?
  }

  /** An acknowledged latest feed is the last update acknowledged. */
  lemma LatestIsLast<T>(b: Box<Stamped<T>>, n: string, i: nat, a: nat)
    requires OrderInv(b) && LatestFeed(b.log, n, i)
    requires a < |b.sends| && b.sends[a].ok && Carries(b.sends[a].values, n, b.log[i][n])
    ensures NoUpdateAfter(b.sends, a, n)
  {}

  /** While the feeder is active, the latest value fed for a configured name is stored, in
      flight with nothing newer stored, or the last update acknowledged, through any failures
      and reconnects. */
  lemma NothingLost<T>(trace: seq<State<Stamped<T>>>, es: seq<Event<Stamped<T>>>, k: nat, n: string, i: nat)
    requires FairRun(trace, es) && k < |trace| && trace[k].link.active
    requires n in Names(trace[0].config) && LatestFeed(trace[k].box.log, n, i)
    ensures var b, v := trace[k].box, trace[k].box.log[i][n];
            || Carries(b.stored, n, v)
            || (n !in b.stored && Carries(b.inflight, n, v))
            || LastUpdate(b.sends, n, v)
    ensures trace[k].box.log[i][n].Update? && trace[k].box.log[i][n].seqNo == i
  {
    RunInv(trace, es, k);
    var b, v := trace[k].box, trace[k].box.log[i][n];
    assert Held(b, n, v);
    if Acknowledged(b.sends, n, v) {
      var a :| 0 <= a < |b.sends| && b.sends[a].ok && Carries(b.sends[a].values, n, v);
      LatestIsLast(b, n, i, a);
    }
  }

  /** Per name, acknowledged updates come in strictly increasing feed order over the whole run,
      however the subscriber uses connected_ and whatever the replies; and no update still
      pending is older than an acknowledged one. */
  lemma NothingReordered<T>(trace: seq<State<Stamped<T>>>, es: seq<Event<Stamped<T>>>, k: nat, n: string, i: nat, j: nat)
    requires NumberedRun(trace, es) && k < |trace|
    requires i < j < |trace[k].box.sends| && trace[k].box.sends[i].ok && trace[k].box.sends[j].ok
    requires n in trace[k].box.sends[i].values && n in trace[k].box.sends[j].values
    requires trace[k].box.sends[i].values[n].Update? && trace[k].box.sends[j].values[n].Update?
    ensures trace[k].box.sends[i].values[n].seqNo < trace[k].box.sends[j].values[n].seqNo
    ensures n in Pending(trace[k].box) && Pending(trace[k].box)[n].Update? ==>
              trace[k].box.sends[j].values[n].seqNo < Pending(trace[k].box)[n].seqNo
  {
    RunOrderInv(trace, es, k);
    assert Older(trace[k].box.sends[i].values, trace[k].box.sends[j].values);
    assert Older(trace[k].box.sends[j].values, trace[k].box.stored) && Older(trace[k].box.sends[j].values, trace[k].box.inflight);
  }
}
