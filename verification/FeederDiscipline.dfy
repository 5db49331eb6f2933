/** Exactly when the feeder uses its connections as it should. */
module FeederDiscipline {
  import opened FeederRun
  import opened FeederOrder
  import opened FeederConnections

  /** The test after a failed send finds the link up at `i`, and at `j` a further batch is answered
      on the same connection. */
  ghost predicate Reused<V>(trace: seq<State<V>>, es: seq<Event<V>>, i: nat, j: nat)
    requires i < j < |es| < |trace|
  {
    BadExit(trace[i], es[i]) && es[j].Reply? && trace[j].box.conn == trace[i].box.conn
  }

  ghost predicate NeverReused<V>(trace: seq<State<V>>, es: seq<Event<V>>, k: nat)
    requires k <= |es| < |trace|
  {
    forall i, j :: 0 <= i < j < k ==> !Reused(trace, es, i, j)
  }

  // ----- without reuse there is discipline -----

  /** The current connection has seen such a test. */
  ghost predicate Tainted<V>(trace: seq<State<V>>, es: seq<Event<V>>, k: nat)
    requires k <= |es| < |trace|
  {
    exists i :: 0 <= i < k && BadExit(trace[i], es[i]) && trace[i].box.conn == trace[k].box.conn
  }

  ghost predicate Bounded<V>(b: Box<V>) {
    forall i :: 0 <= i < |b.sends| ==> b.sends[i].conn <= b.conn
  }

  ghost predicate SoundUnlessTainted<T>(trace: seq<State<Stamped<T>>>, es: seq<Event<Stamped<T>>>, k: nat)
    requires k <= |es| < |trace|
  {
    && Disciplined(trace[k].box.sends) && Bounded(trace[k].box)
    && (Tainted(trace, es, k) || ConnInv(trace[k]))
  }

  /** Steps other than a reply send nothing, and only the first batch of a connection starts one. */
  lemma NoSend<V>(s: State<V>, e: Event<V>, s': State<V>)
    requires Follows(s, e, s')
    ensures !e.Reply? ==> s'.box.sends == s.box.sends
    ensures s'.box.conn == if e.Take? && s.pc == Swap(true) then s.box.conn + 1 else s.box.conn
  {
    if Quiet(e) {
      QuietStep(s, e, s');
    }
  }

  /** A new connection starts without taint. */
  lemma FirstTakeSound<T>(s: State<Stamped<T>>, e: Event<Stamped<T>>, s': State<Stamped<T>>)
    requires Follows(s, e, s') && e.Take? && s.pc == Swap(true) && Disciplined(s.box.sends) && Bounded(s.box)
    ensures ConnInv(s') && Bounded(s'.box)
  {}

  lemma TaintStays<V>(trace: seq<State<V>>, es: seq<Event<V>>, k: nat)
    requires k < |es| < |trace| && trace[k + 1].box.conn == trace[k].box.conn
    requires Tainted(trace, es, k) || BadExit(trace[k], es[k])
    ensures Tainted(trace, es, k + 1)
  {
    if Tainted(trace, es, k) {
      var i :| 0 <= i < k && BadExit(trace[i], es[i]) && trace[i].box.conn == trace[k].box.conn;
      assert BadExit(trace[i], es[i]);
    }
  }

  lemma TaintedReply<V>(trace: seq<State<V>>, es: seq<Event<V>>, k: nat)
    requires k < |es| < |trace|
    ensures Tainted(trace, es, k) && es[k].Reply? ==> exists i :: 0 <= i < k && Reused(trace, es, i, k)
  {
    if Tainted(trace, es, k) && es[k].Reply? {
      var i :| 0 <= i < k && BadExit(trace[i], es[i]) && trace[i].box.conn == trace[k].box.conn;
      assert Reused(trace, es, i, k);
    }
  }

  lemma StepSound<T>(trace: seq<State<Stamped<T>>>, es: seq<Event<Stamped<T>>>, k: nat)
    requires NumberedRun(trace, es) && k < |es| && SoundUnlessTainted(trace, es, k) && NeverReused(trace, es, k + 1)
    ensures SoundUnlessTainted(trace, es, k + 1)
  {
    var s, e, s' := trace[k], es[k], trace[k + 1];
    assert StepAt(trace, es, k) && Numbered(s, e);
    NoSend(s, e, s');
    if e.Take? && s.pc == Swap(true) {
      FirstTakeSound(s, e, s');
    } else if Tainted(trace, es, k) || BadExit(s, e) {
      TaintStays(trace, es, k);
      TaintedReply(trace, es, k);
    } else {
      StepKeepsConn(s, e, s');
    }
  }

  lemma {:induction false} RunSound<T>(trace: seq<State<Stamped<T>>>, es: seq<Event<Stamped<T>>>, k: nat)
    requires NumberedRun(trace, es) && k < |trace| && NeverReused(trace, es, k)
    ensures SoundUnlessTainted(trace, es, k)
  {
    if k > 0 {
      RunSound(trace, es, k - 1);
      StepSound(trace, es, k - 1);
    }
  }

  // ----- with it there is none -----

  /** After a batch, the last send was on the current connection. */
  ghost predicate LastHere<V>(s: State<V>) {
    s.pc == Restoring || s.pc == Rest ==> s.box.sends != [] && s.box.sends[|s.box.sends| - 1].conn == s.box.conn
  }

  lemma StepKeepsLast<V>(s: State<V>, e: Event<V>, s': State<V>)
    requires LastHere(s) && Follows(s, e, s')
    ensures LastHere(s') && s.box.sends <= s'.box.sends
    ensures e.Reply? ==> |s'.box.sends| > |s.box.sends| && s'.box.sends[|s.box.sends|].conn == s.box.conn
  {
    if Quiet(e) {
      QuietStep(s, e, s');
    }
  }

  lemma {:induction false} RunLast<V>(trace: seq<State<V>>, es: seq<Event<V>>, i: nat, k: nat)
    requires Run(trace, es) && i <= k < |trace|
    ensures LastHere(trace[k]) && trace[i].box.sends <= trace[k].box.sends
    decreases k
  {
    if k > 0 {
      assert StepAt(trace, es, k - 1);
      RunLast(trace, es, if i < k then i else i - 1, k - 1);
      StepKeepsLast(trace[k - 1], es[k - 1], trace[k]);
    }
  }

  lemma ReuseBreaks<T>(trace: seq<State<Stamped<T>>>, es: seq<Event<Stamped<T>>>, k: nat, i: nat, j: nat)
    requires Run(trace, es) && i < j < k < |trace| && Reused(trace, es, i, j)
    ensures !Disciplined(trace[k].box.sends)
  {
    RunLast(trace, es, i, i);
    RunLast(trace, es, i, j);
    RunLast(trace, es, j + 1, k);
    assert StepAt(trace, es, i) && StepAt(trace, es, j);
    StepKeepsLast(trace[j], es[j], trace[j + 1]);
    var failed, further := |trace[i].box.sends| - 1, |trace[j].box.sends|;
    var sends := trace[k].box.sends;
    assert sends[failed] == trace[i].box.sends[failed] && sends[further] == trace[j + 1].box.sends[further];
  }

  /** The sends of a run are ordered by connection, with initial values in first batches only and
      nothing after a failed one, if and only if no connection was used further after the test
      that should have left it found the link up. */
  lemma DisciplinedIff<T>(trace: seq<State<Stamped<T>>>, es: seq<Event<Stamped<T>>>, k: nat)
    requires NumberedRun(trace, es) && k < |trace|
    ensures Disciplined(trace[k].box.sends) <==> NeverReused(trace, es, k)
  {
    if NeverReused(trace, es, k) {
      RunSound(trace, es, k);
    } else {
      var i, j :| 0 <= i < j < k && Reused(trace, es, i, j);
      ReuseBreaks(trace, es, k, i, j);
    }
  }
}
