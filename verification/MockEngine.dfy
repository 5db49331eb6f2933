/** One turn of the mock service's main loop: the behavior executor, then the animators, both
    working on the shared list of pending events. */
module MockEngine {
  import opened Options
  import A = Animator
  import T = Triggers

  datatype Value = Num(r: real) | Text(s: string) | Flag(b: bool)

  datatype Event = Event(name: string, path: string, value: Value)

  datatype EventType = ACTUATOR_TARGET | VALUE

  function Key(kind: EventType): string {
    match kind
    case ACTUATOR_TARGET => "actuator_target"
    case VALUE => "value"
  }

  predicate Matches(e: Event, name: string, path: string) {
    e.name == name && e.path == path
  }

  /** What a condition can look at; the broker client is not part of this model. */
  datatype Context = Context(path: string, pending: seq<Event>, delta: real)

  datatype Trigger = OnClock(clock: T.Clock) | OnEvent(kind: EventType, path: Option<string>)

  type Animation = a: A.Anim | A.Valid(a) witness A.Anim([0.0, 0.0], 1.0, A.ONCE, 0.0, false, 0.0)

  /** An animator and whether it drives the mocked datapoint; the one created while loading the
      mock drives a throw-away copy. */
  datatype Playing = Playing(anim: Animation, live: bool)

  /** Actions, with the resolution of dynamic values as a function of the triggering event and
      the datapoint's value. */
  datatype Action =
    | SetAction(resolve: (Option<Event>, Value) -> Option<Value>)
    | AnimationAction(start: (Option<Event>, Value) -> Animation, animator: Option<Playing>)

  datatype Behavior = Behavior(trigger: Trigger, condition: Context -> bool, action: Action)

  datatype Mocked = Mocked(path: string, discrete: bool, value: Value, behaviors: seq<Behavior>)

  /** A behavior that was executed, by position, and the event that triggered it, if any. */
  datatype Ran = Ran(datapoint: nat, behavior: nat, event: Option<Event>)

  // ----- accounting for events -----

  function AsSeq(o: Option<Event>): seq<Event> {
    if o.Some? then [o.value] else []
  }

  /** The events that executed actions received. */
  function Received(ran: seq<Ran>): seq<Event> {
    if ran == [] then [] else Received(ran[..|ran| - 1]) + AsSeq(ran[|ran| - 1].event)
  }

  /** Every event of `before` is still pending, was consumed, or was removed as an echo. */
  ghost predicate Accounted(before: seq<Event>, after: seq<Event>, consumed: seq<Event>, echoes: seq<Event>) {
    multiset(before) == multiset(after) + multiset(consumed) + multiset(echoes)
  }

  lemma AccountedThen(a: seq<Event>, b: seq<Event>, c: seq<Event>,
                      consumed1: seq<Event>, echoes1: seq<Event>, consumed2: seq<Event>, echoes2: seq<Event>)
    requires Accounted(a, b, consumed1, echoes1) && Accounted(b, c, consumed2, echoes2)
    ensures Accounted(a, c, consumed1 + consumed2, echoes1 + echoes2)
  {}

  lemma RemoveAt(s: seq<Event>, i: nat)
    requires i < |s|
    ensures multiset(s) == multiset(s[..i] + s[i + 1..]) + multiset([s[i]])
  {
    assert s == s[..i] + [s[i]] + s[i + 1..];
  }

  /** EventTrigger.check and the echo removal of _set_datapoint scan alike: they settle on the
      last match, and list.remove then takes out the first element equal to it. */
  method TakeMatching(pending: seq<Event>, name: string, path: string) returns (taken: Option<Event>, rest: seq<Event>)
    ensures taken.None? ==> rest == pending && forall i :: 0 <= i < |pending| ==> !Matches(pending[i], name, path)
    ensures taken.Some? ==> exists last ::
              && 0 <= last < |pending| && pending[last] == taken.value && Matches(pending[last], name, path)
              && forall i :: last < i < |pending| ==> !Matches(pending[i], name, path)
    ensures taken.Some? ==> exists first ::
              && 0 <= first < |pending| && pending[first] == taken.value && taken.value !in pending[..first]
              && rest == pending[..first] + pending[first + 1..]
    ensures multiset(pending) == multiset(rest) + multiset(AsSeq(taken))
  {
    taken := None;
    ghost var last := 0;
    for i := 0 to |pending|
      invariant taken.None? ==> forall j :: 0 <= j < i ==> !Matches(pending[j], name, path)
      invariant taken.Some? ==>
                  && 0 <= last < i && pending[last] == taken.value && Matches(pending[last], name, path)
                  && forall j :: last < j < i ==> !Matches(pending[j], name, path)
    {
      if pending[i].name == name && pending[i].path == path {
        taken := Some(pending[i]);
        last := i;
      }
    }
    rest := pending;
    if taken.Some? {
      assert pending[last] == taken.value;
      var first := 0;
      while pending[first] != taken.value
        invariant 0 <= first <= last < |pending|
        invariant taken.value !in pending[..first]
        decreases |pending| - first
      {
        first := first + 1;
      }
      RemoveAt(pending, first);
      rest := pending[..first] + pending[first + 1..];
    }
  }

  // ----- the service -----

  /** The path an event trigger listens to, for a behavior of the datapoint at `own`. */
  function BoundPath(path: Option<string>, own: string): string {
    if path.Some? then path.value else own
  }

  /** A trigger after a check: the clock runs on, an event trigger keeps the path it used. */
  function CheckedTrigger(t: Trigger, own: string, delta: real): Trigger {
    match t
    case OnClock(clock) => OnClock(T.Checked(clock, delta))
    case OnEvent(kind, path) => OnEvent(kind, Some(BoundPath(path, own)))
  }

  function WithTrigger(d: Mocked, j: nat, t: Trigger): Mocked
    requires j < |d.behaviors|
  {
    d.(behaviors := d.behaviors[j := d.behaviors[j].(trigger := t)])
  }

  function WithAction(d: Mocked, j: nat, a: Action): Mocked
    requires j < |d.behaviors|
  {
    d.(behaviors := d.behaviors[j := d.behaviors[j].(action := a)])
  }

  /** A datapoint after the action of its j-th behavior, triggered by `event`. */
  function Performed(d: Mocked, j: nat, event: Option<Event>): Mocked
    requires j < |d.behaviors|
  {
    match d.behaviors[j].action
    case SetAction(resolve) =>
      var v := resolve(event, d.value);
      if v.Some? then d.(value := v.value) else d
    case AnimationAction(start, _) =>
      if d.discrete then d
      else WithAction(d, j, AnimationAction(start, Some(Playing(start(event, d.value), true))))
  }

  /** A datapoint after its j-th behavior's animator has been ticked. */
  function Animated(d: Mocked, j: nat, delta: real): Mocked
    requires j < |d.behaviors| && d.behaviors[j].action.AnimationAction? && d.behaviors[j].action.animator.Some?
    requires 0.0 <= delta
  {
    var action := d.behaviors[j].action;
    var playing := action.animator.value;
    if playing.anim.done then d
    else
      var anim := A.Tick(playing.anim, delta);
      var d' := WithAction(d, j, action.(animator := Some(playing.(anim := anim))));
      if playing.live then d'.(value := Num(anim.value)) else d'
  }

  /** `ran` was triggered as its behavior says: by a matching event, or by its clock. */
  predicate Triggered(d: Mocked, r: Ran, delta: real) {
    && r.behavior < |d.behaviors|
    && match d.behaviors[r.behavior].trigger
       case OnClock(clock) => r.event.None? && T.Fires(clock, delta)
       case OnEvent(kind, path) => r.event.Some? && Matches(r.event.value, Key(kind), BoundPath(path, d.path))
  }

  function AfterCheck(d: Mocked, j: nat, delta: real): Mocked
    requires j < |d.behaviors|
  {
    WithTrigger(d, j, CheckedTrigger(d.behaviors[j].trigger, d.path, delta))
  }

  /** The trigger of the j-th behavior of `d` is active. */
  predicate Fires(d: Mocked, j: nat, delta: real, pending: seq<Event>)
    requires j < |d.behaviors|
  {
    match d.behaviors[j].trigger
    case OnClock(clock) => T.Fires(clock, delta)
    case OnEvent(kind, path) => exists e :: e in pending && Matches(e, Key(kind), BoundPath(path, d.path))
  }

  /** The j-th behavior of `d` can run. */
  predicate Ready(d: Mocked, j: nat, delta: real, pending: seq<Event>)
    requires j < |d.behaviors|
  {
    d.behaviors[j].condition(Context(d.path, pending, delta)) && Fires(d, j, delta, pending)
  }

  /** A datapoint after its j-th behavior has been tried, `ran` telling whether it ran. */
  function Tried(d: Mocked, j: nat, delta: real, pending: seq<Event>, ran: seq<Ran>): Mocked
    requires j < |d.behaviors|
  {
    if !d.behaviors[j].condition(Context(d.path, pending, delta)) then d
    else
      var checked := AfterCheck(d, j, delta);
      if ran == [] then checked else Performed(checked, j, ran[0].event)
  }

  /** A datapoint whose first `n` behaviors have been tried and did not run. */
  function Skipped(d: Mocked, n: nat, delta: real, pending: seq<Event>): (d': Mocked)
    requires n <= |d.behaviors|
    ensures d'.path == d.path && d'.discrete == d.discrete && |d'.behaviors| == |d.behaviors|
    ensures forall l :: n <= l < |d.behaviors| ==> d'.behaviors[l] == d.behaviors[l]
  {
    if n == 0 then d else Tried(Skipped(d, n - 1, delta, pending), n - 1, delta, pending, [])
  }

  predicate Animates(b: Behavior) { b.action.AnimationAction? && b.action.animator.Some? }

  /** No animation action lacks its animator. */
  predicate AllLoaded(d: Mocked, n: nat)
    requires n <= |d.behaviors|
  {
    forall j :: 0 <= j < n && d.behaviors[j].action.AnimationAction? ==> d.behaviors[j].action.animator.Some?
  }

  /** A datapoint after the animators of its first `n` behaviors have been ticked. */
  function Played(d: Mocked, n: nat, delta: real): (d': Mocked)
    requires n <= |d.behaviors| && 0.0 <= delta
    ensures d'.path == d.path && d'.discrete == d.discrete && |d'.behaviors| == |d.behaviors|
    ensures forall l :: n <= l < |d.behaviors| ==> d'.behaviors[l] == d.behaviors[l]
  {
    if n == 0 then d
    else
      var before := Played(d, n - 1, delta);
      if Animates(before.behaviors[n - 1]) then Animated(before, n - 1, delta) else before
  }

  /** Events were removed as echoes only of values fed meanwhile. */
  ghost predicate EchoesOf(echoes: seq<Event>, before: seq<(string, Value)>, after: seq<(string, Value)>) {
    && before <= after
    && |echoes| <= |after| - |before|
    && forall e :: e in echoes ==> e.name == "value" && exists k :: |before| <= k < |after| && after[k].0 == e.path
  }

  lemma EchoesThen(a: seq<(string, Value)>, b: seq<(string, Value)>, c: seq<(string, Value)>, e1: seq<Event>, e2: seq<Event>)
    requires EchoesOf(e1, a, b) && EchoesOf(e2, b, c)
    ensures EchoesOf(e1 + e2, a, c)
  {}

  /** The mocked datapoints keep their number, paths and behaviors' positions. */
  predicate SameShape(a: seq<Mocked>, b: seq<Mocked>) {
    && |a| == |b|
    && forall i :: 0 <= i < |a| ==> a[i].path == b[i].path && a[i].discrete == b[i].discrete && |a[i].behaviors| == |b[i].behaviors|
  }

  /** `ran` lists behaviors in order of datapoints, one for each at most, from `lo` up to `hi`. */
  predicate OnePerDatapoint(ran: seq<Ran>, lo: nat, hi: nat) {
    && (forall k :: 0 <= k < |ran| ==> lo <= ran[k].datapoint < hi)
    && (forall k, l :: 0 <= k < l < |ran| ==> ran[k].datapoint < ran[l].datapoint)
  }

  /** None of the first `n` behaviors of `d` is ready. */
  predicate NoneReady(d: Mocked, n: nat, delta: real, pending: seq<Event>)
    requires n <= |d.behaviors|
  {
    forall j :: 0 <= j < n ==> !Ready(d, j, delta, pending)
  }

  /** What trying the j-th behavior of the datapoint at position `i` did to it: it ran exactly
      if it was ready. */
  ghost predicate TriedOne(i: nat, d: Mocked, j: nat, d': Mocked, ran: seq<Ran>, delta: real, pending: seq<Event>)
    requires j < |d.behaviors|
  {
    && d' == Tried(d, j, delta, pending, ran)
    && if Ready(d, j, delta, pending) then ran != [] && ran == [Ran(i, j, ran[0].event)] && Triggered(d, ran[0], delta)
       else ran == []
  }

  /** A check changes nothing that the action looks at. */
  lemma ActedAfterCheck(d: Mocked, j: nat, delta: real, event: Option<Event>, d': Mocked, news: seq<(string, Value)>)
    requires j < |d.behaviors| == |d'.behaviors| && Acted(AfterCheck(d, j, delta), j, event, d', news)
    ensures Acted(d, j, event, d', news)
  {}

  lemma ActedAfterSkips(d: Mocked, j: nat, delta: real, pending: seq<Event>, event: Option<Event>, d': Mocked, news: seq<(string, Value)>)
    requires j < |d.behaviors| == |d'.behaviors| && Acted(Skipped(d, j, delta, pending), j, event, d', news)
    ensures Acted(d, j, event, d', news)
  {
    SkippedIs(d, j, delta, pending);
  }

  lemma OnlyThere(a: seq<Mocked>, b: seq<Mocked>, c: seq<Mocked>, i: nat)
    requires i < |a| == |b| == |c| && b == a[i := b[i]] && c == b[i := c[i]]
    ensures c == a[i := c[i]]
  {}

  lemma TriedRan(i: nat, d: Mocked, j: nat, d': Mocked, event: Option<Event>, delta: real, pending: seq<Event>, news: seq<(string, Value)>)
    requires j < |d.behaviors| == |d'.behaviors| && Ready(d, j, delta, pending) && Triggered(d, Ran(i, j, event), delta)
    requires d' == Performed(AfterCheck(d, j, delta), j, event) && Acted(AfterCheck(d, j, delta), j, event, d', news)
    ensures TriedOne(i, d, j, d', [Ran(i, j, event)], delta, pending) && Acted(d, j, event, d', news)
  {
    ActedAfterCheck(d, j, delta, event, d', news);
  }

  lemma TriedInVain(i: nat, d: Mocked, j: nat, d': Mocked, delta: real, pending: seq<Event>)
    requires j < |d.behaviors| && !Fires(d, j, delta, pending) && d.behaviors[j].condition(Context(d.path, pending, delta))
    requires d' == AfterCheck(d, j, delta)
    ensures TriedOne(i, d, j, d', [], delta, pending) && |d'.behaviors| == |d.behaviors|
  {}

  lemma TriedNothing(i: nat, d: Mocked, j: nat, delta: real, pending: seq<Event>)
    requires j < |d.behaviors| && !d.behaviors[j].condition(Context(d.path, pending, delta))
    ensures TriedOne(i, d, j, d, [], delta, pending)
  {}

  lemma TryNext(i: nat, d: Mocked, j: nat, d': Mocked, ran: seq<Ran>, delta: real, pending: seq<Event>)
    requires j < |d.behaviors| && NoneReady(d, j, delta, pending)
    requires TriedOne(i, Skipped(d, j, delta, pending), j, d', ran, delta, pending)
    ensures ran == [] ==> d' == Skipped(d, j + 1, delta, pending) && NoneReady(d, j + 1, delta, pending)
    ensures ran != [] ==> Attempted(i, d, d', ran, delta, pending)
  {}

  /** What running the datapoint at position `i` did to it: `ran` is the first behavior that is
      ready, if any, those before it were tried in vain. */
  ghost predicate Attempted(i: nat, d: Mocked, d': Mocked, ran: seq<Ran>, delta: real, pending: seq<Event>) {
    if ran == [] then NoneReady(d, |d.behaviors|, delta, pending) && d' == Skipped(d, |d.behaviors|, delta, pending)
    else
      var r := ran[0];
      && ran == [r] && r.datapoint == i && r.behavior < |d.behaviors| && Triggered(d, r, delta)
      && Ready(d, r.behavior, delta, pending) && NoneReady(d, r.behavior, delta, pending)
      && d' == Tried(Skipped(d, r.behavior, delta, pending), r.behavior, delta, pending, ran)
  }

  lemma AttemptedShape(i: nat, d: Mocked, d': Mocked, ran: seq<Ran>, delta: real, pending: seq<Event>)
    requires Attempted(i, d, d', ran, delta, pending)
    ensures d'.path == d.path && d'.discrete == d.discrete && |d'.behaviors| == |d.behaviors|
    ensures OnePerDatapoint(ran, i, i + 1) && forall k :: 0 <= k < |ran| ==> Triggered(d, ran[k], delta)
  {}

  /** `ran` lists behaviors of the first `i` datapoints: in order of datapoints, one for each at
      most, each triggered as it says. */
  ghost predicate Listed(was: seq<Mocked>, i: nat, ran: seq<Ran>, delta: real)
    requires i <= |was|
  {
    && OnePerDatapoint(ran, 0, i)
    && (forall k :: 0 <= k < |ran| ==> Triggered(was[ran[k].datapoint], ran[k], delta))
  }

  /** The first `i` datapoints have been run, and `ran` lists the behaviors that did. */
  ghost predicate Executed(was: seq<Mocked>, now: seq<Mocked>, i: nat, ran: seq<Ran>, delta: real) {
    && SameShape(now, was) && i <= |was|
    && (forall k :: i <= k < |was| ==> now[k] == was[k])
    && Listed(was, i, ran, delta)
  }

  lemma SameShapeThen(a: seq<Mocked>, b: seq<Mocked>, c: seq<Mocked>)
    requires SameShape(a, b) && SameShape(b, c)
    ensures SameShape(a, c)
  {}

  lemma ExecutedThen(was: seq<Mocked>, mid: seq<Mocked>, now: seq<Mocked>, i: nat, ran: seq<Ran>, more: seq<Ran>, delta: real, pending: seq<Event>)
    requires Executed(was, mid, i, ran, delta) && i < |was| == |now|
    requires now == mid[i := now[i]] && Attempted(i, mid[i], now[i], more, delta, pending)
    ensures Executed(was, now, i + 1, ran + more, delta)
  {
    AttemptedShape(i, mid[i], now[i], more, delta, pending);
  }

  /** One datapoint's turn: the events pending before and after, the behavior that ran, if any, and
      the echoes removed, and the values fed. */
  datatype Turn = Turn(before: seq<Event>, ran: seq<Ran>, echoes: seq<Event>, after: seq<Event>, fed: seq<(string, Value)>)

  function AllRan(turns: seq<Turn>): seq<Ran> {
    if turns == [] then [] else AllRan(turns[..|turns| - 1]) + turns[|turns| - 1].ran
  }

  /** The turns follow one another, from the events `start` on, and account for every event. */
  ghost predicate Chained(start: seq<Event>, turns: seq<Turn>, end: seq<Event>) {
    && end == (if turns == [] then start else turns[|turns| - 1].after)
    && forall k :: 0 <= k < |turns| ==> Linked(start, turns, k)
  }

  /** In its turn each of the first datapoints ran its first behavior that was ready, if any. */
  ghost predicate Attempts(was: seq<Mocked>, now: seq<Mocked>, turns: seq<Turn>, delta: real) {
    && |turns| <= |was| == |now|
    && forall k :: 0 <= k < |turns| ==> Came(k, was[k], now[k], turns[k].ran, delta, turns[k].before, turns[k].fed)
  }

  lemma AttemptsThen(was: seq<Mocked>, mid: seq<Mocked>, now: seq<Mocked>, turns: seq<Turn>, t: Turn, delta: real)
    requires Attempts(was, mid, turns, delta) && |turns| < |was| == |now|
    requires mid[|turns|] == was[|turns|] && now == mid[|turns| := now[|turns|]]
    requires Came(|turns|, was[|turns|], now[|turns|], t.ran, delta, t.before, t.fed)
    ensures Attempts(was, now, turns + [t], delta)
  {
    forall k | 0 <= k < |turns + [t]|
      ensures Came(k, was[k], now[k], (turns + [t])[k].ran, delta, (turns + [t])[k].before, (turns + [t])[k].fed)
    {
      if k < |turns| {
        assert Came(k, was[k], mid[k], turns[k].ran, delta, turns[k].before, turns[k].fed);
      }
    }
  }

  /** The k-th of the turns begins where the one before it ended, and accounts for its events. */
  ghost predicate Linked(start: seq<Event>, turns: seq<Turn>, k: nat)
    requires k < |turns|
  {
    && turns[k].before == (if k == 0 then start else turns[k - 1].after)
    && Accounted(turns[k].before, turns[k].after, Received(turns[k].ran), turns[k].echoes)
  }

  lemma ChainedThen(start: seq<Event>, turns: seq<Turn>, mid: seq<Event>, t: Turn)
    requires Chained(start, turns, mid) && t.before == mid && Accounted(t.before, t.after, Received(t.ran), t.echoes)
    ensures Chained(start, turns + [t], t.after) && AllRan(turns + [t]) == AllRan(turns) + t.ran
  {
    assert (turns + [t])[..|turns|] == turns;
    forall k | 0 <= k < |turns + [t]|
      ensures Linked(start, turns + [t], k)
    {
      assert k < |turns| ==> Linked(start, turns, k);
    }
  }

  // ----- what a turn does, on the fields of the datapoint it finds -----

  /** What running the j-th behavior of `d` on `event` did: the value its resolver gives, if any, is
      set, and fed if it is another; or an animation made from the event and the old value drives
      the datapoint from now on. */
  ghost predicate Acted(d: Mocked, j: nat, event: Option<Event>, d': Mocked, news: seq<(string, Value)>)
    requires j < |d.behaviors| == |d'.behaviors|
  {
    match d.behaviors[j].action
    case SetAction(resolve) => (
      match resolve(event, d.value)
      case Some(v) => d'.value == v && news == if v != d.value then [(d.path, v)] else []
      case None => d'.value == d.value && news == []
    )
    case AnimationAction(start, animator) =>
      && d'.value == d.value && news == []
      && d'.behaviors[j].action.AnimationAction?
      && d'.behaviors[j].action.animator == if d.discrete then animator else Some(Playing(start(event, d.value), true))
  }

  /** What a turn of the datapoint at position `i` came to. */
  ghost predicate Came(i: nat, d: Mocked, d': Mocked, ran: seq<Ran>, delta: real, pending: seq<Event>, news: seq<(string, Value)>) {
    && Attempted(i, d, d', ran, delta, pending) && |d'.behaviors| == |d.behaviors|
    && if ran == [] then news == [] else Acted(d, ran[0].behavior, ran[0].event, d', news)
  }

  /** A trigger after it has been checked: its clock has run on, or the path it listens to is bound. */
  predicate Watched(t: Trigger, t': Trigger, own: string, delta: real) {
    match t
    case OnClock(clock) => t'.OnClock? && t'.clock == T.Checked(clock, delta)
    case OnEvent(kind, path) => t'.OnEvent? && t'.kind == kind && t'.path == Some(if path.Some? then path.value else own)
  }

  /** An event is what a trigger listens for. */
  predicate Wanted(e: Event, kind: EventType, path: Option<string>, own: string) {
    && e.name == (if kind.VALUE? then "value" else "actuator_target")
    && e.path == if path.Some? then path.value else own
  }

  /** The condition of the l-th behavior holds, and its clock runs out or an event is pending that
      it listens for. */
  predicate CanRun(d: Mocked, l: nat, delta: real, pending: seq<Event>)
    requires l < |d.behaviors|
  {
    && d.behaviors[l].condition(Context(d.path, pending, delta))
    && match d.behaviors[l].trigger
       case OnClock(clock) => !clock.expired && clock.timeLeft <= delta
       case OnEvent(kind, path) => exists e :: e in pending && Wanted(e, kind, path, d.path)
  }

  /** The event that a running behavior gets: one that it listens for, if it listens for any. */
  predicate GetsEvent(d: Mocked, l: nat, event: Option<Event>, pending: seq<Event>)
    requires l < |d.behaviors|
  {
    match d.behaviors[l].trigger
    case OnClock(_) => event.None?
    case OnEvent(kind, path) => event.Some? && event.value in pending && Wanted(event.value, kind, path, d.path)
  }

  /** A datapoint's turn: the first behavior that can run is run, those before it are watched if
      their condition holds, and nothing else changes. */
  ghost predicate TurnOf(d: Mocked, d': Mocked, ran: seq<Ran>, delta: real, pending: seq<Event>, news: seq<(string, Value)>) {
    var n := |d.behaviors|;
    && d'.path == d.path && d'.discrete == d.discrete && |d'.behaviors| == n
    && |ran| <= 1 && (ran != [] ==> ran[0].behavior < n)
    && var stop := if ran == [] then n else ran[0].behavior;
       && (forall l :: 0 <= l < stop ==> !CanRun(d, l, delta, pending))
       && (forall l :: 0 <= l < n ==> d'.behaviors[l].condition == d.behaviors[l].condition)
       && (forall l :: 0 <= l < n && l <= stop && d.behaviors[l].condition(Context(d.path, pending, delta)) ==>
             Watched(d.behaviors[l].trigger, d'.behaviors[l].trigger, d.path, delta))
       && (forall l :: 0 <= l < n && (stop < l || !d.behaviors[l].condition(Context(d.path, pending, delta))) ==>
             d'.behaviors[l].trigger == d.behaviors[l].trigger)
       && (forall l :: 0 <= l < n && l != stop ==> d'.behaviors[l].action == d.behaviors[l].action)
       && if ran == [] then d'.value == d.value && news == []
          else CanRun(d, stop, delta, pending) && GetsEvent(d, stop, ran[0].event, pending) && Acted(d, stop, ran[0].event, d', news)
  }

  lemma {:induction false} SkippedIs(d: Mocked, n: nat, delta: real, pending: seq<Event>)
    requires n <= |d.behaviors|
    ensures var d' := Skipped(d, n, delta, pending);
            && d'.value == d.value
            && forall l :: 0 <= l < |d.behaviors| ==>
                 && d'.behaviors[l].condition == d.behaviors[l].condition && d'.behaviors[l].action == d.behaviors[l].action
                 && if l < n && d.behaviors[l].condition(Context(d.path, pending, delta))
                    then Watched(d.behaviors[l].trigger, d'.behaviors[l].trigger, d.path, delta)
                    else d'.behaviors[l].trigger == d.behaviors[l].trigger
  {
    if n > 0 {
      SkippedIs(d, n - 1, delta, pending);
    }
  }

  lemma ReadyIs(d: Mocked, l: nat, delta: real, pending: seq<Event>)
    requires l < |d.behaviors|
    ensures Ready(d, l, delta, pending) <==> CanRun(d, l, delta, pending)
  {
    match d.behaviors[l].trigger
    case OnClock(clock) =>
    case OnEvent(kind, path) =>
      forall e ensures Matches(e, Key(kind), BoundPath(path, d.path)) <==> Wanted(e, kind, path, d.path) {}
  }

  lemma NoneReadyIs(d: Mocked, n: nat, delta: real, pending: seq<Event>)
    requires n <= |d.behaviors| && NoneReady(d, n, delta, pending)
    ensures forall l :: 0 <= l < n ==> !CanRun(d, l, delta, pending)
  {
    forall l | 0 <= l < n
      ensures !CanRun(d, l, delta, pending)
    {
      ReadyIs(d, l, delta, pending);
    }
  }

  /** A turn that ran nothing, in these terms, ... */
  lemma IdleTurn(i: nat, d: Mocked, d': Mocked, delta: real, before: seq<Event>)
    requires Attempted(i, d, d', [], delta, before)
    ensures TurnOf(d, d', [], delta, before, [])
  {
    NoneReadyIs(d, |d.behaviors|, delta, before);
    SkippedIs(d, |d.behaviors|, delta, before);
  }

  /** ... and one that ran a behavior. */
  lemma RunTurn(i: nat, d: Mocked, d': Mocked, r: Ran, delta: real, before: seq<Event>, after: seq<Event>, echoes: seq<Event>, news: seq<(string, Value)>)
    requires Attempted(i, d, d', [r], delta, before) && Accounted(before, after, Received([r]), echoes)
    requires |d'.behaviors| == |d.behaviors| && Acted(d, r.behavior, r.event, d', news)
    ensures TurnOf(d, d', [r], delta, before, news)
  {
    var skipped := Skipped(d, r.behavior, delta, before);
    NoneReadyIs(d, r.behavior, delta, before);
    ReadyIs(d, r.behavior, delta, before);
    SkippedIs(d, r.behavior, delta, before);
    TriedIs(skipped, r.behavior, delta, before, [r]);
    OneRan(r);
    EventWasPending(before, after, r.event, echoes);
    TriggeredIs(d, r, delta, before);
  }

  lemma TriggeredIs(d: Mocked, r: Ran, delta: real, pending: seq<Event>)
    requires Triggered(d, r, delta) && (r.event.Some? ==> r.event.value in pending)
    ensures GetsEvent(d, r.behavior, r.event, pending)
  {}

  lemma EventWasPending(before: seq<Event>, after: seq<Event>, event: Option<Event>, echoes: seq<Event>)
    requires Accounted(before, after, AsSeq(event), echoes)
    ensures event.Some? ==> event.value in before
  {
    if event.Some? {
      assert event.value in multiset(AsSeq(event));
      assert event.value in multiset(before);
    }
  }

  /** What trying a behavior that runs does to the triggers and to the other behaviors. */
  lemma TriedIs(d: Mocked, j: nat, delta: real, pending: seq<Event>, ran: seq<Ran>)
    requires j < |d.behaviors| && ran != [] && d.behaviors[j].condition(Context(d.path, pending, delta))
    ensures var d' := Tried(d, j, delta, pending, ran);
            && d'.path == d.path && d'.discrete == d.discrete && |d'.behaviors| == |d.behaviors|
            && d'.behaviors[j].condition == d.behaviors[j].condition
            && Watched(d.behaviors[j].trigger, d'.behaviors[j].trigger, d.path, delta)
            && forall l :: 0 <= l < |d.behaviors| && l != j ==> d'.behaviors[l] == d.behaviors[l]
  {}

  function AllFed(turns: seq<Turn>): seq<(string, Value)> {
    if turns == [] then [] else AllFed(turns[..|turns| - 1]) + turns[|turns| - 1].fed
  }

  /** Each of the first datapoints has had its turn. */
  ghost predicate Turns(was: seq<Mocked>, now: seq<Mocked>, turns: seq<Turn>, delta: real) {
    && |turns| <= |was| == |now|
    && forall k :: 0 <= k < |turns| ==> TurnOf(was[k], now[k], turns[k].ran, delta, turns[k].before, turns[k].fed)
  }

  lemma TurnsOf(was: seq<Mocked>, now: seq<Mocked>, turns: seq<Turn>, delta: real, start: seq<Event>, end: seq<Event>)
    requires Attempts(was, now, turns, delta) && Chained(start, turns, end)
    ensures Turns(was, now, turns, delta)
  {
    forall k | 0 <= k < |turns|
      ensures TurnOf(was[k], now[k], turns[k].ran, delta, turns[k].before, turns[k].fed)
    {
      assert Linked(start, turns, k);
      OneTurn(k, was[k], now[k], turns[k], delta);
    }
  }

  lemma OneTurn(k: nat, d: Mocked, d': Mocked, t: Turn, delta: real)
    requires Came(k, d, d', t.ran, delta, t.before, t.fed) && Accounted(t.before, t.after, Received(t.ran), t.echoes)
    ensures TurnOf(d, d', t.ran, delta, t.before, t.fed)
  {
    if t.ran == [] {
      IdleTurn(k, d, d', delta, t.before);
    } else {
      RunTurn(k, d, d', t.ran[0], delta, t.before, t.after, t.echoes, t.fed);
    }
  }

  /** The values fed from `f0` to `f` are those of the turns. */
  ghost predicate FedBy(f0: seq<(string, Value)>, f: seq<(string, Value)>, turns: seq<Turn>) {
    f == f0 + AllFed(turns)
  }

  lemma FedByThen(f0: seq<(string, Value)>, f: seq<(string, Value)>, f': seq<(string, Value)>, turns: seq<Turn>, t: Turn)
    requires FedBy(f0, f, turns) && f <= f' && t.fed == f'[|f|..]
    ensures FedBy(f0, f', turns + [t])
  {
    assert (turns + [t])[..|turns|] == turns;
    assert f' == f + t.fed;
  }

  // ----- what ticking the animators does -----

  /** The value that the first `n` animators leave: that of the last one that plays on this
      datapoint. */
  function LastShown(d: Mocked, n: nat, delta: real): Value
    requires n <= |d.behaviors| && 0.0 <= delta
  {
    if n == 0 then d.value
    else if Animates(d.behaviors[n - 1]) && d.behaviors[n - 1].action.animator.value.live && !d.behaviors[n - 1].action.animator.value.anim.done
    then Num(A.Tick(d.behaviors[n - 1].action.animator.value.anim, delta).value)
    else LastShown(d, n - 1, delta)
  }

  /** An animator has advanced by one tick, unless it was done. */
  ghost predicate Ticked(b: Behavior, b': Behavior, delta: real)
    requires Animates(b) && 0.0 <= delta
  {
    && b'.trigger == b.trigger && b'.condition == b.condition && Animates(b')
    && var p, p' := b.action.animator.value, b'.action.animator.value;
       p'.live == p.live && p'.anim == if p.anim.done then p.anim else A.Tick(p.anim, delta)
  }

  lemma AnimatedIs(d: Mocked, j: nat, delta: real)
    requires j < |d.behaviors| && Animates(d.behaviors[j]) && 0.0 <= delta
    ensures var d' := Animated(d, j, delta);
            && |d'.behaviors| == |d.behaviors| && Ticked(d.behaviors[j], d'.behaviors[j], delta)
            && forall l :: 0 <= l < |d.behaviors| && l != j ==> d'.behaviors[l] == d.behaviors[l]
  {}

  lemma AnimatedShows(d: Mocked, j: nat, delta: real)
    requires j < |d.behaviors| && Animates(d.behaviors[j]) && 0.0 <= delta
    ensures var p := d.behaviors[j].action.animator.value;
            Animated(d, j, delta).value == if p.live && !p.anim.done then Num(A.Tick(p.anim, delta).value) else d.value
  {}

  /** Each animator that is not done has advanced by one tick, whatever the others did, and the
      last one that plays has left its value. */
  lemma {:induction false} PlayedIs(d: Mocked, n: nat, delta: real)
    requires n <= |d.behaviors| && 0.0 <= delta
    ensures var d' := Played(d, n, delta);
            && d'.value == LastShown(d, n, delta)
            && (forall l :: 0 <= l < |d.behaviors| && (l >= n || !Animates(d.behaviors[l])) ==> d'.behaviors[l] == d.behaviors[l])
            && (forall l :: 0 <= l < n && Animates(d.behaviors[l]) ==> Ticked(d.behaviors[l], d'.behaviors[l], delta))
  {
    if n > 0 {
      PlayedIs(d, n - 1, delta);
      var before := Played(d, n - 1, delta);
      if Animates(before.behaviors[n - 1]) {
        AnimatedIs(before, n - 1, delta);
        AnimatedShows(before, n - 1, delta);
      }
    }
  }

  /** Between the executor and the animators. */
  datatype Middle = Middle(datapoints: seq<Mocked>, pending: seq<Event>, fed: seq<(string, Value)>)

  /** All animators were ticked, `ok` exactly if no animation action lacked its animator. */
  ghost predicate PlayedAll(was: seq<Mocked>, now: seq<Mocked>, ok: bool, delta: real)
    requires 0.0 <= delta
  {
    && (ok <==> forall k :: 0 <= k < |was| ==> AllLoaded(was[k], |was[k].behaviors|))
    && (ok ==> |now| == |was| && forall k :: 0 <= k < |was| ==> now[k] == Played(was[k], |was[k].behaviors|, delta))
  }

  class MockService {
    var pending: seq<Event>
    var datapoints: seq<Mocked>
    var fed: seq<(string, Value)>  // values set in the broker

    /** _set_datapoint: feed the broker, then drop the echo of an own update. */
    method SetDatapoint(path: string, value: Value) returns (echoes: seq<Event>)
      modifies this`pending, this`fed
      ensures fed == old(fed) + [(path, value)]
      ensures Accounted(old(pending), pending, [], echoes)
      ensures EchoesOf(echoes, old(fed), fed) && forall e :: e in echoes ==> Matches(e, "value", path)
      ensures echoes == [] ==> pending == old(pending) && forall e :: e in pending ==> !Matches(e, "value", path)
    {
      fed := fed + [(path, value)];
      assert fed[|old(fed)|].0 == path;
      var taken, rest := TakeMatching(pending, "value", path);
      pending := rest;
      echoes := AsSeq(taken);
    }

    /** DataPoint.set_value on the i-th datapoint: only a change reaches the broker. */
    method SetValue(i: nat, value: Value) returns (echoes: seq<Event>)
      requires i < |datapoints|
      modifies this
      ensures datapoints == old(datapoints)[i := old(datapoints)[i].(value := value)]
      ensures Accounted(old(pending), pending, [], echoes)
      ensures fed == if old(datapoints)[i].value == value then old(fed) else old(fed) + [(old(datapoints)[i].path, value)]
      ensures EchoesOf(echoes, old(fed), fed)
      ensures old(datapoints)[i].value == value ==> echoes == [] && pending == old(pending)
    {
      echoes := [];
      if datapoints[i].value != value {
        datapoints := datapoints[i := datapoints[i].(value := value)];
        echoes := SetDatapoint(datapoints[i].path, value);
      }
    }

    method CheckTrigger(i: nat, j: nat, delta: real) returns (active: bool, event: Option<Event>)
      requires i < |datapoints| && j < |datapoints[i].behaviors|
      modifies this`pending, this`datapoints
      ensures |datapoints| == |old(datapoints)| && datapoints == old(datapoints)[i := datapoints[i]]
      ensures datapoints[i] == AfterCheck(old(datapoints)[i], j, delta)
      ensures Accounted(old(pending), pending, AsSeq(event), [])
      ensures active ==> Triggered(old(datapoints)[i], Ran(i, j, event), delta)
      ensures active == Fires(old(datapoints)[i], j, delta, old(pending))
      ensures !active ==> event.None? && pending == old(pending)
    {
      var d := datapoints[i];
      match d.behaviors[j].trigger {
        case OnClock(clock) =>
          active, event := T.Fires(clock, delta), None;
          datapoints := datapoints[i := WithTrigger(d, j, OnClock(T.Checked(clock, delta)))];
        case OnEvent(kind, path) =>
          var bound := BoundPath(path, d.path);
          var rest;
          event, rest := TakeMatching(pending, Key(kind), bound);
          pending := rest;
          active := event.Some?;
          datapoints := datapoints[i := WithTrigger(d, j, OnEvent(kind, Some(bound)))];
      }
    }

    method RunAction(i: nat, j: nat, event: Option<Event>) returns (echoes: seq<Event>)
      requires i < |datapoints| && j < |datapoints[i].behaviors|
      modifies this
      ensures |datapoints| == |old(datapoints)| && datapoints == old(datapoints)[i := datapoints[i]]
      ensures datapoints[i] == Performed(old(datapoints)[i], j, event)
      ensures |datapoints[i].behaviors| == |old(datapoints)[i].behaviors| && old(fed) <= fed
      ensures Acted(old(datapoints)[i], j, event, datapoints[i], fed[|old(fed)|..])
      ensures Accounted(old(pending), pending, [], echoes)
      ensures EchoesOf(echoes, old(fed), fed)
    {
      echoes := [];
      var d := datapoints[i];
      match d.behaviors[j].action {
        case SetAction(resolve) =>
          var value := resolve(event, d.value);
          if value.Some? {
            echoes := SetValue(i, value.value);
          }
        case AnimationAction(start, _) =>
          if !d.discrete {
            var action := AnimationAction(start, Some(Playing(start(event, d.value), true)));
            datapoints := datapoints[i := WithAction(d, j, action)];
          }
      }
    }

    /** One behavior: if its condition holds and its trigger is active, its action runs. */
    method TryBehavior(i: nat, j: nat, delta: real) returns (ran: seq<Ran>, echoes: seq<Event>)
      requires i < |datapoints| && j < |datapoints[i].behaviors|
      modifies this
      ensures |datapoints| == |old(datapoints)| && datapoints == old(datapoints)[i := datapoints[i]]
      ensures TriedOne(i, old(datapoints)[i], j, datapoints[i], ran, delta, old(pending))
      ensures Accounted(old(pending), pending, Received(ran), echoes)
      ensures ran == [] ==> pending == old(pending) && echoes == [] && fed == old(fed)
      ensures |datapoints[i].behaviors| == |old(datapoints)[i].behaviors| && old(fed) <= fed
      ensures ran != [] ==> Acted(old(datapoints)[i], j, ran[0].event, datapoints[i], fed[|old(fed)|..])
      ensures EchoesOf(echoes, old(fed), fed)
    {
      ran, echoes := [], [];
      var d := datapoints[i];
      if d.behaviors[j].condition(Context(d.path, pending, delta)) {
        var active, event := CheckTrigger(i, j, delta);
        if active {
          ghost var checked, mid := pending, datapoints;
          echoes := RunAction(i, j, event);
          OnlyThere(old(datapoints), mid, datapoints, i);
          ran := [Ran(i, j, event)];
          TriedRan(i, d, j, datapoints[i], event, delta, old(pending), fed[|old(fed)|..]);
          OneRan(ran[0]);
          ConsumedThenEchoed(old(pending), checked, pending, AsSeq(event), echoes);
        } else {
          TriedInVain(i, d, j, datapoints[i], delta, old(pending));
        }
      } else {
        TriedNothing(i, d, j, delta, old(pending));
      }
    }

    /** The behaviors of one datapoint in turn, until one runs: the first that is ready. */
    method RunDatapoint(i: nat, delta: real) returns (ran: seq<Ran>, echoes: seq<Event>)
      requires i < |datapoints|
      modifies this
      ensures |datapoints| == |old(datapoints)| && datapoints == old(datapoints)[i := datapoints[i]]
      ensures old(fed) <= fed && Came(i, old(datapoints)[i], datapoints[i], ran, delta, old(pending), fed[|old(fed)|..])
      ensures Accounted(old(pending), pending, Received(ran), echoes)
      ensures EchoesOf(echoes, old(fed), fed)
    {
      ran, echoes := [], [];
      var j := 0;
      while j < |datapoints[i].behaviors|
        invariant |datapoints| == |old(datapoints)| && j <= |old(datapoints)[i].behaviors|
        invariant datapoints == old(datapoints)[i := Skipped(old(datapoints)[i], j, delta, old(pending))]
        invariant NoneReady(old(datapoints)[i], j, delta, old(pending))
        invariant ran == [] && echoes == [] && pending == old(pending) && fed == old(fed)
        decreases |old(datapoints)[i].behaviors| - j
      {
        ghost var mid := datapoints;
        ran, echoes := TryBehavior(i, j, delta);
        OnlyThere(old(datapoints), mid, datapoints, i);
        TryNext(i, old(datapoints)[i], j, datapoints[i], ran, delta, old(pending));
        if ran != [] {
          ActedAfterSkips(old(datapoints)[i], j, delta, old(pending), ran[0].event, datapoints[i], fed[|old(fed)|..]);
          return;
        }
        j := j + 1;
      }
    }

    /** BehaviorExecutor.execute: every datapoint in its turn runs its first ready behavior, if any.
        Each consumed event went to exactly one executed action, whose trigger it matches. */
    method Execute(delta: real) returns (ran: seq<Ran>, echoes: seq<Event>, ghost turns: seq<Turn>)
      modifies this
      ensures |turns| == |datapoints| && ran == AllRan(turns)
      ensures Attempts(old(datapoints), datapoints, turns, delta)
      ensures Turns(old(datapoints), datapoints, turns, delta) && FedBy(old(fed), fed, turns)
      ensures Chained(old(pending), turns, pending)
      ensures Executed(old(datapoints), datapoints, |datapoints|, ran, delta)
      ensures Accounted(old(pending), pending, Received(ran), echoes)
      ensures EchoesOf(echoes, old(fed), fed)
    {
      ran, echoes, turns := [], [], [];
      var i := 0;
      while i < |datapoints|
        invariant |turns| == i && ran == AllRan(turns) && FedBy(old(fed), fed, turns)
        invariant Attempts(old(datapoints), datapoints, turns, delta)
        invariant Chained(old(pending), turns, pending)
        invariant Executed(old(datapoints), datapoints, i, ran, delta)
        invariant Accounted(old(pending), pending, Received(ran), echoes)
        invariant EchoesOf(echoes, old(fed), fed)
        decreases |old(datapoints)| - i
      {
        ghost var mid, before, fedBefore := datapoints, pending, fed;
        var more, moreEchoes := RunDatapoint(i, delta);
        ghost var turn := Turn(before, more, moreEchoes, pending, fed[|fedBefore|..]);
        ExecutedThen(old(datapoints), mid, datapoints, i, ran, more, delta, before);
        AttemptsThen(old(datapoints), mid, datapoints, turns, turn, delta);
        ChainedThen(old(pending), turns, before, turn);
        FedByThen(old(fed), fedBefore, fed, turns, turn);
        AccountedThen(old(pending), before, pending, Received(ran), echoes, Received(more), moreEchoes);
        EchoesThen(old(fed), fedBefore, fed, echoes, moreEchoes);
        ReceivedConcat(ran, more);
        ran, echoes, turns := ran + more, echoes + moreEchoes, turns + [turn];
        i := i + 1;
      }
      TurnsOf(old(datapoints), datapoints, turns, delta, old(pending), pending);
    }

    /** One animator of the main loop. */
    method TickAnimation(i: nat, j: nat, delta: real) returns (echoes: seq<Event>)
      requires i < |datapoints| && j < |datapoints[i].behaviors| && 0.0 <= delta
      requires datapoints[i].behaviors[j].action.AnimationAction? && datapoints[i].behaviors[j].action.animator.Some?
      modifies this
      ensures datapoints == old(datapoints)[i := Animated(old(datapoints)[i], j, delta)]
      ensures var d, p := old(datapoints)[i], old(datapoints)[i].behaviors[j].action.animator.value;
              fed == old(fed) + if p.live && !p.anim.done && d.value != Num(A.Tick(p.anim, delta).value)
                                then [(d.path, Num(A.Tick(p.anim, delta).value))] else []
      ensures SameShape(datapoints, old(datapoints))
      ensures Accounted(old(pending), pending, [], echoes) && EchoesOf(echoes, old(fed), fed)
    {
      echoes := [];
      var d := datapoints[i];
      var action := d.behaviors[j].action;
      var playing := action.animator.value;
      if !playing.anim.done {
        var anim := A.Tick(playing.anim, delta);
        var ticked := action.(animator := Some(playing.(anim := anim)));
        datapoints := datapoints[i := WithAction(d, j, ticked)];
        if playing.live {
          echoes := SetValue(i, Num(anim.value));
        }
      }
    }

    /** The animators of one datapoint; an animation action without an animator (one on a
        bool or string datapoint) makes the source raise. */
    method TickDatapoint(i: nat, delta: real) returns (ok: bool, echoes: seq<Event>)
      requires i < |datapoints| && 0.0 <= delta
      modifies this
      ensures SameShape(datapoints, old(datapoints))
      ensures ok == AllLoaded(old(datapoints)[i], |datapoints[i].behaviors|)
      ensures forall k :: 0 <= k < |datapoints| && k != i ==> datapoints[k] == old(datapoints)[k]
      ensures ok ==> datapoints[i] == Played(old(datapoints)[i], |datapoints[i].behaviors|, delta)
      ensures Accounted(old(pending), pending, [], echoes) && EchoesOf(echoes, old(fed), fed)
    {
      ok, echoes := true, [];
      var j := 0;
      while j < |datapoints[i].behaviors|
        invariant SameShape(datapoints, old(datapoints)) && j <= |datapoints[i].behaviors| && ok
        invariant forall k :: 0 <= k < |datapoints| && k != i ==> datapoints[k] == old(datapoints)[k]
        invariant datapoints[i] == Played(old(datapoints)[i], j, delta) && AllLoaded(old(datapoints)[i], j)
        invariant Accounted(old(pending), pending, [], echoes) && EchoesOf(echoes, old(fed), fed)
        decreases |datapoints[i].behaviors| - j
      {
        var action := datapoints[i].behaviors[j].action;
        if action.AnimationAction? {
          if action.animator.None? {
            return false, echoes;
          }
          ghost var before, fedBefore := pending, fed;
          var more := TickAnimation(i, j, delta);
          AccountedThen(old(pending), before, pending, [], echoes, [], more);
          EchoesThen(old(fed), fedBefore, fed, echoes, more);
          echoes := echoes + more;
        }
        j := j + 1;
      }
    }

    method TickAnimators(delta: real) returns (ok: bool, echoes: seq<Event>)
      requires 0.0 <= delta
      modifies this
      ensures SameShape(datapoints, old(datapoints))
      ensures PlayedAll(old(datapoints), datapoints, ok, delta)
      ensures Accounted(old(pending), pending, [], echoes) && EchoesOf(echoes, old(fed), fed)
    {
      ok, echoes := true, [];
      var i := 0;
      while ok && i < |datapoints|
        invariant i <= |datapoints| && SameShape(datapoints, old(datapoints))
        invariant ok <==> forall k :: 0 <= k < i ==> AllLoaded(old(datapoints)[k], |old(datapoints)[k].behaviors|)
        invariant forall k :: i <= k < |datapoints| ==> datapoints[k] == old(datapoints)[k]
        invariant ok ==> forall k :: 0 <= k < i ==>
                    datapoints[k] == Played(old(datapoints)[k], |old(datapoints)[k].behaviors|, delta)
        invariant Accounted(old(pending), pending, [], echoes) && EchoesOf(echoes, old(fed), fed)
        decreases |datapoints| - i, ok
      {
        ghost var before, fedBefore := pending, fed;
        var more;
        ok, more := TickDatapoint(i, delta);
        AccountedThen(old(pending), before, pending, [], echoes, [], more);
        EchoesThen(old(fed), fedBefore, fed, echoes, more);
        echoes := echoes + more;
        i := i + 1;
      }
    }

    /** One turn of main_loop: the executor, then the animators. Conservation: the events pending
        before are those pending after, those that executed actions received, and those removed
        as echoes of own updates. */
    method MainTurn(delta: real) returns (ok: bool, ran: seq<Ran>, echoes: seq<Event>, ghost turns: seq<Turn>, ghost mid: Middle)
      requires 0.0 <= delta
      modifies this
      ensures SameShape(datapoints, old(datapoints)) && Listed(old(datapoints), |datapoints|, ran, delta)
      ensures |turns| == |datapoints| && ran == AllRan(turns)
      ensures Attempts(old(datapoints), mid.datapoints, turns, delta) && Chained(old(pending), turns, mid.pending)
      ensures Turns(old(datapoints), mid.datapoints, turns, delta) && FedBy(old(fed), mid.fed, turns) && mid.fed <= fed
      ensures PlayedAll(mid.datapoints, datapoints, ok, delta)
      ensures multiset(old(pending)) == multiset(pending) + multiset(Received(ran)) + multiset(echoes)
      ensures EchoesOf(echoes, old(fed), fed)
    {
      ran, echoes, turns := Execute(delta);
      mid := Middle(datapoints, pending, fed);
      var more;
      ok, more := TickAnimators(delta);
      SameShapeThen(datapoints, mid.datapoints, old(datapoints));
      EchoedMore(old(pending), mid.pending, pending, Received(ran), echoes, more);
      EchoesThen(old(fed), mid.fed, fed, echoes, more);
      echoes := echoes + more;
    }
  }

  lemma EchoedMore(a: seq<Event>, b: seq<Event>, c: seq<Event>, consumed: seq<Event>, echoes: seq<Event>, more: seq<Event>)
    requires Accounted(a, b, consumed, echoes) && Accounted(b, c, [], more)
    ensures Accounted(a, c, consumed, echoes + more)
  {}

  lemma ConsumedThenEchoed(a: seq<Event>, b: seq<Event>, c: seq<Event>, consumed: seq<Event>, echoes: seq<Event>)
    requires Accounted(a, b, consumed, []) && Accounted(b, c, [], echoes)
    ensures Accounted(a, c, consumed, echoes)
  {}

  lemma OneRan(r: Ran)
    ensures Received([r]) == AsSeq(r.event)
  {}

  lemma {:induction false} ReceivedConcat(a: seq<Ran>, b: seq<Ran>)
    ensures Received(a + b) == Received(a) + Received(b)
  {
    if b == [] {
      assert a + b == a;
    } else {
      assert (a + b)[..|a + b| - 1] == a + b[..|b| - 1];
      ReceivedConcat(a, b[..|b| - 1]);
    }
  }
}
