/** ValueAnimator of mock_service/lib/animator.py, over the reals. */
module Animator {
  import opened Elapsed

  datatype RepeatMode = ONCE | REPEAT

  /** An animation under way: its configuration, the animation time and the current value. */
  datatype Anim = Anim(values: seq<real>, duration: real, mode: RepeatMode, time: real, done: bool, value: real)

  predicate Valid(a: Anim) {
    |a.values| >= 2 && a.duration > 0.0 && 0.0 <= a.time
  }

  /** The linear interpolation through values placed at equal distances over [0, duration],
      constant outside. */
  function Interpolate(values: seq<real>, duration: real, t: real): real
    requires |values| >= 2 && duration > 0.0
  {
    if t < 0.0 then values[0]
    else if t > duration then values[|values| - 1]
    else
      var u := Knots(values, duration, t);
      var lo := Segment(values, u);
      values[lo] + (u - lo as real) * (values[lo + 1] - values[lo])
  }

  /** Time in units of the distance between two values. */
  function Knots(values: seq<real>, duration: real, t: real): (u: real)
    requires |values| >= 2 && duration > 0.0 && 0.0 <= t <= duration
    ensures 0.0 <= u <= (|values| - 1) as real
  {
    Scaled(t, duration, (|values| - 1) as real);
    t / duration * (|values| - 1) as real
  }

  lemma Scaled(t: real, d: real, n: real)
    requires d > 0.0 && 0.0 <= t <= d && n >= 0.0
    ensures 0.0 <= t / d <= 1.0
    ensures 0.0 <= t / d * n <= n
  {}

  lemma Shrinks(f: real, n: real)
    requires 0.0 <= f <= 1.0 && n >= 0.0
    ensures 0.0 <= f * n <= n
  {}

  function Segment(values: seq<real>, u: real): (lo: nat)
    requires |values| >= 2 && 0.0 <= u <= (|values| - 1) as real
    ensures lo + 1 < |values| && 0.0 <= u - lo as real <= 1.0
  {
    if u.Floor < |values| - 1 then u.Floor else |values| - 2
  }

  predicate Bounded(values: seq<real>, lo: real, hi: real) {
    forall i :: 0 <= i < |values| ==> lo <= values[i] <= hi
  }

  lemma Between(a: real, b: real, f: real, lo: real, hi: real)
    requires 0.0 <= f <= 1.0 && lo <= a <= hi && lo <= b <= hi
    ensures lo <= a + f * (b - a) <= hi
  {
    Shrinks(f, b - lo);
    Shrinks(1.0 - f, a - lo);
    assert (1.0 - f) * (a - lo) + f * (b - lo) == a + f * (b - a) - lo;
    Shrinks(f, hi - b);
    Shrinks(1.0 - f, hi - a);
    assert (1.0 - f) * (hi - a) + f * (hi - b) == hi - (a + f * (b - a));
  }

  /** The interpolation never leaves the range of its values. */
  lemma InterpolateBounded(values: seq<real>, duration: real, t: real, lo: real, hi: real)
    requires |values| >= 2 && duration > 0.0 && Bounded(values, lo, hi)
    ensures lo <= Interpolate(values, duration, t) <= hi
  {
    if 0.0 <= t <= duration {
      var u := Knots(values, duration, t);
      var i := Segment(values, u);
      Between(values[i], values[i + 1], u - i as real, lo, hi);
    }
  }

  /** Time in knots, as a single quotient. */
  lemma KnotsAre(values: seq<real>, duration: real, t: real)
    requires |values| >= 2 && duration > 0.0 && 0.0 <= t <= duration
    ensures Knots(values, duration, t) == t * (|values| - 1) as real / duration
    ensures Knots(values, duration, t) * duration == t * (|values| - 1) as real
  {
    var n := (|values| - 1) as real;
    assert t / duration * duration == t;
    assert t / duration * n * duration == t / duration * duration * n;
  }

  lemma AtMost(x: real, y: real, d: real)
    requires d > 0.0 && x * d <= y * d
    ensures x <= y
  {
    assert (y - x) * d == y * d - x * d;
    assert y - x < 0.0 ==> (y - x) * d < 0.0;
  }

  lemma Bracket(lo: real, u: real, hi: real, d: real, m: real)
    requires d > 0.0 && u * d == m && lo * d <= m <= hi * d
    ensures lo <= u <= hi
  {
    AtMost(lo, u, d);
    AtMost(u, hi, d);
  }

  lemma Cancels(u: real, d: real, x: real)
    requires d > 0.0
    ensures u * d == x * d ==> u == x
    ensures u * d <= x * d ==> u <= x
    ensures x * d <= u * d ==> x <= u
  {
    assert (u - x) * d == u * d - x * d;
    assert u > x ==> (u - x) * d > 0.0;
    assert u < x ==> (x - u) * d > 0.0;
  }

  /** It passes through its values, which are spread evenly over the duration: the i-th of n
      values is taken at i / (n - 1) of it. */
  lemma InterpolateAtKnot(values: seq<real>, duration: real, t: real, i: nat)
    requires |values| >= 2 && duration > 0.0 && i < |values|
    requires t * (|values| - 1) as real == i as real * duration
    ensures Interpolate(values, duration, t) == values[i]
  {
    WithinDuration(values, duration, t, i);
    KnotsAre(values, duration, t);
    Bracket(i as real, Knots(values, duration, t), i as real, duration, t * (|values| - 1) as real);
    OnKnot(values, duration, t, i);
  }

  lemma OnKnot(values: seq<real>, duration: real, t: real, i: nat)
    requires |values| >= 2 && duration > 0.0 && i < |values| && 0.0 <= t <= duration && Knots(values, duration, t) == i as real
    ensures Interpolate(values, duration, t) == values[i]
  {}

  /** The i-th knot is not outside the duration. */
  lemma WithinDuration(values: seq<real>, duration: real, t: real, i: nat)
    requires |values| >= 2 && duration > 0.0 && i < |values|
    requires t * (|values| - 1) as real == i as real * duration
    ensures 0.0 <= t <= duration
  {
    var n := (|values| - 1) as real;
    assert i as real * duration >= 0.0;
    Cancels(i as real, duration, n);
    assert i as real * duration <= n * duration by { assert (n - i as real) * duration >= 0.0; }
    Cancels(t, n, 0.0);
    Cancels(t, n, duration);
  }

  /** And it is straight between two neighbours. */
  lemma InterpolateStraight(values: seq<real>, duration: real, t: real, i: nat)
    requires |values| >= 2 && duration > 0.0 && i + 1 < |values| && 0.0 <= t <= duration
    requires i as real * duration <= t * (|values| - 1) as real <= (i + 1) as real * duration
    ensures Interpolate(values, duration, t) ==
            values[i] + (t * (|values| - 1) as real / duration - i as real) * (values[i + 1] - values[i])
  {
    KnotsAre(values, duration, t);
    Bracket(i as real, Knots(values, duration, t), (i + 1) as real, duration, t * (|values| - 1) as real);
    StraightBetween(values, duration, t, i);
  }

  lemma StraightBetween(values: seq<real>, duration: real, t: real, i: nat)
    requires |values| >= 2 && duration > 0.0 && i + 1 < |values| && 0.0 <= t <= duration
    requires i as real <= Knots(values, duration, t) <= (i + 1) as real
    ensures Interpolate(values, duration, t) ==
            values[i] + (Knots(values, duration, t) - i as real) * (values[i + 1] - values[i])
  {
    var u := Knots(values, duration, t);
    if u == (i + 1) as real {
      assert u - i as real == 1.0;
      assert i + 2 < |values| ==> Segment(values, u) == i + 1;
    }
  }

  /** It starts with the first value, ends with the last, and stays there. */
  lemma InterpolateEnds(values: seq<real>, duration: real)
    requires |values| >= 2 && duration > 0.0
    ensures Interpolate(values, duration, 0.0) == values[0]
    ensures Interpolate(values, duration, duration) == values[|values| - 1]
    ensures forall t :: t > duration ==> Interpolate(values, duration, t) == values[|values| - 1]
  {
    InterpolateAtKnot(values, duration, 0.0, 0);
    InterpolateAtKnot(values, duration, duration, |values| - 1);
  }

  // ----- ticks -----

  function Fresh(values: seq<real>, duration: real, mode: RepeatMode): Anim
    requires |values| >= 2
  {
    Anim(values, duration, mode, 0.0, false, values[0])
  }

  function Tick(a: Anim, delta: real): Anim
    requires Valid(a)
  {
    if a.done then a
    else
      var t := a.time + delta;
      var over := t > a.duration;
      var t' := if !over then t else if a.mode == ONCE then a.duration else t - a.duration;
      a.(time := t', done := over && a.mode == ONCE, value := Interpolate(a.values, a.duration, t'))
  }

  function Ticks(a: Anim, ds: seq<real>): (r: Anim)
    requires Valid(a) && NonNegative(ds)
    ensures Valid(r) && r.values == a.values && r.duration == a.duration && r.mode == a.mode
  {
    if ds == [] then a else Tick(Ticks(a, ds[..|ds| - 1]), ds[|ds| - 1])
  }

  function Min(x: real, y: real): real { if x < y then x else y }

  /** ONCE: only the total time counts, up to the duration, however it is split into ticks; the
      animation is done exactly when more than the duration has passed, and then holds the
      last value. */
  lemma {:induction false} OnceAfter(values: seq<real>, duration: real, ds: seq<real>)
    requires |values| >= 2 && duration > 0.0 && NonNegative(ds)
    ensures var a := Ticks(Fresh(values, duration, ONCE), ds);
            && a.time == Min(Sum(ds), duration)
            && a.value == Interpolate(values, duration, Min(Sum(ds), duration))
            && (a.done <==> Sum(ds) > duration)
            && (a.done ==> a.value == values[|values| - 1])
  {
    InterpolateEnds(values, duration);
    if ds != [] {
      OnceAfter(values, duration, ds[..|ds| - 1]);
    }
  }

  /** The value is the one for the animation time, in either mode. */
  lemma {:induction false} ValueAt(values: seq<real>, duration: real, mode: RepeatMode, ds: seq<real>)
    requires |values| >= 2 && duration > 0.0 && NonNegative(ds)
    ensures var a := Ticks(Fresh(values, duration, mode), ds); a.value == Interpolate(values, duration, a.time)
  {
    if ds == [] {
      InterpolateEnds(values, duration);
    } else {
      ValueAt(values, duration, mode, ds[..|ds| - 1]);
    }
  }

  lemma RepeatTick(a: Anim, delta: real)
    requires Valid(a) && a.mode == REPEAT && !a.done && delta >= 0.0
    ensures var b := Tick(a, delta);
            !b.done && b.time == if a.time + delta > a.duration then a.time + delta - a.duration else a.time + delta
  {}

  lemma {:induction false} RepeatTime(values: seq<real>, duration: real, ds: seq<real>) returns (laps: nat)
    requires |values| >= 2 && duration > 0.0 && NonNegative(ds)
    ensures var a := Ticks(Fresh(values, duration, REPEAT), ds);
            && Sum(ds) == a.time + Multiple(laps, duration)
            && 0.0 <= a.time && (a.time == 0.0 <==> Sum(ds) == 0.0) && !a.done
  {
    if ds == [] {
      laps := 0;
    } else {
      var front, a := ds[..|ds| - 1], Ticks(Fresh(values, duration, REPEAT), ds[..|ds| - 1]);
      SumNonNegative(front);
      var before := RepeatTime(values, duration, front);
      RepeatTick(a, ds[|ds| - 1]);
      laps := if a.time + ds[|ds| - 1] > duration then before + 1 else before;
    }
  }

  /** REPEAT: for any ticks the animation time is the total time less a whole number of
      durations, and zero only if no time has passed. */
  lemma RepeatAfter(values: seq<real>, duration: real, ds: seq<real>) returns (laps: nat)
    requires |values| >= 2 && duration > 0.0 && NonNegative(ds)
    ensures var a := Ticks(Fresh(values, duration, REPEAT), ds);
            && Sum(ds) == a.time + Multiple(laps, duration)
            && 0.0 <= a.time && (a.time == 0.0 <==> Sum(ds) == 0.0)
            && a.value == Interpolate(values, duration, a.time) && !a.done
  {
    laps := RepeatTime(values, duration, ds);
    ValueAt(values, duration, REPEAT, ds);
  }

  /** The last of the ticks does not carry the animation past the end of its second lap. */
  predicate LastTickFits(values: seq<real>, duration: real, ds: seq<real>)
    requires |values| >= 2 && duration > 0.0 && NonNegative(ds)
  {
    ds == [] || Ticks(Fresh(values, duration, REPEAT), ds[..|ds| - 1]).time + ds[|ds| - 1] <= 2.0 * duration
  }

  /** REPEAT ends within the duration if and only if its last tick fits, whatever came before. */
  lemma RepeatReducedIff(values: seq<real>, duration: real, ds: seq<real>)
    requires |values| >= 2 && duration > 0.0 && NonNegative(ds)
    ensures Ticks(Fresh(values, duration, REPEAT), ds).time <= duration <==> LastTickFits(values, duration, ds)
  {
    if ds != [] {
      var _ := RepeatAfter(values, duration, ds[..|ds| - 1]);
    }
  }

  /** Ticks of at most the duration always fit. */
  lemma {:induction false} ShortTicksFit(values: seq<real>, duration: real, ds: seq<real>)
    requires |values| >= 2 && duration > 0.0 && NonNegative(ds)
    requires forall i :: 0 <= i < |ds| ==> ds[i] <= duration
    ensures LastTickFits(values, duration, ds)
  {
    if ds != [] {
      ShortTicksFit(values, duration, ds[..|ds| - 1]);
      RepeatReducedIff(values, duration, ds[..|ds| - 1]);
    }
  }

  lemma SameLap(d: real, t1: real, k1: nat, t2: real, k2: nat)
    requires d > 0.0 && 0.0 < t1 <= d && 0.0 < t2 <= d
    requires t1 + Multiple(k1, d) == t2 + Multiple(k2, d)
    ensures t1 == t2
  {
    if k1 > k2 {
      MultiplesApart(k2, k1, d);
    } else if k2 > k1 {
      MultiplesApart(k1, k2, d);
    }
  }

  /** Path independence of REPEAT and its exact condition: against ticks that end within the
      duration, another way of splitting the same time agrees, in time, value and all, if and
      only if its last tick fits. */
  lemma RepeatPathIndependentIff(values: seq<real>, duration: real, ds: seq<real>, es: seq<real>)
    requires |values| >= 2 && duration > 0.0 && NonNegative(ds) && NonNegative(es)
    requires Sum(ds) == Sum(es) && LastTickFits(values, duration, ds)
    ensures Ticks(Fresh(values, duration, REPEAT), ds) == Ticks(Fresh(values, duration, REPEAT), es)
            <==> LastTickFits(values, duration, es)
  {
    var k1 := RepeatAfter(values, duration, ds);
    var k2 := RepeatAfter(values, duration, es);
    RepeatReducedIff(values, duration, ds);
    RepeatReducedIff(values, duration, es);
    var a, b := Ticks(Fresh(values, duration, REPEAT), ds), Ticks(Fresh(values, duration, REPEAT), es);
    if 0.0 < b.time <= duration && a.time > 0.0 {
      SameLap(duration, a.time, k1, b.time, k2);
    }
  }

  /** So ticks of at most the duration make it path independent. */
  lemma RepeatPathIndependent(values: seq<real>, duration: real, ds: seq<real>, es: seq<real>)
    requires |values| >= 2 && duration > 0.0 && NonNegative(ds) && NonNegative(es)
    requires forall i :: 0 <= i < |ds| ==> ds[i] <= duration
    requires forall i :: 0 <= i < |es| ==> es[i] <= duration
    requires Sum(ds) == Sum(es)
    ensures Ticks(Fresh(values, duration, REPEAT), ds) == Ticks(Fresh(values, duration, REPEAT), es)
  {
    ShortTicksFit(values, duration, ds);
    ShortTicksFit(values, duration, es);
    RepeatPathIndependentIff(values, duration, ds, es);
  }

  /** A longer tick does make a difference: one second from 0 to 1, over 2.5 seconds. */
  lemma LongTickDiffers()
    ensures Sum([2.5]) == Sum([1.0, 1.0, 0.5])
    ensures Ticks(Fresh([0.0, 1.0], 1.0, REPEAT), [2.5]).value == 1.0
    ensures Ticks(Fresh([0.0, 1.0], 1.0, REPEAT), [1.0, 1.0, 0.5]).value == 0.5
  {
    OneLongTick();
    ThreeShortTicks();
    var _ := RepeatAfter([0.0, 1.0], 1.0, [2.5]);
    var _ := RepeatAfter([0.0, 1.0], 1.0, [1.0, 1.0, 0.5]);
    HalfWay();
  }

  lemma OneLongTick()
    ensures Sum([2.5]) == 2.5 && Ticks(Fresh([0.0, 1.0], 1.0, REPEAT), [2.5]).time == 1.5
  {
    TickMore(Fresh([0.0, 1.0], 1.0, REPEAT), [], 2.5);
  }

  lemma ThreeShortTicks()
    ensures Sum([1.0, 1.0, 0.5]) == 2.5 && Ticks(Fresh([0.0, 1.0], 1.0, REPEAT), [1.0, 1.0, 0.5]).time == 0.5
  {
    var a := Fresh([0.0, 1.0], 1.0, REPEAT);
    TickMore(a, [], 1.0);
    TickMore(a, [1.0], 1.0);
    TickMore(a, [1.0, 1.0], 0.5);
  }

  lemma HalfWay()
    ensures Interpolate([0.0, 1.0], 1.0, 0.5) == 0.5 && Interpolate([0.0, 1.0], 1.0, 1.5) == 1.0
  {
    assert Knots([0.0, 1.0], 1.0, 0.5) == 0.5;
  }

  lemma TickMore(a: Anim, ds: seq<real>, d: real)
    requires Valid(a) && NonNegative(ds) && d >= 0.0
    ensures Ticks(a, ds + [d]) == Tick(Ticks(a, ds), d) && Sum(ds + [d]) == Sum(ds) + d
  {
    assert (ds + [d])[..|ds|] == ds;
  }

  /** In either mode and for any ticks, even longer than the duration, the value stays within
      the bounds of the configured values. */
  lemma {:induction false} Hull(values: seq<real>, duration: real, mode: RepeatMode, ds: seq<real>, lo: real, hi: real)
    requires |values| >= 2 && duration > 0.0 && NonNegative(ds) && Bounded(values, lo, hi)
    ensures lo <= Ticks(Fresh(values, duration, mode), ds).value <= hi
  {
    if ds != [] {
      var a := Ticks(Fresh(values, duration, mode), ds[..|ds| - 1]);
      Hull(values, duration, mode, ds[..|ds| - 1], lo, hi);
      InterpolateBounded(values, duration, Tick(a, ds[|ds| - 1]).time, lo, hi);
    }
  }

  /** The animator updated in place. */
  class ValueAnimator {
    const values: seq<real>
    const duration: real
    const mode: RepeatMode
    var time: real
    var done: bool
    var value: real
    var updates: seq<real>  // values handed to the update callback

    function View(): Anim
      reads this
    {
      Anim(values, duration, mode, time, done, value)
    }

    constructor (values: seq<real>, duration: real, mode: RepeatMode)
      requires |values| >= 2 && duration > 0.0
      ensures View() == Fresh(values, duration, mode) && Valid(View()) && updates == []
    {
      this.values, this.duration, this.mode := values, duration, mode;
      time, done, value := 0.0, false, values[0];
      updates := [];
    }

    method Advance(delta: real)
      requires Valid(View()) && 0.0 <= delta
      modifies this
      ensures Valid(View()) && View() == Tick(old(View()), delta)
      ensures updates == if old(done) then old(updates) else old(updates) + [value]
    {
      if done {
        return;
      }
      time := time + delta;
      if time > duration {
        if mode == ONCE {
          time := duration;
          done := true;
        } else if mode == REPEAT {
          time := time - duration;
        }
      }
      value := Interpolate(values, duration, time);
      updates := updates + [value];
    }
  }
}
