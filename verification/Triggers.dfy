/** The triggers of mock_service/lib/trigger.py. */
module Triggers {
  import opened Elapsed

  // ----- clock trigger -----

  datatype Clock = Clock(interval: real, recurring: bool, timeLeft: real, expired: bool)

  function Reset(c: Clock): Clock {
    c.(timeLeft := c.interval, expired := false)
  }

  function NewClock(interval: real, recurring: bool): Clock {
    Clock(interval, recurring, interval, false)
  }

  predicate Fires(c: Clock, delta: real) {
    !c.expired && c.timeLeft - delta <= 0.0
  }

  function Checked(c: Clock, delta: real): Clock {
    if c.expired then c
    else if !Fires(c, delta) then c.(timeLeft := c.timeLeft - delta)
    else if c.recurring then c.(timeLeft := c.interval - (c.timeLeft - delta))
    else c.(timeLeft := 0.0, expired := true)
  }

  class ClockTrigger {
    const interval: real
    const recurring: bool
    var timeLeft: real
    var expired: bool

    function View(): Clock
      reads this
    {
      Clock(interval, recurring, timeLeft, expired)
    }

    constructor (interval: real, recurring: bool)
      ensures View() == NewClock(interval, recurring)
    {
      this.interval, this.recurring := interval, recurring;
      timeLeft, expired := interval, false;
    }

    method Check(delta: real) returns (active: bool)
      modifies this
      ensures active == Fires(old(View()), delta) && View() == Checked(old(View()), delta)
    {
      if expired {
        return false;
      }
      timeLeft := timeLeft - delta;
      if timeLeft <= 0.0 {
        if recurring {
          timeLeft := interval - timeLeft;
        } else {
          timeLeft := 0.0;
          expired := true;
        }
        return true;
      }
      return false;
    }

    method Restart()
      modifies this
      ensures View() == NewClock(interval, recurring) == Reset(old(View()))
    {
      timeLeft := interval;
      expired := false;
    }
  }

  /** The clock after a check for each of `ds`. */
  function After(c: Clock, ds: seq<real>): Clock {
    if ds == [] then c else Checked(After(c, ds[..|ds| - 1]), ds[|ds| - 1])
  }

  function Firings(c: Clock, ds: seq<real>): nat {
    if ds == [] then 0
    else Firings(c, ds[..|ds| - 1]) + if Fires(After(c, ds[..|ds| - 1]), ds[|ds| - 1]) then 1 else 0
  }

  /** One-shot: the trigger has expired exactly if the time accumulated over at least one
      check has reached the interval, and until then counts down to it. */
  lemma {:induction false} OneShotAfter(interval: real, ds: seq<real>)
    requires NonNegative(ds)
    ensures var c := After(NewClock(interval, false), ds);
            && c.interval == interval && !c.recurring
            && (c.expired <==> ds != [] && Sum(ds) >= interval)
            && (!c.expired ==> c.timeLeft == interval - Sum(ds))
            && Firings(NewClock(interval, false), ds) == if c.expired then 1 else 0
  {
    if ds != [] {
      var front := ds[..|ds| - 1];
      OneShotAfter(interval, front);
    }
  }

  /** So it fires exactly once: at the first check where the accumulated time reaches the
      interval, and at no other. */
  lemma OneShotFires(interval: real, ds: seq<real>, k: nat)
    requires NonNegative(ds) && k < |ds|
    ensures Fires(After(NewClock(interval, false), ds[..k]), ds[k]) <==>
            Sum(ds[..k + 1]) >= interval && (k == 0 || Sum(ds[..k]) < interval)
    ensures Firings(NewClock(interval, false), ds) <= 1
  {
    OneShotAfter(interval, ds);
    OneShotAfter(interval, ds[..k]);
    assert ds[..k + 1][..k] == ds[..k];
  }

  /** How late the firings of a clock came, in all: by how much each check overran the time
      left. */
  function Lateness(c: Clock, ds: seq<real>): real {
    if ds == [] then 0.0
    else
      var front, d := ds[..|ds| - 1], ds[|ds| - 1];
      Lateness(c, front) + if Fires(After(c, front), d) then d - After(c, front).timeLeft else 0.0
  }

  /** Recurring: what is left on the clock and the accumulated time together make up one interval
      more than the firings so far and twice their lateness, once for the time itself and once
      because a late firing lengthens the next interval by as much. */
  lemma {:induction false} RecurringAfter(interval: real, ds: seq<real>)
    requires NonNegative(ds)
    ensures var c, n, late := After(NewClock(interval, true), ds), Firings(NewClock(interval, true), ds), Lateness(NewClock(interval, true), ds);
            && c.interval == interval && c.recurring && !c.expired
            && Sum(ds) + c.timeLeft == Multiple(n + 1, interval) + late + late
            && Sum(ds) >= Multiple(n, interval) && late >= 0.0
            && (interval > 0.0 ==> c.timeLeft > 0.0)
  {
    if ds != [] {
      RecurringAfter(interval, ds[..|ds| - 1]);
    }
  }

  /** A recurring clock fires exactly when the time left is used up, and then has its interval to
      go again plus the time by which it was late. */
  lemma RecurringFires(interval: real, ds: seq<real>, k: nat)
    requires NonNegative(ds) && k < |ds|
    ensures var c, c' := After(NewClock(interval, true), ds[..k]), After(NewClock(interval, true), ds[..k + 1]);
            var fires := ds[k] >= c.timeLeft;
            && Firings(NewClock(interval, true), ds[..k + 1]) == Firings(NewClock(interval, true), ds[..k]) + (if fires then 1 else 0)
            && c'.timeLeft == if fires then interval + (ds[k] - c.timeLeft) else c.timeLeft - ds[k]
  {
    RecurringAfter(interval, ds[..k]);
    assert ds[..k + 1][..k] == ds[..k];
  }

  /** A recurring trigger never fires more often than the accumulated time allows. */
  lemma RecurringRate(interval: real, ds: seq<real>)
    requires NonNegative(ds)
    ensures Firings(NewClock(interval, true), ds) as real * interval <= Sum(ds)
  {
    var n := Firings(NewClock(interval, true), ds);
    assert Sum(ds) >= Multiple(n, interval) by {
      RecurringAfter(interval, ds);
    }
    assert Multiple(n, interval) == n as real * interval by {
      MultipleIsProduct(n, interval);
    }
  }
}
