/**
  How start-stop-daemon waits during a timeout item: it looks for the processes,
  sleeps a multiple of the time that took, and looks again, until nothing is
  found or the time is up. Times are `struct timeval`s; integers are unbounded.
 */
module Polling {

  const MILLION := 1_000_000
  const MIN_POLL_INTERVAL := 20_000

  datatype Timeval = Timeval(sec: int, usec: int)

  predicate Normal(t: Timeval) {
    0 <= t.usec < MILLION
  }

  /** The time in microseconds. */
  function Micros(t: Timeval): int {
    t.sec * MILLION + t.usec
  }

  /** C's division and remainder, which truncate toward zero. */
  function Quot(a: int): int {
    if a >= 0 then a / MILLION else -((-a) / MILLION)
  }

  function Rem(a: int): int {
    a - Quot(a) * MILLION
  }

  /** The end of the TVCALC macro: carry whole seconds over. */
  function Carry(sec: int, usec: int): Timeval {
    Timeval(sec + Quot(usec), Rem(usec))
  }

  /** `TVCALC(result, ratio * (a - b + TVADJUST))`, the adjustment being -1 for seconds and a million for microseconds. */
  function TvCalc(ratio: int, a: Timeval, b: Timeval): Timeval {
    Carry(ratio * (a.sec - b.sec - 1), ratio * (a.usec - b.usec + MILLION))
  }

  /** `timercmp(a, b, >)`. */
  predicate Later(a: Timeval, b: Timeval) {
    if a.sec == b.sec then a.usec > b.usec else a.sec > b.sec
  }

  /** The macro's result is normalised and exact, whatever borrow the subtraction needed. */
  lemma TvCalcExact(ratio: int, a: Timeval, b: Timeval)
    requires ratio > 0 && Normal(a) && Normal(b)
    ensures Normal(TvCalc(ratio, a, b))
    ensures Micros(TvCalc(ratio, a, b)) == ratio * (Micros(a) - Micros(b))
  {
    var ds, du := a.sec - b.sec, a.usec - b.usec;
    var usec := ratio * (du + MILLION);
    assert usec >= 0 by {
      assert du + MILLION > 0;
      ProductPositive(ratio, du + MILLION);
    }
    assert usec == Quot(usec) * MILLION + Rem(usec);
    calc {
      Micros(TvCalc(ratio, a, b));
      (ratio * (ds - 1) + Quot(usec)) * MILLION + Rem(usec);
      ratio * (ds - 1) * MILLION + usec;
      { Distribute(ratio, ds, du); }
      ratio * (ds * MILLION + du);
    }
  }

  lemma ProductPositive(x: int, y: int)
    requires x > 0 && y > 0
    ensures x * y > 0
  {
  }

  lemma Distribute(r: int, ds: int, du: int)
    ensures r * (ds - 1) * MILLION + r * (du + MILLION) == r * (ds * MILLION + du)
  {
    var x, y := r * ds, r * du;
    assert r * (ds - 1) == x - r;
    assert r * (du + MILLION) == y + r * MILLION;
    assert r * (ds * MILLION + du) == r * (ds * MILLION) + y;
    assert r * (ds * MILLION) == x * MILLION;
  }

  /** On normalised times the comparison is that of the microseconds. */
  lemma LaterIsMicros(a: Timeval, b: Timeval)
    requires Normal(a) && Normal(b)
    ensures Later(a, b) <==> Micros(a) > Micros(b)
  {
  }

  // ----- one sleep -----

  function Max(a: int, b: int): int {
    if a > b then a else b
  }

  function Min(a: int, b: int): int {
    if a < b then a else b
  }

  /** How long to sleep after a look that began `before` and ended `after`. */
  function Sleep(ratio: int, before: Timeval, after: Timeval, stopAt: Timeval): Timeval {
    var interval, left := TvCalc(ratio, after, before), TvCalc(1, stopAt, after);
    var t := if Later(interval, left) then left else interval;
    if t.sec == 0 && t.usec <= MIN_POLL_INTERVAL then Timeval(0, MIN_POLL_INTERVAL) else t
  }

  /** A sleep is `ratio` times the look, cut to the time left, but never under 20 ms. */
  lemma SleepExact(ratio: int, before: Timeval, after: Timeval, stopAt: Timeval)
    requires ratio > 0 && Normal(before) && Normal(after) && Normal(stopAt)
    requires Micros(before) <= Micros(after) < Micros(stopAt)
    ensures var s, left := Sleep(ratio, before, after, stopAt), Micros(stopAt) - Micros(after);
      && Normal(s)
      && Micros(s) == Max(MIN_POLL_INTERVAL, Min(ratio * (Micros(after) - Micros(before)), left))
      && MIN_POLL_INTERVAL <= Micros(s) <= Max(MIN_POLL_INTERVAL, left)
  {
    TvCalcExact(ratio, after, before);
    TvCalcExact(1, stopAt, after);
    var interval, left := TvCalc(ratio, after, before), TvCalc(1, stopAt, after);
    LaterIsMicros(interval, left);
    assert ratio * (Micros(after) - Micros(before)) >= 0 by {
      if Micros(after) > Micros(before) {
        ProductPositive(ratio, Micros(after) - Micros(before));
      }
    }
  }

  // ----- a whole wait -----

  /** One look: when it began, how many processes it found, when it ended. */
  datatype Look = Look(before: Timeval, found: nat, after: Timeval)

  datatype Outcome = Expired | AllGone | Waiting

  /** The multiple used after the `i`th look: 2, 3, and so on up to 10. */
  function Ratio(i: nat): int {
    if i + 2 < 10 then i + 2 else 10
  }

  /** What a wait comes to, from its `i`th look on, and how many looks it made. */
  function Watch(looks: seq<Look>, stopAt: Timeval, i: nat): (r: (Outcome, nat))
    ensures i <= |looks| ==> i <= r.1 <= |looks|
    decreases |looks| - i
  {
    if i >= |looks| then (Waiting, i)
    else if Later(looks[i].before, stopAt) then (Expired, i)
    else if looks[i].found == 0 then (AllGone, i + 1)
    else if !Later(stopAt, looks[i].after) then (Expired, i + 1)
    else Watch(looks, stopAt, i + 1)
  }

  /** The clock never goes back, and a sleep lasts no shorter than asked. */
  predicate Clock(start: Timeval, looks: seq<Look>, stopAt: Timeval) {
    && Normal(start) && Normal(stopAt)
    && (forall i :: 0 <= i < |looks| ==>
          Normal(looks[i].before) && Normal(looks[i].after) && Micros(looks[i].before) <= Micros(looks[i].after))
    && (|looks| > 0 ==> Micros(start) <= Micros(looks[0].before))
    && (forall i :: 0 < i < |looks| && Micros(looks[i - 1].after) < Micros(stopAt) ==>
          Micros(looks[i].before) >= Micros(looks[i - 1].after)
            + Micros(Sleep(Ratio(i - 1), looks[i - 1].before, looks[i - 1].after, stopAt)))
  }

  /** The `i`th look begins at least `i` times 20 ms into the wait, so no look is made once they are used up. */
  lemma {:induction false} LooksAreSpaced(start: Timeval, looks: seq<Look>, stopAt: Timeval, i: nat)
    requires Clock(start, looks, stopAt) && i <= |looks|
    requires i < |looks| ==> Micros(looks[i].before) >= Micros(start) + MIN_POLL_INTERVAL * i
    ensures var polls := Watch(looks, stopAt, i).1;
      polls > i ==> MIN_POLL_INTERVAL * (polls - 1) <= Micros(stopAt) - Micros(start)
    decreases |looks| - i
  {
    if i < |looks| {
      var l := looks[i];
      LaterIsMicros(l.before, stopAt);
      LaterIsMicros(stopAt, l.after);
      if !Later(l.before, stopAt) && l.found > 0 && Later(stopAt, l.after) {
        if i + 1 < |looks| {
          SleepExact(Ratio(i), l.before, l.after, stopAt);
          assert Micros(looks[i + 1].before) >= Micros(looks[(i + 1) - 1].after)
            + Micros(Sleep(Ratio(i), looks[(i + 1) - 1].before, looks[(i + 1) - 1].after, stopAt));
        }
        LooksAreSpaced(start, looks, stopAt, i + 1);
      }
    }
  }

  function StopAt(start: Timeval, seconds: int): Timeval {
    Timeval(start.sec + seconds, start.usec)
  }

  /** A timeout of `v` seconds makes at most 50 v + 1 looks. */
  lemma PollBound(start: Timeval, seconds: nat, looks: seq<Look>)
    requires Clock(start, looks, StopAt(start, seconds))
    ensures Watch(looks, StopAt(start, seconds), 0).1 <= 50 * seconds + 1
  {
    LooksAreSpaced(start, looks, StopAt(start, seconds), 0);
  }

  /** A look after which the wait goes on: made in time, something found, and time left. */
  predicate GoesOn(l: Look, stopAt: Timeval) {
    !Later(l.before, stopAt) && l.found > 0 && Later(stopAt, l.after)
  }

  /**
    Exactly what each outcome means. Every look but the last was one to go on after. All gone: the last, made in
    time, found nothing. Expired: the last found something but ended too late, or the next one would begin too late.
   */
  lemma {:induction false} WatchMeans(looks: seq<Look>, stopAt: Timeval, i: nat)
    requires i <= |looks|
    ensures var (outcome, polls) := Watch(looks, stopAt, i);
      && i <= polls <= |looks|
      && (forall k :: i <= k < polls - 1 ==> GoesOn(looks[k], stopAt))
      && match outcome
         case Waiting => polls == |looks| && (polls > i ==> GoesOn(looks[polls - 1], stopAt))
         case AllGone => polls > i && !Later(looks[polls - 1].before, stopAt) && looks[polls - 1].found == 0
         case Expired =>
           || (polls > i && !Later(looks[polls - 1].before, stopAt) && looks[polls - 1].found > 0 && !Later(stopAt, looks[polls - 1].after))
           || (polls < |looks| && Later(looks[polls].before, stopAt) && (polls > i ==> GoesOn(looks[polls - 1], stopAt)))
    decreases |looks| - i
  {
    hide Later;
    if i < |looks| {
      WatchMeans(looks, stopAt, i + 1);
    }
  }

  predicate AllNormal(looks: seq<Look>) {
    forall i :: 0 <= i < |looks| ==> Normal(looks[i].before) && Normal(looks[i].after)
  }

  /** A timeout expires no earlier than asked, and finds everything gone only in time. */
  lemma WaitLasts(start: Timeval, seconds: int, looks: seq<Look>)
    requires Normal(start) && AllNormal(looks)
    ensures var (outcome, polls) := Watch(looks, StopAt(start, seconds), 0);
      var end := Micros(start) + seconds * 1_000_000;
      && (outcome.Expired? ==> (polls > 0 && Micros(looks[polls - 1].after) >= end) || (polls < |looks| && Micros(looks[polls].before) > end))
      && (outcome.AllGone? ==> Micros(looks[polls - 1].before) <= end)
      && (outcome.Waiting? && polls > 0 ==> Micros(looks[polls - 1].after) < end)
  {
    hide Later, Watch;
    var stopAt := StopAt(start, seconds);
    WatchMeans(looks, stopAt, 0);
    var polls := Watch(looks, stopAt, 0).1;
    assert Micros(stopAt) == Micros(start) + seconds * 1_000_000;
    if polls > 0 {
      LaterIsMicros(looks[polls - 1].before, stopAt);
      LaterIsMicros(stopAt, looks[polls - 1].after);
    }
    if polls < |looks| {
      LaterIsMicros(looks[polls].before, stopAt);
    }
  }

  // ----- the code -----

  /** The loop of a timeout item, fed with what each look gives. */
  method Wait(start: Timeval, seconds: int, looks: seq<Look>) returns (outcome: Outcome, polls: nat, sleeps: seq<Timeval>)
    ensures (outcome, polls) == Watch(looks, Timeval(start.sec + seconds, start.usec), 0)
    ensures |sleeps| <= polls <= |looks|
    ensures forall i :: 0 <= i < |sleeps| ==>
      sleeps[i] == Sleep(if i < 8 then i + 2 else 10, looks[i].before, looks[i].after, Timeval(start.sec + seconds, start.usec))
    ensures |sleeps| == polls || (!outcome.Waiting? && |sleeps| == polls - 1)
  {
    hide TvCalc, Later;
    var stopAt := start;
    stopAt := stopAt.(sec := stopAt.sec + seconds);
    var ratio := 1;
    polls, sleeps := 0, [];
    while polls < |looks|
      invariant 0 <= polls <= |looks| && |sleeps| == polls
      invariant ratio == if polls == 0 then 1 else Ratio(polls - 1)
      invariant Watch(looks, stopAt, polls) == Watch(looks, stopAt, 0)
      invariant forall i :: 0 <= i < |sleeps| ==> sleeps[i] == Sleep(Ratio(i), looks[i].before, looks[i].after, stopAt)
    {
      var before := looks[polls].before;
      if Later(before, stopAt) {
        return Expired, polls, sleeps;
      }
      var found, after := looks[polls].found, looks[polls].after;
      polls := polls + 1;
      if found == 0 {
        return AllGone, polls, sleeps;
      }
      if !Later(stopAt, after) {
        return Expired, polls, sleeps;
      }
      if ratio < 10 {
        ratio := ratio + 1;
      }
      var interval := TvCalc(ratio, after, before);
      var maxInterval := TvCalc(1, stopAt, after);
      if Later(interval, maxInterval) {
        interval := maxInterval;
      }
      if interval.sec == 0 && interval.usec <= MIN_POLL_INTERVAL {
        interval := interval.(usec := MIN_POLL_INTERVAL);
      }
      sleeps := sleeps + [interval];
    }
    return Waiting, polls, sleeps;
  }
}
