/** The per-frame gate of the base renderer's animation loop: the pause
    while hidden, then the frame-rate limiter that accumulates clock deltas,
    compares them with the frame interval and keeps the remainder. */
module FrameLimiter {
  import opened RealArith

  /** The limiter `initScene` sets up: none, or the accumulated time
      `delta` since the last rendered frame and the frame `interval`. */
  datatype Limiter = NoLimit | Limit(delta: real, interval: real)

  /** A limiter with a positive interval, as `1.0 / frameRateLimit` is when
      the limit is positive. */
  predicate WellFormed(l: Limiter)
  {
    l.Limit? ==> l.interval > 0.0
  }

  /** A limiter whose accumulated time is a remainder: at least zero and at
      most one interval. */
  predicate Settled(l: Limiter)
  {
    l.Limit? ==> l.interval > 0.0 && 0.0 <= l.delta <= l.interval
  }

  /** The limiter for a `frameRateLimit`: active iff the limit is positive. */
  function Setup(frameRateLimit: real): (l: Limiter)
    ensures l.Limit? <==> frameRateLimit > 0.0
    ensures l.Limit? ==> l.delta == 0.0 && l.interval == 1.0 / frameRateLimit
    ensures Settled(l)
  {
    if frameRateLimit > 0.0 then
      PositiveQuotient(1.0, frameRateLimit);
      Limit(0.0, 1.0 / frameRateLimit)
    else NoLimit
  }

  /** JavaScript's `a % b` for a non-negative `a` and a positive `b`: what
      is left of `a` after taking away every whole `b` it holds. */
  function FMod(a: real, b: real): (r: real)
    requires a >= 0.0 && b > 0.0
    ensures 0.0 <= r < b
    ensures a == Times(Quotient(a, b), b) + r
    ensures a > b ==> r <= a - b
    ensures b < a < b + b ==> r == a - b
  {
    var k := Quotient(a, b);
    TimesGrows(k, b);
    OneWholeInterval(a, b);
    a - Times(k, b)
  }

  /** A number strictly between `b` and `b + b` holds exactly one `b`. */
  lemma OneWholeInterval(a: real, b: real)
    requires a >= 0.0 && b > 0.0
    ensures b < a < b + b ==> Times(Quotient(a, b), b) == b
  {
    var k := Quotient(a, b);
    if b < a < b + b {
      if k >= 2 {
        TimesTwo(k, b);
      }
      assert Times(1, b) == Times(0, b) + b;
    }
  }

  /** Two or more copies of a positive `b` add up to at least `b + b`. */
  lemma TimesTwo(k: nat, b: real)
    requires b > 0.0 && k >= 2
    ensures Times(k, b) >= b + b
  {
    TimesGrows(k - 1, b);
  }

  /** One frame of `animate` past the pause gate: the clock delta `dt` is
      added to the accumulated time; the frame renders only when that
      exceeds the interval, after which the remainder modulo the interval is
      kept. Without a limiter every frame renders. */
  function Step(l: Limiter, dt: real): (r: (Limiter, bool))
    requires WellFormed(l)
    ensures r.0.Limit? <==> l.Limit?
    ensures l.Limit? ==> r.0.interval == l.interval
    ensures r.1 <==> l.NoLimit? || l.delta + dt > l.interval
    ensures l.Limit? && !r.1 ==> r.0.delta == l.delta + dt
    ensures l.Limit? && r.1 ==> 0.0 <= r.0.delta < l.interval && r.0.delta <= l.delta + dt - l.interval
    ensures l.Limit? && r.1 ==> exists k: nat :: k >= 1 && l.delta + dt == Times(k, l.interval) + r.0.delta
    ensures l.Limit? && r.1 && l.delta + dt < l.interval + l.interval ==> r.0.delta == l.delta + dt - l.interval
  {
    match l
    case NoLimit => (NoLimit, true)
    case Limit(delta, interval) =>
      var acc := delta + dt;
      if acc <= interval then (Limit(acc, interval), false)
      else
        var k := Quotient(acc, interval);
        assert k >= 1;
        assert acc == Times(k, interval) + FMod(acc, interval);
        (Limit(FMod(acc, interval), interval), true)
  }

  /** With non-negative clock deltas a settled limiter stays settled. */
  lemma StepSettles(l: Limiter, dt: real)
    requires Settled(l) && dt >= 0.0
    ensures Settled(Step(l, dt).0)
  {
  }

  /** The sum of the clock deltas `dts`. */
  function Sum(dts: seq<real>): real
  {
    if dts == [] then 0.0 else Sum(dts[..|dts| - 1]) + dts[|dts| - 1]
  }

  /** The limiter after the frames `dts`, and how many of them rendered. */
  function Run(l: Limiter, dts: seq<real>): (r: (Limiter, nat))
    requires WellFormed(l)
    ensures WellFormed(r.0) && (r.0.Limit? <==> l.Limit?)
    ensures l.Limit? ==> r.0.interval == l.interval
  {
    if dts == [] then (l, 0)
    else
      var prev := Run(l, dts[..|dts| - 1]);
      var next := Step(prev.0, dts[|dts| - 1]);
      (next.0, if next.1 then prev.1 + 1 else prev.1)
  }

  /** Without a limiter every frame renders. */
  lemma {:induction false} UnlimitedRendersAll(dts: seq<real>)
    ensures Run(NoLimit, dts) == (NoLimit, |dts|)
  {
    if dts != [] {
      UnlimitedRendersAll(dts[..|dts| - 1]);
    }
  }

  /** Frames that all stay under the interval render nothing and keep
      accumulating their deltas. */
  lemma {:induction false} SkippedFramesAccumulate(l: Limiter, dts: seq<real>)
    requires l.Limit? && WellFormed(l)
    requires l.delta + Sum(dts) <= l.interval
    requires forall k :: 0 <= k < |dts| ==> dts[k] >= 0.0
    ensures Run(l, dts) == (Limit(l.delta + Sum(dts), l.interval), 0)
  {
    if dts != [] {
      var init := dts[..|dts| - 1];
      assert forall k :: 0 <= k < |init| ==> init[k] == dts[k];
      SkippedFramesAccumulate(l, init);
    }
  }

  /** One frame keeps the rate bound: `n` frames rendered so far and the
      accumulated time fit in `budget`; after a frame of `dt`, the frames
      rendered and the new accumulated time fit in `budget + dt`. */
  lemma RateStep(p: Limiter, n: nat, budget: real, dt: real)
    requires p.Limit? && Settled(p) && dt >= 0.0
    requires Times(n, p.interval) + p.delta <= budget
    ensures var s := Step(p, dt);
      Settled(s.0) && Times(if s.1 then n + 1 else n, p.interval) + s.0.delta <= budget + dt
  {
    assert Times(n + 1, p.interval) == Times(n, p.interval) + p.interval;
  }

  /** One frame whose delta is below the interval keeps the count exact:
      a render takes away exactly one interval. */
  lemma RateStepExact(p: Limiter, n: nat, total: real, dt: real)
    requires p.Limit? && Settled(p) && 0.0 <= dt < p.interval
    requires Times(n, p.interval) + p.delta == total
    ensures var s := Step(p, dt);
      Settled(s.0) && Times(if s.1 then n + 1 else n, p.interval) + s.0.delta == total + dt
  {
    assert Times(n + 1, p.interval) == Times(n, p.interval) + p.interval;
  }

  /** The long-run rate is kept: from a settled limiter, when every clock
      delta is below the interval, the remainder is carried over and never
      dropped, so the rendered frames times the interval plus the time still
      accumulated equal the starting time plus the elapsed time exactly. */
  lemma {:induction false} RateKept(l: Limiter, dts: seq<real>)
    requires l.Limit? && Settled(l)
    requires forall k :: 0 <= k < |dts| ==> 0.0 <= dts[k] < l.interval
    ensures Settled(Run(l, dts).0)
    ensures Times(Run(l, dts).1, l.interval) + Run(l, dts).0.delta == l.delta + Sum(dts)
  {
    if dts != [] {
      var init := dts[..|dts| - 1];
      var dt := dts[|dts| - 1];
      assert forall k :: 0 <= k < |init| ==> init[k] == dts[k];
      RateKept(l, init);
      var prev := Run(l, init);
      var next := Step(prev.0, dt);
      assert Run(l, dts) == (next.0, if next.1 then prev.1 + 1 else prev.1);
      assert Sum(dts) == Sum(init) + dt;
      RateStepExact(prev.0, prev.1, l.delta + Sum(init), dt);
    }
  }

  /** The frame-rate limit holds: from a settled limiter, with
      non-negative clock deltas, the rendered frames times the interval plus
      the time still accumulated never exceed the starting time plus the
      elapsed time: no more frames render than whole intervals have passed. */
  lemma {:induction false} RateLimited(l: Limiter, dts: seq<real>)
    requires l.Limit? && Settled(l)
    requires forall k :: 0 <= k < |dts| ==> dts[k] >= 0.0
    ensures Settled(Run(l, dts).0)
    ensures Times(Run(l, dts).1, l.interval) + Run(l, dts).0.delta <= l.delta + Sum(dts)
  {
    if dts != [] {
      var init := dts[..|dts| - 1];
      var dt := dts[|dts| - 1];
      assert forall k :: 0 <= k < |init| ==> init[k] == dts[k];
      RateLimited(l, init);
      var prev := Run(l, init);
      var next := Step(prev.0, dt);
      assert Run(l, dts) == (next.0, if next.1 then prev.1 + 1 else prev.1);
      assert Sum(dts) == Sum(init) + dt;
      RateStep(prev.0, prev.1, l.delta + Sum(init), dt);
    }
  }
}
