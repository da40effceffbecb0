/**
 The adaptive worker controller (crates/cursdel-core/src/adaptive.rs). Throughput and error rate are exact rationals;
 the rest is integer arithmetic as written. A window's length is in seconds.
 */
module Adaptive {
  import opened Wrappers

  datatype WindowStats = WindowStats(completed: nat, errors: nat, seconds: real) {
    function Throughput(): real {
      if seconds <= 0.0 then 0.0 else completed as real / seconds
    }

    function ErrorRate(): real {
      if completed + errors == 0 then 0.0 else errors as real / (completed + errors) as real
    }
  }

  datatype AdaptiveDecision = Increase(workers: nat) | Decrease(workers: nat) | Hold

  datatype Trend = Growing | Shrinking

  const IMPROVE_THRESHOLD: real := 0.05
  const ERROR_RATE_BACKOFF: real := 0.15
  const EPSILON: real := 0.0000000000000002220446049250313080847263336181640625
  const REPROBE_AFTER_HOLDS := 6
  const MIN_STEP := 1

  function Max(a: int, b: int): int {
    if a < b then b else a
  }

  function Min(a: int, b: int): int {
    if a < b then a else b
  }

  /** The controller's fields as a value. */
  datatype Settings = Settings(
    min: nat, max: nat, current: nat, step: nat, trend: Trend, last: Option<real>, holds: nat, reprobeGrowNext: bool)
  {
    function MaxStep(): nat {
      Max(Max(max - min, 2) / 2, MIN_STEP)
    }

    predicate Valid() {
      && 1 <= min <= current <= max
      && 1 <= step <= MaxStep()
      && holds < REPROBE_AFTER_HOLDS
    }
  }

  /** How a decision shows in the number of workers. */
  predicate Tells(decision: AdaptiveDecision, before: nat, after: nat) {
    match decision
    case Increase(n) => after == n && n > before
    case Decrease(n) => after == n && n < before
    case Hold => after == before
  }

  // ---------------------------------------------------------------------------------------------------------------
  // The decision as a function of the fields
  // ---------------------------------------------------------------------------------------------------------------

  function New(min: nat, max: nat, initial: nat): (s: Settings)
    ensures s.Valid()
  {
    var top := Max(max, Max(min, 1));
    var bottom := Max(min, 1);
    Settings(bottom, top, Min(Max(initial, bottom), top), Max(Max(top - min, 4) / 4, MIN_STEP), Growing, None, 0, true)
  }

  function AfterGrowStep(s: Settings): Settings
    requires s.Valid()
  {
    s.(step := Min(Max(s.step + s.step / 2, MIN_STEP), s.MaxStep()))
  }

  function AfterShrinkStep(s: Settings): Settings {
    s.(step := Max(s.step / 2, MIN_STEP))
  }

  function Grown(s: Settings, throughput: real): (Settings, AdaptiveDecision)
    requires s.Valid()
  {
    var s1 := s.(last := Some(throughput), trend := Growing);
    var n := Min(s.current + s.step, s.max);
    if n == s.current then (s1, Hold) else (s1.(current := n, holds := 0), Increase(n))
  }

  function Shrunk(s: Settings, throughput: real): (Settings, AdaptiveDecision)
    requires s.Valid()
  {
    var s1 := s.(last := Some(throughput), trend := Shrinking);
    var n := Max(s.current - s.step, s.min);
    if n == s.current then (s1, Hold) else (s1.(current := n, holds := 0), Decrease(n))
  }

  function HeldOrReprobed(s: Settings, throughput: real): (Settings, AdaptiveDecision)
    requires s.Valid()
  {
    var s1 := s.(last := Some(throughput), holds := s.holds + 1);
    if s1.holds < REPROBE_AFTER_HOLDS then (s1, Hold)
    else
      var s2 := s1.(holds := 0, step := Max(MIN_STEP, Min(s1.step, 2)), reprobeGrowNext := !s1.reprobeGrowNext);
      if s1.reprobeGrowNext then Grown(s2, throughput) else Shrunk(s2, throughput)
  }

  /** Relative change of throughput; no change if there was none to speak of. */
  function Delta(last: real, throughput: real): real {
    if last > EPSILON then (throughput - last) / last else 0.0
  }

  function Sampled(s: Settings, stats: WindowStats): (Settings, AdaptiveDecision)
    requires s.Valid()
  {
    if stats.completed == 0 then (s, Hold)
    else
      var throughput := stats.Throughput();
      if stats.ErrorRate() > ERROR_RATE_BACKOFF && s.current > s.min then Shrunk(s, throughput)
      else if s.last.None? then Grown(s, throughput)
      else
        var delta := Delta(s.last.value, throughput);
        if -IMPROVE_THRESHOLD < delta < IMPROVE_THRESHOLD then HeldOrReprobed(s, throughput)
        else if delta >= IMPROVE_THRESHOLD then
          if s.trend.Growing? then Grown(AfterGrowStep(s), throughput) else Shrunk(AfterGrowStep(s), throughput)
        else
          if s.trend.Growing? then Shrunk(AfterShrinkStep(s), throughput) else Grown(AfterShrinkStep(s), throughput)
  }

  // ---------------------------------------------------------------------------------------------------------------
  // The controller
  // ---------------------------------------------------------------------------------------------------------------

  class AdaptiveController {
    const min: nat
    const max: nat
    var current: nat
    var step: nat
    var trend: Trend
    var lastThroughput: Option<real>
    var holds: nat
    var reprobeGrowNext: bool

    function State(): Settings
      reads this
    {
      Settings(min, max, current, step, trend, lastThroughput, holds, reprobeGrowNext)
    }

    constructor (min: nat, max: nat, initial: nat)
      ensures State() == New(min, max, initial) && State().Valid()
    {
      var top := Max(max, Max(min, 1));
      this.min := Max(min, 1);
      this.max := top;
      current := Min(Max(initial, Max(min, 1)), top);
      step := Max(Max(top - min, 4) / 4, MIN_STEP);
      trend := Growing;
      lastThroughput := None;
      holds := 0;
      reprobeGrowNext := true;
    }

    method GrowStep()
      requires State().Valid()
      modifies this`step
      ensures State() == AfterGrowStep(old(State())) && State().Valid()
    {
      step := Min(Max(step + step / 2, MIN_STEP), State().MaxStep());
    }

    method ShrinkStep()
      requires State().Valid()
      modifies this`step
      ensures State() == AfterShrinkStep(old(State())) && State().Valid()
    {
      step := Max(step / 2, MIN_STEP);
    }

    method ApplyGrow(throughput: real) returns (decision: AdaptiveDecision)
      requires State().Valid()
      modifies this
      ensures (State(), decision) == Grown(old(State()), throughput)
    {
      lastThroughput := Some(throughput);
      trend := Growing;
      var n := Min(current + step, max);
      if n == current {
        decision := Hold;
      } else {
        current := n;
        holds := 0;
        decision := Increase(n);
      }
    }

    method ApplyShrink(throughput: real) returns (decision: AdaptiveDecision)
      requires State().Valid()
      modifies this
      ensures (State(), decision) == Shrunk(old(State()), throughput)
    {
      lastThroughput := Some(throughput);
      trend := Shrinking;
      var n := Max(current - step, min);
      if n == current {
        decision := Hold;
      } else {
        current := n;
        holds := 0;
        decision := Decrease(n);
      }
    }

    method HoldOrReprobe(throughput: real) returns (decision: AdaptiveDecision)
      requires State().Valid()
      modifies this
      ensures (State(), decision) == HeldOrReprobed(old(State()), throughput)
    {
      lastThroughput := Some(throughput);
      holds := holds + 1;
      if holds >= REPROBE_AFTER_HOLDS {
        holds := 0;
        step := Max(MIN_STEP, Min(step, 2));
        var grow := reprobeGrowNext;
        reprobeGrowNext := !reprobeGrowNext;
        if grow {
          trend := Growing;
          decision := ApplyGrow(throughput);
        } else {
          trend := Shrinking;
          decision := ApplyShrink(throughput);
        }
      } else {
        decision := Hold;
      }
    }

    method OnSample(stats: WindowStats) returns (decision: AdaptiveDecision)
      requires State().Valid()
      modifies this
      ensures (State(), decision) == Sampled(old(State()), stats)
      ensures State().Valid() && Tells(decision, old(current), current)
    {
      hide WindowStats.Throughput, WindowStats.ErrorRate;
      SampledKeeps(State(), stats);
      if stats.completed == 0 {
        return Hold;
      }
      var throughput := stats.Throughput();
      if stats.ErrorRate() > ERROR_RATE_BACKOFF && current > min {
        decision := ApplyShrink(throughput);
        return;
      }
      if lastThroughput.None? {
        lastThroughput := Some(throughput);
        decision := ApplyGrow(throughput);
        return;
      }
      var last := lastThroughput.value;
      var delta := if last > EPSILON then (throughput - last) / last else 0.0;
      match trend {
        case Growing =>
          if delta >= IMPROVE_THRESHOLD {
            GrowStep();
            decision := ApplyGrow(throughput);
          } else if delta <= -IMPROVE_THRESHOLD {
            ShrinkStep();
            decision := ApplyShrink(throughput);
          } else {
            decision := HoldOrReprobe(throughput);
          }
        case Shrinking =>
          if delta >= IMPROVE_THRESHOLD {
            GrowStep();
            decision := ApplyShrink(throughput);
          } else if delta <= -IMPROVE_THRESHOLD {
            ShrinkStep();
            decision := ApplyGrow(throughput);
          } else {
            decision := HoldOrReprobe(throughput);
          }
      }
    }
  }

  // ---------------------------------------------------------------------------------------------------------------
  // Runs of samples
  // ---------------------------------------------------------------------------------------------------------------

  /** The bounds are kept, the worker count moves by no more than the largest step, and the decision says how. */
  predicate Keeps(s: Settings, r: (Settings, AdaptiveDecision)) {
    && r.0.Valid() && r.0.min == s.min && r.0.max == s.max
    && Tells(r.1, s.current, r.0.current)
    && s.current - s.MaxStep() <= r.0.current <= s.current + s.MaxStep()
  }

  lemma MovesKeep(s: Settings, throughput: real)
    requires s.Valid()
    ensures Keeps(s, Grown(s, throughput)) && Keeps(s, Shrunk(s, throughput))
  {
  }

  lemma StepsKeep(s: Settings)
    requires s.Valid()
    ensures AfterGrowStep(s).Valid() && AfterGrowStep(s) == s.(step := AfterGrowStep(s).step)
    ensures AfterShrinkStep(s).Valid() && AfterShrinkStep(s) == s.(step := AfterShrinkStep(s).step)
  {
  }

  lemma HeldKeeps(s: Settings, throughput: real)
    requires s.Valid()
    ensures Keeps(s, HeldOrReprobed(s, throughput))
  {
  }

  lemma SampledKeeps(s: Settings, stats: WindowStats)
    requires s.Valid()
    ensures Keeps(s, Sampled(s, stats))
  {
    hide Delta, WindowStats.Throughput, WindowStats.ErrorRate, Grown, Shrunk, HeldOrReprobed, AfterGrowStep,
         AfterShrinkStep;
    var throughput := stats.Throughput();
    MovesKeep(s, throughput);
    HeldKeeps(s, throughput);
    StepsKeep(s);
    MovesKeep(AfterGrowStep(s), throughput);
    MovesKeep(AfterShrinkStep(s), throughput);
  }

  /** The controller after the first k samples. */
  function After(s: Settings, samples: seq<WindowStats>, k: nat): (r: Settings)
    requires s.Valid() && k <= |samples|
    ensures r.Valid() && r.min == s.min && r.max == s.max
  {
    if k == 0 then s
    else
      SampledKeeps(After(s, samples, k - 1), samples[k - 1]);
      Sampled(After(s, samples, k - 1), samples[k - 1]).0
  }

  // ---------------------------------------------------------------------------------------------------------------
  // What one sample does
  // ---------------------------------------------------------------------------------------------------------------

  /** More than 15 % of the attempts were errors. */
  predicate ManyErrors(w: WindowStats) {
    20 * w.errors > 3 * (w.completed + w.errors)
  }

  lemma RatesMean(w: WindowStats)
    ensures w.ErrorRate() > ERROR_RATE_BACKOFF <==> ManyErrors(w)
    ensures w.seconds > 0.0 ==> w.Throughput() * w.seconds == w.completed as real
    ensures w.seconds <= 0.0 ==> w.Throughput() == 0.0
  {
    var all := w.completed + w.errors;
    if all > 0 {
      Exceeds(w.errors as real, all as real, ERROR_RATE_BACKOFF);
      InWholeNumbers(w.errors, all);
    }
    if w.seconds > 0.0 {
      Quotient(w.completed as real, w.seconds);
    }
  }

  lemma Quotient(part: real, whole: real)
    requires whole > 0.0
    ensures (part / whole) * whole == part
  {
  }

  lemma Exceeds(part: real, whole: real, bound: real)
    requires whole > 0.0
    ensures part / whole > bound <==> part > bound * whole
  {
    Quotient(part, whole);
    Scales(bound, part / whole, whole);
  }

  lemma InWholeNumbers(part: nat, whole: nat)
    ensures 0.15 * whole as real >= part as real <==> 3 * whole >= 20 * part
  {
    assert (3 * whole) as real == 3.0 * whole as real && (20 * part) as real == 20.0 * part as real;
  }

  lemma DeltaMeans(last: real, throughput: real)
    requires last > EPSILON
    ensures Delta(last, throughput) >= IMPROVE_THRESHOLD <==> throughput >= 1.05 * last
    ensures Delta(last, throughput) <= -IMPROVE_THRESHOLD <==> throughput <= 0.95 * last
  {
    var d := (throughput - last) / last;
    assert d * last == throughput - last;
    Scales(d, 0.05, last);
    Scales(-0.05, d, last);
  }

  lemma Scales(a: real, b: real, scale: real)
    requires scale > 0.0
    ensures a >= b <==> a * scale >= b * scale
  {
    if a >= b {
      assert (a - b) * scale >= 0.0;
    } else {
      assert (b - a) * scale > 0.0;
    }
  }

  /** The count goes a step up or down, as far as the bounds let it; any move ends the holding. */
  predicate Goes(s: Settings, r: Settings, d: AdaptiveDecision, up: bool) {
    && r.trend == (if up then Growing else Shrinking)
    && r.min == s.min && r.max == s.max
    && (up ==> r.current == if s.current + r.step <= s.max then s.current + r.step else s.max)
    && (!up ==> r.current == if s.current - r.step >= s.min then s.current - r.step else s.min)
    && d == (if r.current > s.current then Increase(r.current)
             else if r.current < s.current then Decrease(r.current) else Hold)
  }

  /** The windows in which the controller looks at how throughput has changed. */
  predicate Compares(s: Settings, w: WindowStats) {
    w.completed > 0 && !(ManyErrors(w) && s.current > s.min) && s.last.Some?
  }

  /** At least 5 % more than before. */
  predicate Gains(s: Settings, w: WindowStats) {
    Compares(s, w) && s.last.value > EPSILON && w.Throughput() >= 1.05 * s.last.value
  }

  /** At least 5 % less than before. */
  predicate Loses(s: Settings, w: WindowStats) {
    Compares(s, w) && s.last.value > EPSILON && w.Throughput() <= 0.95 * s.last.value
  }

  /** A gain moves on in the same direction, with a step half as large again if the range allows it. */
  lemma GainMovesOn(s: Settings, w: WindowStats)
    requires s.Valid() && Gains(s, w)
    ensures var (r, d) := Sampled(s, w);
            && Goes(s, r, d, s.trend.Growing?)
            && r.step == (if s.step + s.step / 2 <= s.MaxStep() then s.step + s.step / 2 else s.MaxStep())
            && r.last == Some(w.Throughput()) && r.reprobeGrowNext == s.reprobeGrowNext
            && r.holds == if r.current == s.current then s.holds else 0
  {
    hide Delta, WindowStats.Throughput, WindowStats.ErrorRate;
    RatesMean(w);
    DeltaMeans(s.last.value, w.Throughput());
  }

  /** A loss turns back, with half the step. */
  lemma LossTurnsBack(s: Settings, w: WindowStats)
    requires s.Valid() && Loses(s, w)
    ensures var (r, d) := Sampled(s, w);
            && Goes(s, r, d, s.trend.Shrinking?)
            && r.step == (if s.step >= 2 then s.step / 2 else 1)
            && r.last == Some(w.Throughput()) && r.reprobeGrowNext == s.reprobeGrowNext
            && r.holds == if r.current == s.current then s.holds else 0
  {
    hide Delta, WindowStats.Throughput, WindowStats.ErrorRate;
    RatesMean(w);
    DeltaMeans(s.last.value, w.Throughput());
  }

  /** Anything between holds, but the sixth time in a row probes, by at most two, in the direction that is next. */
  lemma NeitherHolds(s: Settings, w: WindowStats)
    requires s.Valid() && Compares(s, w) && !Gains(s, w) && !Loses(s, w)
    ensures var (r, d) := Sampled(s, w);
            && (s.holds < 5 ==> d == Hold && r == s.(last := Some(w.Throughput()), holds := s.holds + 1))
            && (s.holds == 5 ==>
                  && Goes(s, r, d, s.reprobeGrowNext)
                  && r.step == (if s.step >= 2 then 2 else 1)
                  && r.last == Some(w.Throughput()) && r.reprobeGrowNext == !s.reprobeGrowNext && r.holds == 0)
  {
    hide Delta, WindowStats.Throughput, WindowStats.ErrorRate;
    RatesMean(w);
    if s.last.value > EPSILON {
      DeltaMeans(s.last.value, w.Throughput());
    } else {
      NoDelta(s.last.value, w.Throughput());
    }
  }

  lemma NoDelta(last: real, throughput: real)
    requires last <= EPSILON
    ensures Delta(last, throughput) == 0.0
  {
  }

  /** Windows without a comparison: nothing completed, too many errors, or the first one with completions. */
  lemma OtherSamples(s: Settings, w: WindowStats)
    requires s.Valid() && !Compares(s, w)
    ensures var (r, d) := Sampled(s, w);
            && (w.completed == 0 ==> r == s && d == Hold)
            && (w.completed > 0 ==>
                  && Goes(s, r, d, !(ManyErrors(w) && s.current > s.min))
                  && r.step == s.step && r.last == Some(w.Throughput()) && r.reprobeGrowNext == s.reprobeGrowNext
                  && r.holds == if r.current == s.current then s.holds else 0)
  {
    hide Delta, WindowStats.Throughput, WindowStats.ErrorRate;
    RatesMean(w);
  }

  /** A fresh controller: sensible bounds, the initial count within them, and a quarter of the range as the step. */
  lemma NewIs(min: nat, max: nat, initial: nat)
    ensures var s := New(min, max, initial);
            && s.min == (if min == 0 then 1 else min) && s.max == (if max < s.min then s.min else max)
            && (s.min <= initial <= s.max ==> s.current == initial)
            && (initial < s.min ==> s.current == s.min) && (initial > s.max ==> s.current == s.max)
            && s.step == (if s.max - min < 8 then 1 else (s.max - min) / 4)
            && s.trend == Growing && s.last == None && s.holds == 0 && s.reprobeGrowNext
  {
  }

  // ---------------------------------------------------------------------------------------------------------------
  // A flat stretch
  // ---------------------------------------------------------------------------------------------------------------

  /** The k-th window is within 5 % of the one before it, the first one of what the controller saw last. */
  predicate IsFlatAt(s: Settings, samples: seq<WindowStats>, k: nat) {
    && k < |samples| && samples[k].completed > 0 && !ManyErrors(samples[k]) && s.last.Some?
    && var before := if k == 0 then s.last.value else samples[k - 1].Throughput();
       before <= EPSILON || 0.95 * before < samples[k].Throughput() < 1.05 * before
  }

  ghost predicate IsFlat(s: Settings, samples: seq<WindowStats>) {
    forall k: nat :: k < |samples| ==> IsFlatAt(s, samples, k)
  }

  predicate Odd(n: nat) {
    n % 2 == 1
  }

  /** How many times the controller has probed in a flat stretch. */
  function Probes(s: Settings, k: nat): nat {
    (s.holds + k) / 6
  }

  lemma NextProbe(h: nat)
    ensures h % 6 == 5 ==> (h + 1) % 6 == 0 && (h + 1) / 6 == h / 6 + 1
    ensures h % 6 != 5 ==> (h + 1) % 6 == h % 6 + 1 && (h + 1) / 6 == h / 6
    ensures Odd(h / 6 + 1) <==> !Odd(h / 6)
  {
  }

  /**
   A flat stretch: five windows hold and the sixth probes, and so on; and the probes go up and down in turn, so that
   they do not drift.
   */
  lemma {:induction false} FlatStretch(s: Settings, samples: seq<WindowStats>, k: nat)
    requires s.Valid() && IsFlat(s, samples) && k < |samples|
    ensures var before := After(s, samples, k);
            var (r, d) := Sampled(before, samples[k]);
            var up := s.reprobeGrowNext != Odd(Probes(s, k));
            && s.last.Some? && before.holds == (s.holds + k) % 6
            && before.reprobeGrowNext == up
            && before.last == Some(if k == 0 then s.last.value else samples[k - 1].Throughput())
            && (before.holds < 5 ==> d == Hold && r.current == before.current)
            && (before.holds == 5 ==> Goes(before, r, d, up) && 1 <= r.step <= 2)
  {
    hide Sampled, WindowStats.Throughput, ManyErrors, After, IsFlat, Goes;
    AfterUnfolds(s, samples, k);
    FlatAt(s, samples, k);
    if k > 0 {
      FlatStretch(s, samples, k - 1);
      FlatAt(s, samples, k - 1);
      FlatSample(After(s, samples, k - 1), samples[k - 1], s, samples, k - 1);
      NextProbe(s.holds + k - 1);
    }
    FlatSample(After(s, samples, k), samples[k], s, samples, k);
  }

  lemma FlatAt(s: Settings, samples: seq<WindowStats>, k: nat)
    requires IsFlat(s, samples) && k < |samples|
    ensures IsFlatAt(s, samples, k)
  {
  }

  lemma FlatSample(now: Settings, w: WindowStats, s: Settings, samples: seq<WindowStats>, k: nat)
    requires now.Valid() && IsFlatAt(s, samples, k) && w == samples[k]
    requires now.last == Some(if k == 0 then s.last.value else samples[k - 1].Throughput())
    ensures var (r, d) := Sampled(now, w);
            && r.last == Some(w.Throughput())
            && (now.holds < 5 ==>
                  d == Hold && r.current == now.current && r.holds == now.holds + 1
                  && r.reprobeGrowNext == now.reprobeGrowNext)
            && (now.holds == 5 ==>
                  Goes(now, r, d, now.reprobeGrowNext) && 1 <= r.step <= 2 && r.holds == 0
                  && r.reprobeGrowNext == !now.reprobeGrowNext)
  {
    hide Sampled, WindowStats.Throughput, Goes;
    NeitherHolds(now, w);
  }

  predicate ErrorFree(w: WindowStats) {
    w.completed > 0 && w.errors == 0 && w.Throughput() > EPSILON
  }

  /** Every increase pays: the next window's throughput is at least 5 % higher. */
  ghost predicate EveryIncreasePays(s: Settings, samples: seq<WindowStats>)
    requires s.Valid()
  {
    && (forall k :: 0 <= k < |samples| ==> ErrorFree(samples[k]))
    && (forall k :: 0 < k < |samples| && Sampled(After(s, samples, k - 1), samples[k - 1]).1.Increase? ==>
          samples[k].Throughput() >= 1.05 * samples[k - 1].Throughput())
  }

  /** The step sizes of a climb that always pays. */
  function ClimbStep(s: Settings, k: nat): (r: nat)
    requires s.Valid()
    ensures 1 <= r <= s.MaxStep()
  {
    if k <= 1 then s.step
    else
      var before := ClimbStep(s, k - 1);
      Min(before + before / 2, s.MaxStep())
  }

  function Climbed(s: Settings, k: nat): nat
    requires s.Valid()
  {
    if k == 0 then s.current else Climbed(s, k - 1) + ClimbStep(s, k)
  }

  lemma PaysDelta(last: real, throughput: real)
    requires last > EPSILON && throughput >= 1.05 * last
    ensures Delta(last, throughput) >= IMPROVE_THRESHOLD
  {
    assert (throughput - last) / last >= 0.05 by {
      assert throughput - last >= 0.05 * last;
    }
  }

  lemma NoErrors(w: WindowStats)
    requires ErrorFree(w)
    ensures w.ErrorRate() == 0.0
  {
  }

  /** One sample of a climb. */
  lemma ClimbsOn(s: Settings, w: WindowStats)
    requires s.Valid() && s.trend.Growing? && s.current < s.max && ErrorFree(w)
    requires s.last.Some? ==> s.last.value > EPSILON && w.Throughput() >= 1.05 * s.last.value
    ensures var r := Sampled(s, w);
            && r.1.Increase? && r.0.trend.Growing? && r.0.last == Some(w.Throughput())
            && r.0.step == (if s.last.None? then s.step else Min(s.step + s.step / 2, s.MaxStep()))
            && r.0.current == Min(s.current + r.0.step, s.max)
  {
    hide Delta, WindowStats.Throughput;
    NoErrors(w);
    if s.last.Some? {
      PaysDelta(s.last.value, w.Throughput());
    }
  }

  lemma AfterUnfolds(s: Settings, samples: seq<WindowStats>, k: nat)
    requires s.Valid() && k <= |samples|
    ensures After(s, samples, k)
            == if k == 0 then s else Sampled(After(s, samples, k - 1), samples[k - 1]).0
  {
  }

  lemma PaysAt(s: Settings, samples: seq<WindowStats>, k: nat)
    requires s.Valid() && EveryIncreasePays(s, samples) && k < |samples|
    ensures ErrorFree(samples[k])
    ensures k > 0 && Sampled(After(s, samples, k - 1), samples[k - 1]).1.Increase? ==>
              samples[k - 1].Throughput() > EPSILON
              && samples[k].Throughput() >= 1.05 * samples[k - 1].Throughput()
  {
    hide Sampled, After;
    if k > 0 {
      assert ErrorFree(samples[k - 1]);
    }
  }

  /** As long as the climb has not reached the top, it goes on with growing steps. */
  lemma {:induction false} Climbs(s: Settings, samples: seq<WindowStats>, k: nat)
    requires s.Valid() && s.last.None? && s.trend.Growing? && EveryIncreasePays(s, samples) && k <= |samples|
    requires forall j: nat :: j < k ==> After(s, samples, j).current < s.max
    ensures var r := After(s, samples, k);
            && r.current == Min(Climbed(s, k), s.max)
            && r.trend.Growing?
            && r.step == (if k == 0 then s.step else ClimbStep(s, k))
            && (k == 0 ==> r.last.None?)
            && (k > 0 ==> r.last == Some(samples[k - 1].Throughput())
                          && Sampled(After(s, samples, k - 1), samples[k - 1]).1.Increase?)
  {
    hide Sampled, WindowStats.Throughput, ErrorFree, After, EveryIncreasePays;
    AfterUnfolds(s, samples, k);
    if k > 0 {
      Climbs(s, samples, k - 1);
      PaysAt(s, samples, k - 1);
      ClimbsOn(After(s, samples, k - 1), samples[k - 1]);
    }
  }

  lemma ClimbUnfolds(s: Settings, k: nat)
    requires s.Valid()
    ensures Climbed(s, 0) == s.current && ClimbStep(s, 1) == s.step
    ensures Climbed(s, k + 1) == Climbed(s, k) + ClimbStep(s, k + 1)
    ensures k > 0 ==> ClimbStep(s, k + 1) == Min(ClimbStep(s, k) + ClimbStep(s, k) / 2, s.MaxStep())
  {
  }

  /** Every step is at least one, and none goes back. */
  lemma {:induction false} ClimbsAtLeast(s: Settings, j: nat, k: nat)
    requires s.Valid() && j <= k
    ensures Climbed(s, k) >= Climbed(s, j) + (k - j)
  {
    if j < k {
      ClimbsAtLeast(s, j, k - 1);
    }
  }

  lemma ClimbsFour(s: Settings, b: int, c: int, e: int)
    requires s.Valid()
    requires b == Min(s.step + s.step / 2, s.MaxStep()) && c == Min(b + b / 2, s.MaxStep())
    requires e == Min(c + c / 2, s.MaxStep())
    ensures Climbed(s, 4) == s.current + s.step + b + c + e
  {
    hide Climbed, ClimbStep, Min, Max;
    ClimbUnfolds(s, 0);
    ClimbUnfolds(s, 1);
    ClimbUnfolds(s, 2);
    ClimbUnfolds(s, 3);
  }

  /** Seven steps cover the whole range: a small range by steps of one, a larger one by the growth of the first four. */
  lemma ClimbsFast(s: Settings)
    requires s.Valid() && s.step >= Max(Max(s.max - s.min, 4) / 4, MIN_STEP)
    ensures Climbed(s, 7) >= s.max
  {
    hide Climbed, ClimbStep, Min, Max;
    var d, top := s.max - s.min, s.MaxStep();
    var b := Min(s.step + s.step / 2, top);
    var c := Min(b + b / 2, top);
    var e := Min(c + c / 2, top);
    ClimbUnfolds(s, 0);
    ClimbsAtLeast(s, 0, 7);
    ClimbsAtLeast(s, 4, 7);
    ClimbsFour(s, b, c, e);
    FourSteps(d, s.step, top, b, c, e);
  }

  lemma FourSteps(d: nat, step: nat, top: nat, b: int, c: int, e: int)
    requires step >= Max(Max(d, 4) / 4, 1) && top == Max(Max(d, 2) / 2, 1) && step <= top
    requires b == Min(step + step / 2, top) && c == Min(b + b / 2, top) && e == Min(c + c / 2, top)
    ensures d <= 7 || step + b + c + e >= d
  {
    if d > 7 {
      assert d == 2 * (d / 2) + d % 2 && d == 4 * (d / 4) + d % 4;
      assert top >= 4 && 2 * top + 1 >= d && 4 * step + 3 >= d;
      assert b == top || 2 * b >= 3 * step - 1;
      assert c == top || 2 * c >= 3 * b - 1;
      assert e == top || 2 * e >= 3 * c - 1;
    }
  }

  /** A fresh controller whose every increase pays reaches its maximum within seven samples. */
  lemma ReachesTheTop(min: nat, max: nat, initial: nat, samples: seq<WindowStats>)
    requires |samples| == 7 && EveryIncreasePays(New(min, max, initial), samples)
    ensures exists k: nat :: k <= 7 && After(New(min, max, initial), samples, k).current == Max(max, Max(min, 1))
  {
    var s := New(min, max, initial);
    if forall j: nat :: j <= 7 ==> After(s, samples, j).current < s.max {
      Climbs(s, samples, 7);
      ClimbsFast(s);
    }
  }

  predicate ErrorProne(w: WindowStats) {
    w.completed > 0 && w.ErrorRate() > ERROR_RATE_BACKOFF
  }

  /** Samples it takes to come down from `current` to `min` in steps of `step`, rounded up. */
  function StepsDown(s: Settings): nat
    requires s.Valid()
  {
    (s.current - s.min + s.step - 1) / s.step
  }

  /** Under errors the controller comes straight down, a step per sample. */
  lemma {:induction false} ComesDown(s: Settings, samples: seq<WindowStats>, k: nat)
    requires s.Valid() && k <= |samples| && forall j :: 0 <= j < |samples| ==> ErrorProne(samples[j])
    requires s.current - k * s.step > s.min - s.step
    ensures After(s, samples, k).current == Max(s.current - k * s.step, s.min)
    ensures After(s, samples, k).step == s.step
  {
    if k > 0 {
      assert k * s.step == (k - 1) * s.step + s.step;
      ComesDown(s, samples, k - 1);
    }
  }

  lemma StepsDownIsEnough(s: Settings)
    requires s.Valid()
    ensures s.current - s.min <= StepsDown(s) * s.step < s.current - s.min + s.step
  {
    var a, b := s.current - s.min + s.step - 1, s.step;
    assert a == (a / b) * b + a % b;
  }

  lemma {:induction false} FewerSteps(k: nat, n: nat, step: nat)
    requires k < n
    ensures k * step <= n * step - step
  {
    assert n * step == (n - 1) * step + step;
    if k < n - 1 {
      FewerSteps(k, n - 1, step);
    }
  }

  /** A run of windows with completions and more than 15 % errors reaches the minimum in exactly that many samples. */
  lemma ReachesTheBottom(s: Settings, samples: seq<WindowStats>)
    requires s.Valid() && |samples| == StepsDown(s)
    requires forall j :: 0 <= j < |samples| ==> ErrorProne(samples[j])
    ensures After(s, samples, |samples|).current == s.min
    ensures forall k: nat :: k < |samples| ==> After(s, samples, k).current > s.min
  {
    hide StepsDown, After, ErrorProne;
    var n := |samples|;
    StepsDownIsEnough(s);
    ComesDown(s, samples, n);
    forall k: nat | k < n ensures After(s, samples, k).current > s.min {
      FewerSteps(k, n, s.step);
      ComesDown(s, samples, k);
    }
  }
}
