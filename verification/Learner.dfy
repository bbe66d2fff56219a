/**
 The estimation learner: per category, exponential moving averages of the ratios of actual
 to estimated cost and time. Arithmetic is over the reals.
 */
module Learner {
  datatype Model = Model(costFactor: real, timeFactor: real, sampleCount: nat,
                         costErrorRate: real, timeErrorRate: real)

  datatype Sample = Sample(estimatedCost: real, actualCost: real, estimatedTime: real, actualTime: real)

  /** The model of a category before its first sample. */
  const DEFAULT_MODEL := Model(1.0, 1.0, 0, 0.0, 0.0)

  function Ratio(actual: real, estimated: real): real {
    if estimated != 0.0 then actual / estimated else 1.0
  }

  function Abs(x: real): real { if x < 0.0 then -x else x }

  function Min(x: real, y: real): real { if x <= y then x else y }

  function Blend(was: real, sample: real, alpha: real): real {
    was * (1.0 - alpha) + sample * alpha
  }

  function Clamped(alpha: real): real {
    if alpha < 0.01 then 0.01 else if alpha > 0.5 then 0.5 else alpha
  }

  function Learned(m: Model, s: Sample, alpha: real): Model {
    var cost := Ratio(s.actualCost, s.estimatedCost);
    var time := Ratio(s.actualTime, s.estimatedTime);
    Model(Blend(m.costFactor, cost, alpha), Blend(m.timeFactor, time, alpha), m.sampleCount + 1,
          Blend(m.costErrorRate, Abs(cost - 1.0), alpha), Blend(m.timeErrorRate, Abs(time - 1.0), alpha))
  }

  datatype State = State(models: map<string, Model>, alpha: real, minSamples: nat)

  const FRESH := State(map[], 0.1, 5)

  function ModelOf(s: State, category: string): Model {
    if category in s.models then s.models[category] else DEFAULT_MODEL
  }

  datatype Step =
    | Record(category: string, sample: Sample)
    | SetAlpha(alpha: real)
    | SetMinSamples(min: nat)
    | Clear

  function Apply(s: State, step: Step): State {
    match step
    case Record(c, sample) => s.(models := s.models[c := Learned(ModelOf(s, c), sample, s.alpha)])
    case SetAlpha(alpha) => s.(alpha := Clamped(alpha))
    case SetMinSamples(min) => s.(minSamples := min)
    case Clear => s.(models := map[])
  }

  function Run(s: State, steps: seq<Step>): State
    decreases |steps|
  {
    if steps == [] then s else Run(Apply(s, steps[0]), steps[1..])
  }

  class EstimationLearner {
    var models: map<string, Model>
    var alpha: real
    var minSamples: nat

    ghost function Value(): State
      reads this
    {
      State(models, alpha, minSamples)
    }

    constructor ()
      ensures Value() == FRESH && models == map[] && alpha == 0.1 && minSamples == 5
    {
      models, alpha, minSamples := map[], 0.1, 5;
    }

    method RecordSample(category: string, sample: Sample)
      modifies this
      ensures Value() == Apply(old(Value()), Record(category, sample))
    {
      if category !in models {
        models := models[category := DEFAULT_MODEL];
      }
      var m := models[category];
      m := m.(sampleCount := m.sampleCount + 1);
      var costRatio := Ratio(sample.actualCost, sample.estimatedCost);
      var timeRatio := Ratio(sample.actualTime, sample.estimatedTime);
      m := m.(costFactor := Blend(m.costFactor, costRatio, alpha));
      m := m.(timeFactor := Blend(m.timeFactor, timeRatio, alpha));
      m := m.(costErrorRate := Blend(m.costErrorRate, Abs(costRatio - 1.0), alpha));
      m := m.(timeErrorRate := Blend(m.timeErrorRate, Abs(timeRatio - 1.0), alpha));
      models := models[category := m];
      assert models == Apply(old(Value()), Record(category, sample)).models;
    }

    method ChangeAlpha(a: real)
      modifies this
      ensures Value() == Apply(old(Value()), SetAlpha(a))
      ensures 0.01 <= alpha <= 0.5 && (0.01 <= a <= 0.5 ==> alpha == a)
      ensures (a < 0.01 ==> alpha == 0.01) && (a > 0.5 ==> alpha == 0.5)
    {
      alpha := if a < 0.01 then 0.01 else if a > 0.5 then 0.5 else a;
    }
  }

  /** The adjusted cost and time: scaled once there are enough samples. */
  function Adjust(s: State, category: string, cost: real, time: real): (real, real) {
    if category in s.models && s.models[category].sampleCount >= s.minSamples
    then (cost * s.models[category].costFactor, time * s.models[category].timeFactor)
    else (cost, time)
  }

  function Confidence(s: State, category: string): real {
    if category !in s.models then 0.2 else
    var m := s.models[category];
    if m.sampleCount < s.minSamples then 0.3 else
    var sampleFactor := Min(m.sampleCount as real / 100.0, 1.0);
    var errorFactor := 1.0 - Min((m.costErrorRate + m.timeErrorRate) / 2.0, 1.0);
    0.5 + sampleFactor * 0.3 + errorFactor * 0.2
  }

  // ---------- Averages stay between what was seen ----------

  function CostRatio(x: Sample): real { Ratio(x.actualCost, x.estimatedCost) }

  function TimeRatio(x: Sample): real { Ratio(x.actualTime, x.estimatedTime) }

  predicate Within(x: real, lo: real, hi: real) { lo <= x <= hi }

  lemma BlendWithin(was: real, sample: real, alpha: real, lo: real, hi: real)
    requires Within(was, lo, hi) && Within(sample, lo, hi) && 0.0 <= alpha <= 1.0
    ensures Within(Blend(was, sample, alpha), lo, hi)
  {
    var k := 1.0 - alpha;
    Product(was - lo, k);
    Product(sample - lo, alpha);
    Product(hi - was, k);
    Product(hi - sample, alpha);
    assert Blend(was, sample, alpha) - lo == (was - lo) * k + (sample - lo) * alpha;
    assert hi - Blend(was, sample, alpha) == (hi - was) * k + (hi - sample) * alpha;
  }

  lemma Product(x: real, y: real)
    requires 0.0 <= x && 0.0 <= y
    ensures 0.0 <= x * y
  {
  }

  predicate AlphaOk(s: State) { 0.0 < s.alpha <= 0.5 }

  /** What the step records of the category, if anything, has its ratio in the interval. */
  predicate RatioWithin(step: Step, category: string, lo: real, hi: real, ratioOf: Sample -> real) {
    step.Record? && step.category == category ==> Within(ratioOf(step.sample), lo, hi)
  }

  /** A part of the model is the moving average of a quantity of the samples. */
  ghost predicate Averages(part: Model -> real, quantity: Sample -> real) {
    forall m: Model, x: Sample, alpha: real {:trigger Learned(m, x, alpha)} ::
      part(Learned(m, x, alpha)) == Blend(part(m), quantity(x), alpha)
  }

  lemma {:induction false} StaysWithin(
    part: Model -> real, quantity: Sample -> real, s: State, steps: seq<Step>, category: string, lo: real, hi: real)
    requires Averages(part, quantity) && Within(part(DEFAULT_MODEL), lo, hi)
    requires AlphaOk(s) && Within(part(ModelOf(s, category)), lo, hi)
    requires forall step | step in steps :: RatioWithin(step, category, lo, hi, quantity)
    ensures Within(part(ModelOf(Run(s, steps), category)), lo, hi)
    decreases |steps|
  {
    if steps != [] {
      var step := steps[0];
      assert step in steps;
      if step.Record? && step.category == category {
        BlendWithin(part(ModelOf(s, category)), quantity(step.sample), s.alpha, lo, hi);
      }
      StaysWithin(part, quantity, Apply(s, step), steps[1..], category, lo, hi);
    }
  }

  /** Whatever is recorded, cleared or re-tuned, also of other categories: a category's cost
      factor lies in any interval that holds 1 and its own cost ratios. */
  lemma CostFactorInHull(steps: seq<Step>, category: string, lo: real, hi: real)
    requires lo <= 1.0 <= hi && forall step | step in steps :: RatioWithin(step, category, lo, hi, CostRatio)
    ensures Within(ModelOf(Run(FRESH, steps), category).costFactor, lo, hi)
  {
    StaysWithin((m: Model) => m.costFactor, CostRatio, FRESH, steps, category, lo, hi);
  }

  /** And its time factor in any that holds 1 and its own time ratios. */
  lemma TimeFactorInHull(steps: seq<Step>, category: string, lo: real, hi: real)
    requires lo <= 1.0 <= hi && forall step | step in steps :: RatioWithin(step, category, lo, hi, TimeRatio)
    ensures Within(ModelOf(Run(FRESH, steps), category).timeFactor, lo, hi)
  {
    StaysWithin((m: Model) => m.timeFactor, TimeRatio, FRESH, steps, category, lo, hi);
  }

  /** A ratio is what the estimate has to be multiplied with, and 1 if there was no estimate. */
  lemma RatioScalesEstimate(actual: real, estimated: real)
    ensures estimated != 0.0 ==> estimated * Ratio(actual, estimated) == actual
    ensures estimated == 0.0 ==> Ratio(actual, estimated) == 1.0
  {
  }

  /** Durations are not negative. */
  predicate DurationsOk(step: Step) {
    step.Record? ==> step.sample.estimatedTime >= 0.0 && step.sample.actualTime >= 0.0
  }

  ghost predicate TimesOk(s: State) {
    && AlphaOk(s)
    && forall c | c in s.models ::
      && 0.0 <= s.models[c].timeFactor && 0.0 <= s.models[c].costErrorRate && 0.0 <= s.models[c].timeErrorRate
  }

  lemma BlendNonNegative(was: real, sample: real, alpha: real)
    requires 0.0 <= was && 0.0 <= sample && 0.0 <= alpha <= 1.0
    ensures 0.0 <= Blend(was, sample, alpha)
  {
    BlendWithin(was, sample, alpha, 0.0, was + sample);
  }

  lemma {:induction false} RunKeepsTimes(s: State, steps: seq<Step>)
    requires TimesOk(s) && forall step | step in steps :: DurationsOk(step)
    ensures TimesOk(Run(s, steps))
    decreases |steps|
  {
    if steps != [] {
      var step := steps[0];
      assert step in steps;
      if step.Record? {
        var m, x := ModelOf(s, step.category), step.sample;
        var cost, time := Ratio(x.actualCost, x.estimatedCost), Ratio(x.actualTime, x.estimatedTime);
        assert 0.0 <= time;
        BlendNonNegative(m.timeFactor, time, s.alpha);
        BlendNonNegative(m.costErrorRate, Abs(cost - 1.0), s.alpha);
        BlendNonNegative(m.timeErrorRate, Abs(time - 1.0), s.alpha);
      }
      RunKeepsTimes(Apply(s, step), steps[1..]);
    }
  }

  /** An adjusted duration is never negative, which converting it back would refuse, and the
      confidence reaches one half exactly when there are enough samples. */
  lemma AdjustmentIsSafe(steps: seq<Step>, category: string, cost: real, time: real)
    requires time >= 0.0 && forall step | step in steps :: DurationsOk(step)
    ensures var s := Run(FRESH, steps);
            && Adjust(s, category, cost, time).1 >= 0.0
            && 0.2 <= Confidence(s, category) <= 1.0
            && (Confidence(s, category) >= 0.5 <==>
                category in s.models && s.models[category].sampleCount >= s.minSamples)
  {
    var s := Run(FRESH, steps);
    RunKeepsTimes(FRESH, steps);
    if category in s.models {
      Product(time, s.models[category].timeFactor);
    }
  }

  // ---------- A steady ratio ----------

  function Pow(x: real, n: nat): real {
    if n == 0 then 1.0 else x * Pow(x, n - 1)
  }

  /** The distance to the ratio has shrunk by the same factor with each of n samples. */
  predicate Approaches(now: real, was: real, ratio: real, alpha: real, n: nat) {
    now - ratio == Pow(1.0 - alpha, n) * (was - ratio)
  }

  lemma ApproachStep(was: real, now: real, ratio: real, alpha: real, n: nat)
    requires Approaches(now, Blend(was, ratio, alpha), ratio, alpha, n)
    ensures Approaches(now, was, ratio, alpha, n + 1)
  {
    var k, p := 1.0 - alpha, Pow(1.0 - alpha, n);
    assert Blend(was, ratio, alpha) - ratio == k * (was - ratio);
    assert p * (k * (was - ratio)) == k * p * (was - ratio);
  }

  /** How many of the steps record the category. */
  function Records(steps: seq<Step>, category: string): nat {
    if steps == [] then 0
    else (if steps[0].Record? && steps[0].category == category then 1 else 0) + Records(steps[1..], category)
  }

  /** Keeps the averages running, and what it records of the category has the given ratio. */
  predicate Steady(step: Step, category: string, ratio: real, ratioOf: Sample -> real) {
    && !step.SetAlpha? && !step.Clear?
    && (step.Record? && step.category == category ==> ratioOf(step.sample) == ratio)
  }

  lemma {:induction false} SteadyPart(
    part: Model -> real, quantity: Sample -> real, s: State, steps: seq<Step>, category: string, value: real)
    requires Averages(part, quantity)
    requires forall step | step in steps :: Steady(step, category, value, quantity)
    ensures Approaches(part(ModelOf(Run(s, steps), category)), part(ModelOf(s, category)),
                       value, s.alpha, Records(steps, category))
    decreases |steps|
  {
    if steps != [] {
      var step, was := steps[0], part(ModelOf(s, category));
      assert step in steps;
      SteadyPart(part, quantity, Apply(s, step), steps[1..], category, value);
      if step.Record? && step.category == category {
        ApproachStep(was, part(ModelOf(Run(s, steps), category)), value, s.alpha, Records(steps[1..], category));
      }
    }
  }

  /** While alpha stays and all samples of a category have one cost ratio, its cost factor
      approaches it geometrically, and the error rate the ratio's distance from 1, whatever the
      samples are and whatever else is recorded. */
  lemma SteadyCost(s: State, steps: seq<Step>, category: string, ratio: real)
    requires forall step | step in steps :: Steady(step, category, ratio, CostRatio)
    ensures var was, now, n := ModelOf(s, category), ModelOf(Run(s, steps), category), Records(steps, category);
            && Approaches(now.costFactor, was.costFactor, ratio, s.alpha, n)
            && Approaches(now.costErrorRate, was.costErrorRate, Abs(ratio - 1.0), s.alpha, n)
  {
    var error := (x: Sample) => Abs(CostRatio(x) - 1.0);
    forall step | step in steps ensures Steady(step, category, Abs(ratio - 1.0), error) {
      assert Steady(step, category, ratio, CostRatio);
    }
    SteadyPart((m: Model) => m.costFactor, CostRatio, s, steps, category, ratio);
    SteadyPart((m: Model) => m.costErrorRate, error, s, steps, category, Abs(ratio - 1.0));
  }

  /** The same of the time factor, its error rate and one time ratio. */
  lemma SteadyTime(s: State, steps: seq<Step>, category: string, ratio: real)
    requires forall step | step in steps :: Steady(step, category, ratio, TimeRatio)
    ensures var was, now, n := ModelOf(s, category), ModelOf(Run(s, steps), category), Records(steps, category);
            && Approaches(now.timeFactor, was.timeFactor, ratio, s.alpha, n)
            && Approaches(now.timeErrorRate, was.timeErrorRate, Abs(ratio - 1.0), s.alpha, n)
  {
    var error := (x: Sample) => Abs(TimeRatio(x) - 1.0);
    forall step | step in steps ensures Steady(step, category, Abs(ratio - 1.0), error) {
      assert Steady(step, category, ratio, TimeRatio);
    }
    SteadyPart((m: Model) => m.timeFactor, TimeRatio, s, steps, category, ratio);
    SteadyPart((m: Model) => m.timeErrorRate, error, s, steps, category, Abs(ratio - 1.0));
  }

  /** A model counts its category's records since the last clear, and exists once there is one. */
  lemma {:induction false} SamplesAreCounted(s: State, steps: seq<Step>, category: string)
    requires forall step | step in steps :: !step.Clear?
    requires category in s.models <==> ModelOf(s, category).sampleCount > 0
    ensures var s' := Run(s, steps);
            && ModelOf(s', category).sampleCount == ModelOf(s, category).sampleCount + Records(steps, category)
            && (category in s'.models <==> ModelOf(s', category).sampleCount > 0)
    decreases |steps|
  {
    if steps != [] {
      assert steps[0] in steps;
      SamplesAreCounted(Apply(s, steps[0]), steps[1..], category);
    }
  }

  /** The ratio, less what n samples leave of the distance from 1. */
  function Reached(ratio: real, n: nat): real { ratio + Pow(0.9, n) * (1.0 - ratio) }

  lemma ApproachedFromOne(now: real, ratio: real, n: nat)
    requires Approaches(now, 1.0, ratio, 0.1, n)
    ensures now == Reached(ratio, n)
  {
    assert 1.0 - 0.1 == 0.9;
  }

  /** An estimate is left alone until the category has enough samples. From then on, after n
      samples of one cost ratio and one time ratio, it is multiplied by what n samples reach. */
  lemma AdjustFollowsRatio(steps: seq<Step>, category: string, r: real, t: real, cost: real, time: real)
    requires forall step | step in steps :: Steady(step, category, r, CostRatio) && Steady(step, category, t, TimeRatio)
    ensures var s, n := Run(FRESH, steps), Records(steps, category);
            var enough := n > 0 && n >= s.minSamples;
            && Adjust(s, category, cost, time).0 == (if enough then cost * Reached(r, n) else cost)
            && Adjust(s, category, cost, time).1 == (if enough then time * Reached(t, n) else time)
  {
    SamplesAreCounted(FRESH, steps, category);
    SteadyCost(FRESH, steps, category, r);
    SteadyTime(FRESH, steps, category, t);
    var m := ModelOf(Run(FRESH, steps), category);
    ApproachedFromOne(m.costFactor, r, Records(steps, category));
    ApproachedFromOne(m.timeFactor, t, Records(steps, category));
  }

  /** Clearing forgets every category, and a new minimum decides at once which are known. */
  lemma SettingsTakeEffect(s: State, category: string, min: nat, cost: real, time: real)
    ensures var cleared := Apply(s, Clear);
            && Confidence(cleared, category) == 0.2 && cleared.alpha == s.alpha && cleared.minSamples == s.minSamples
            && Adjust(cleared, category, cost, time).0 == cost && Adjust(cleared, category, cost, time).1 == time
    ensures category in s.models ==>
              (Confidence(Apply(s, SetMinSamples(min)), category) == 0.3 <==> s.models[category].sampleCount < min)
  {
  }

  /** Confidence is full exactly with a hundred samples or more and no error, a further sample
      below that adds 0.003, and the mean error takes away a fifth of itself up to 1. */
  lemma ConfidenceExactly(s: State, category: string)
    requires category in s.models && s.models[category].sampleCount >= s.minSamples
    requires s.models[category].costErrorRate >= 0.0 && s.models[category].timeErrorRate >= 0.0
    ensures var m := s.models[category];
            var error := m.costErrorRate + m.timeErrorRate;
            && (Confidence(s, category) == 1.0 <==> m.sampleCount >= 100 && error == 0.0)
            && (m.sampleCount <= 100 && error <= 2.0 ==>
                Confidence(s, category) == 0.7 + m.sampleCount as real * 0.003 - error * 0.1)
            && (error >= 2.0 ==> Confidence(s, category) <= 0.8)
  {
  }
}
