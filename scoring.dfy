/** The composite urban health score of `_calculate_city_health_score` and the
    colour bands of `_get_health_color_hex`. Arithmetic is exact (`real`). */
module Scoring {
  import opened Wrappers

  /** The indicator values the score reads; `None` marks a value that no provider
      supplied. */
  datatype ScoreInputs = ScoreInputs(
    airQualityIndex: Option<real>,
    pm25Concentration: Option<real>,
    greenSpaceRatio: Option<real>,
    ndviValue: Option<real>,
    temperatureAvg: Option<real>,
    humidityAvg: Option<real>,
    populationDensity: Option<real>,
    noisePollutionDb: Option<real>,
    healthcareAccessibility: Option<real>)

  /** The five scoring categories, in the order the score visits them. */
  datatype Category = Air | Green | Climate | Urban | Healthcare

  function Rank(c: Category): nat {
    match c
    case Air => 0
    case Green => 1
    case Climate => 2
    case Urban => 3
    case Healthcare => 4
  }

  /** The fixed category weights. */
  function Weight(c: Category): real {
    match c
    case Air => 0.30
    case Green => 0.25
    case Climate => 0.20
    case Urban => 0.15
    case Healthcare => 0.10
  }

  /** `np.clip(x, lo, hi)`. */
  function Clip(x: real, lo: real, hi: real): (r: real)
    requires lo <= hi
    ensures lo <= r <= hi
    ensures lo <= x <= hi ==> r == x
    ensures x < lo ==> r == lo
    ensures x > hi ==> r == hi
  {
    if x < lo then lo else if x > hi then hi else x
  }

  function Abs(x: real): real {
    if x < 0.0 then -x else x
  }

  /** Air quality: 60% AQI score (300 and above scores 0), 40% PM2.5 score
      (50 and above scores 0). */
  function AirScore(aqi: real, pm25: real): (r: real)
    ensures 0.0 <= r <= 100.0
    ensures aqi <= 0.0 && pm25 <= 0.0 ==> r == 100.0
    ensures aqi >= 300.0 && pm25 >= 50.0 ==> r == 0.0
  {
    var aqiScore := Clip(100.0 - aqi / 300.0 * 100.0, 0.0, 100.0);
    var pm25Score := Clip(100.0 - pm25 / 50.0 * 100.0, 0.0, 100.0);
    aqiScore * 0.6 + pm25Score * 0.4
  }

  /** Green space: 60% green-space ratio, 40% NDVI mapped from [-1,1] to [0,100].
      Neither part is clipped. */
  function GreenScore(ratio: real, ndvi: real): (r: real)
    ensures 0.0 <= ratio <= 1.0 && -1.0 <= ndvi <= 1.0 ==> 0.0 <= r <= 100.0
  {
    var greenScore := ratio * 100.0;
    var ndviScore := (ndvi + 1.0) / 2.0 * 100.0;
    greenScore * 0.6 + ndviScore * 0.4
  }

  /** Climate: 60% temperature (full marks in [18,26] degrees, minus 3 per degree
      from 22 outside it), 40% humidity (full marks in [40,60] %, minus 2 per point
      from 50 outside it). */
  function ClimateScore(temperature: real, humidity: real): (r: real)
    ensures 0.0 <= r <= 100.0
    ensures 18.0 <= temperature <= 26.0 && 40.0 <= humidity <= 60.0 ==> r == 100.0
  {
    var tempOptimal := if 18.0 <= temperature <= 26.0 then 100.0
                       else 100.0 - Abs(temperature - 22.0) * 3.0;
    var humidityOptimal := if 40.0 <= humidity <= 60.0 then 100.0
                           else 100.0 - Abs(humidity - 50.0) * 2.0;
    Clip(tempOptimal, 0.0, 100.0) * 0.6 + Clip(humidityOptimal, 0.0, 100.0) * 0.4
  }

  /** Urban environment: the mean of a density score (full marks in
      [2000,8000] per km2, minus 1 per 100 from 5000 outside it) and a noise score
      (minus 2 per dB above 40). */
  function UrbanScore(density: real, noiseDb: real): (r: real)
    ensures 0.0 <= r <= 100.0
  {
    var densityOptimal := if 2000.0 <= density <= 8000.0 then 100.0
                          else 100.0 - Abs(density - 5000.0) / 100.0;
    var noiseScore := Clip(100.0 - (noiseDb - 40.0) * 2.0, 0.0, 100.0);
    Clip(densityOptimal, 0.0, 100.0) * 0.5 + noiseScore * 0.5
  }

  /** Healthcare access on a 0..10 scale, stretched to 0..100 and not clipped. */
  function HealthcareScore(accessibility: real): (r: real)
    ensures 0.0 <= accessibility <= 10.0 ==> 0.0 <= r <= 100.0
  {
    accessibility / 10.0 * 100.0
  }

  /** A category takes part only when every input it needs is present. */
  predicate Complete(inputs: ScoreInputs, c: Category) {
    match c
    case Air => inputs.airQualityIndex.Some? && inputs.pm25Concentration.Some?
    case Green => inputs.greenSpaceRatio.Some? && inputs.ndviValue.Some?
    case Climate => inputs.temperatureAvg.Some? && inputs.humidityAvg.Some?
    case Urban => inputs.populationDensity.Some? && inputs.noisePollutionDb.Some?
    case Healthcare => inputs.healthcareAccessibility.Some?
  }

  function SubScore(inputs: ScoreInputs, c: Category): real
    requires Complete(inputs, c)
  {
    match c
    case Air => AirScore(inputs.airQualityIndex.value, inputs.pm25Concentration.value)
    case Green => GreenScore(inputs.greenSpaceRatio.value, inputs.ndviValue.value)
    case Climate => ClimateScore(inputs.temperatureAvg.value, inputs.humidityAvg.value)
    case Urban => UrbanScore(inputs.populationDensity.value, inputs.noisePollutionDb.value)
    case Healthcare => HealthcareScore(inputs.healthcareAccessibility.value)
  }

  const AllCategories: seq<Category> := [Air, Green, Climate, Urban, Healthcare]

  /** The categories of `cats` with complete data, in the order of `cats`. */
  function IncludedAmong(inputs: ScoreInputs, cats: seq<Category>): seq<Category>
    decreases |cats|
  {
    if cats == [] then []
    else
      var last := cats[|cats| - 1];
      IncludedAmong(inputs, cats[..|cats| - 1]) + (if Complete(inputs, last) then [last] else [])
  }

  /** No category is listed twice. */
  predicate Distinct(cs: seq<Category>) {
    forall i, j :: 0 <= i < j < |cs| ==> cs[i] != cs[j]
  }

  /** Filtering keeps exactly the complete categories of `cats`, each once when
      `cats` lists each once. */
  lemma {:induction false} IncludedAmongSpec(inputs: ScoreInputs, cats: seq<Category>)
    requires Distinct(cats)
    ensures forall c :: c in IncludedAmong(inputs, cats) <==> c in cats && Complete(inputs, c)
    ensures Distinct(IncludedAmong(inputs, cats))
    decreases |cats|
  {
    if cats != [] {
      var init := cats[..|cats| - 1];
      var last := cats[|cats| - 1];
      assert Distinct(init);
      IncludedAmongSpec(inputs, init);
      assert cats == init + [last];
      assert last !in init;
      var prefix := IncludedAmong(inputs, init);
      var cs := IncludedAmong(inputs, cats);
      if Complete(inputs, last) {
        assert cs == prefix + [last];
        forall i, j | 0 <= i < j < |cs| ensures cs[i] != cs[j] {
          if j == |prefix| {
            assert cs[i] == prefix[i] && prefix[i] in prefix;
          } else {
            assert cs[i] == prefix[i] && cs[j] == prefix[j];
          }
        }
      } else {
        assert cs == prefix;
      }
    }
  }

  lemma AllCategoriesDistinct()
    ensures Distinct(AllCategories)
  {
    forall i | 0 <= i < |AllCategories| ensures Rank(AllCategories[i]) == i {
    }
  }

  /** The categories that take part, each once, in the score's fixed order. */
  function IncludedCategories(inputs: ScoreInputs): (cs: seq<Category>)
    ensures forall c :: c in cs <==> Complete(inputs, c)
    ensures Distinct(cs)
  {
    AllCategoriesDistinct();
    IncludedAmongSpec(inputs, AllCategories);
    IncludedAmong(inputs, AllCategories)
  }

  /** One more category of the fixed order has been visited. */
  lemma IncludedStep(inputs: ScoreInputs, k: nat)
    requires k < |AllCategories|
    ensures IncludedAmong(inputs, AllCategories[..k + 1])
            == IncludedAmong(inputs, AllCategories[..k])
               + (if Complete(inputs, AllCategories[k]) then [AllCategories[k]] else [])
  {
    assert AllCategories[..k + 1][..k] == AllCategories[..k];
  }

  /** The included categories in closed form: each of the five in turn, when
      complete. */
  lemma IncludedCategoriesUnfold(inputs: ScoreInputs)
    ensures IncludedCategories(inputs)
            == (if Complete(inputs, Air) then [Air] else [])
               + (if Complete(inputs, Green) then [Green] else [])
               + (if Complete(inputs, Climate) then [Climate] else [])
               + (if Complete(inputs, Urban) then [Urban] else [])
               + (if Complete(inputs, Healthcare) then [Healthcare] else [])
  {
    var a := if Complete(inputs, Air) then [Air] else [];
    var g := if Complete(inputs, Green) then [Green] else [];
    var c := if Complete(inputs, Climate) then [Climate] else [];
    var u := if Complete(inputs, Urban) then [Urban] else [];
    var h := if Complete(inputs, Healthcare) then [Healthcare] else [];
    assert IncludedAmong(inputs, AllCategories[..1]) == a by {
      assert AllCategories[..0] == [];
      IncludedStep(inputs, 0);
    }
    assert IncludedAmong(inputs, AllCategories[..2]) == a + g by { IncludedStep(inputs, 1); }
    assert IncludedAmong(inputs, AllCategories[..3]) == a + g + c by { IncludedStep(inputs, 2); }
    assert IncludedAmong(inputs, AllCategories[..4]) == a + g + c + u by { IncludedStep(inputs, 3); }
    assert IncludedAmong(inputs, AllCategories) == a + g + c + u + h by {
      IncludedStep(inputs, 4);
      assert AllCategories[..5] == AllCategories;
    }
  }

  function Sum(xs: seq<real>): real
    decreases |xs|
  {
    if xs == [] then 0.0 else Sum(xs[..|xs| - 1]) + xs[|xs| - 1]
  }

  /** `sum(s * w for s, w in zip(scores, weights))`. */
  function Dot(scores: seq<real>, weights: seq<real>): real
    requires |scores| == |weights|
    decreases |scores|
  {
    if scores == [] then 0.0
    else Dot(scores[..|scores| - 1], weights[..|weights| - 1])
         + scores[|scores| - 1] * weights[|weights| - 1]
  }

  /** `[w / total for w in weights]`. */
  function Scale(weights: seq<real>, total: real): (r: seq<real>)
    requires total != 0.0
    ensures |r| == |weights| && forall i :: 0 <= i < |r| ==> r[i] == weights[i] / total
  {
    seq(|weights|, i requires 0 <= i < |weights| => weights[i] / total)
  }

  function Weights(cs: seq<Category>): (ws: seq<real>)
    ensures |ws| == |cs| && forall i :: 0 <= i < |cs| ==> ws[i] == Weight(cs[i]) > 0.0
  {
    seq(|cs|, i requires 0 <= i < |cs| => Weight(cs[i]))
  }

  function SubScores(inputs: ScoreInputs, cs: seq<Category>): (ss: seq<real>)
    requires forall c :: c in cs ==> Complete(inputs, c)
    ensures |ss| == |cs| && forall i :: 0 <= i < |cs| ==> ss[i] == SubScore(inputs, cs[i])
  {
    seq(|cs|, i requires 0 <= i < |cs| => SubScore(inputs, cs[i]))
  }

  /** Appending a category appends its weight and its sub-score. */
  lemma Extend(inputs: ScoreInputs, cs: seq<Category>, c: Category)
    requires forall d :: d in cs ==> Complete(inputs, d)
    requires Complete(inputs, c)
    ensures Weights(cs + [c]) == Weights(cs) + [Weight(c)]
    ensures SubScores(inputs, cs + [c]) == SubScores(inputs, cs) + [SubScore(inputs, c)]
  {
  }

  /** A non-empty sum of positive terms is positive. */
  lemma {:induction false} SumPositive(xs: seq<real>)
    requires xs != [] && forall i :: 0 <= i < |xs| ==> xs[i] > 0.0
    ensures Sum(xs) > 0.0
    decreases |xs|
  {
    if |xs| > 1 {
      SumPositive(xs[..|xs| - 1]);
    }
  }

  /** The weighted mean of the sub-scores over the included categories, each
      weight divided by the total weight of those categories. */
  function WeightedMean(inputs: ScoreInputs): real
    requires IncludedCategories(inputs) != []
  {
    var cs := IncludedCategories(inputs);
    SumPositive(Weights(cs));
    Dot(SubScores(inputs, cs), Weights(cs)) / Sum(Weights(cs))
  }

  /** The composite score: the weighted mean over the categories with complete
      data, clipped to [0,100]; the neutral 50 when no category is complete. */
  function HealthScore(inputs: ScoreInputs): (score: real)
    ensures 0.0 <= score <= 100.0
    ensures IncludedCategories(inputs) == [] ==> score == 50.0
  {
    if IncludedCategories(inputs) == [] then 50.0
    else Clip(WeightedMean(inputs), 0.0, 100.0)
  }

  /** Dividing every weight by their total divides the weighted sum by it. */
  lemma {:induction false} DotScaled(scores: seq<real>, weights: seq<real>, total: real)
    requires |scores| == |weights| && total != 0.0
    ensures Dot(scores, Scale(weights, total)) == Dot(scores, weights) / total
    decreases |scores|
  {
    if scores == [] {
      DivZero(total);
    } else {
      var n := |scores| - 1;
      var scaled := Scale(weights, total);
      assert scaled[..n] == Scale(weights[..n], total);
      DotScaled(scores[..n], weights[..n], total);
      ScaleStep(Dot(scores[..n], weights[..n]), Dot(scores[..n], scaled[..n]), scores[n], weights[n],
                scaled[n], total, Dot(scores, weights), Dot(scores, scaled));
    }
  }

  /** Zero divided by anything non-zero is zero. */
  lemma DivZero(total: real)
    requires total != 0.0
    ensures 0.0 / total == 0.0
  {
  }

  /** One more term of a weighted sum, with its weight divided by the total. */
  lemma ScaleStep(d0: real, e0: real, x: real, w: real, wt: real, total: real, d: real, e: real)
    requires total != 0.0
    requires e0 == d0 / total && wt == w / total
    requires d == d0 + x * w && e == e0 + x * wt
    ensures e == d / total
  {
  }

  /** Dividing every term by the total divides the sum by it. */
  lemma {:induction false} SumScaled(xs: seq<real>, total: real)
    requires total != 0.0
    ensures Sum(Scale(xs, total)) == Sum(xs) / total
    decreases |xs|
  {
    if xs == [] {
      DivZero(total);
    } else {
      var n := |xs| - 1;
      assert Scale(xs, total)[..n] == Scale(xs[..n], total);
      SumScaled(xs[..n], total);
    }
  }

  /** A non-zero quantity divided by itself is 1. */
  lemma DivSelf(x: real)
    requires x != 0.0
    ensures x / x == 1.0
  {
  }

  /** Multiplying by and then dividing by the same non-zero weight is the
      identity. */
  lemma MulDivCancel(x: real, w: real)
    requires w != 0.0
    ensures x * w / w == x
  {
  }

  /** For every non-empty set of included categories, the renormalised weights
      sum to exactly 1. */
  lemma NormalizedWeightsSumToOne(cs: seq<Category>)
    requires cs != []
    ensures Sum(Weights(cs)) > 0.0
    ensures Sum(Scale(Weights(cs), Sum(Weights(cs)))) == 1.0
  {
    var total := Sum(Weights(cs));
    SumPositive(Weights(cs));
    SumScaled(Weights(cs), total);
    DivSelf(total);
  }

  /** With all five categories present the fixed weights already sum to 1. */
  lemma AllWeightsSumToOne()
    ensures Sum(Weights(AllCategories)) == 1.0
  {
    var ws := Weights(AllCategories);
    assert ws == [0.30, 0.25, 0.20, 0.15, 0.10];
    assert Sum([]) == 0.0;
    assert Sum([0.30]) == 0.30 by { assert [0.30][..0] == []; }
    assert Sum([0.30, 0.25]) == 0.55 by { assert [0.30, 0.25][..1] == [0.30]; }
    assert Sum([0.30, 0.25, 0.20]) == 0.75 by { assert [0.30, 0.25, 0.20][..2] == [0.30, 0.25]; }
    assert Sum([0.30, 0.25, 0.20, 0.15]) == 0.90 by {
      assert [0.30, 0.25, 0.20, 0.15][..3] == [0.30, 0.25, 0.20];
    }
    assert ws[..4] == [0.30, 0.25, 0.20, 0.15];
  }

  /** Multiplying by a non-negative weight keeps an inequality. */
  lemma MulLe(a: real, b: real, w: real)
    requires a <= b && w >= 0.0
    ensures a * w <= b * w
  {
  }

  /** Multiplying by a positive weight keeps a strict inequality. */
  lemma MulLt(a: real, b: real, w: real)
    requires a < b && w > 0.0
    ensures a * w < b * w
  {
  }

  /** Multiplication distributes over a total made of two parts. */
  lemma MulAdd(a: real, total: real, x: real, y: real)
    requires total == x + y
    ensures a * total == a * x + a * y
  {
  }

  /** A weighted sum `d` with total weight `s` lies between `lo` and `hi` times
      the total. */
  predicate Between(lo: real, hi: real, d: real, s: real) {
    lo * s <= d <= hi * s
  }

  /** One more positively weighted term within [lo, hi] keeps a weighted sum
      between lo and hi times the total weight. */
  lemma BoundStep(lo: real, hi: real, d0: real, s0: real, x: real, w: real, d: real, s: real)
    requires Between(lo, hi, d0, s0)
    requires lo <= x <= hi && w > 0.0
    requires d == d0 + x * w && s == s0 + w
    ensures Between(lo, hi, d, s)
  {
    MulAdd(lo, s, s0, w);
    MulAdd(hi, s, s0, w);
    MulLe(lo, x, w);
    MulLe(x, hi, w);
  }

  /** A weighted sum with positive weights lies between the smallest and the
      largest score times the total weight. */
  lemma {:induction false} DotBounds(scores: seq<real>, weights: seq<real>, lo: real, hi: real)
    requires |scores| == |weights|
    requires forall i :: 0 <= i < |weights| ==> weights[i] > 0.0
    requires forall i :: 0 <= i < |scores| ==> lo <= scores[i] <= hi
    ensures Between(lo, hi, Dot(scores, weights), Sum(weights))
    decreases |scores|
  {
    if scores == [] {
      MulAdd(lo, Sum(weights), 0.0, 0.0);
      MulAdd(hi, Sum(weights), 0.0, 0.0);
    } else {
      var n := |scores| - 1;
      DotBounds(scores[..n], weights[..n], lo, hi);
      BoundStep(lo, hi, Dot(scores[..n], weights[..n]), Sum(weights[..n]), scores[n], weights[n],
                Dot(scores, weights), Sum(weights));
    }
  }

  /** Dividing bounds by a positive total. */
  lemma DivBounds(d: real, s: real, lo: real, hi: real)
    requires s > 0.0 && Between(lo, hi, d, s)
    ensures lo <= d / s <= hi
  {
    assert lo * s <= d <= hi * s;
    var q := d / s;
    assert q * s == d;
    if q < lo { MulLt(q, lo, s); }
    if q > hi { MulLt(hi, q, s); }
  }

  /** A weighted mean with positive weights lies between the bounds of its
      scores. */
  lemma MeanWithin(scores: seq<real>, weights: seq<real>, lo: real, hi: real)
    requires |scores| == |weights| && weights != []
    requires forall i :: 0 <= i < |weights| ==> weights[i] > 0.0
    requires forall i :: 0 <= i < |scores| ==> lo <= scores[i] <= hi
    ensures Sum(weights) > 0.0
    ensures lo <= Dot(scores, weights) / Sum(weights) <= hi
  {
    SumPositive(weights);
    DotBounds(scores, weights, lo, hi);
    DivBounds(Dot(scores, weights), Sum(weights), lo, hi);
  }

  /** The renormalised mean is a convex combination: it lies between the bounds of
      the included sub-scores. */
  lemma WeightedMeanWithin(inputs: ScoreInputs, lo: real, hi: real)
    requires IncludedCategories(inputs) != []
    requires forall c :: Complete(inputs, c) ==> lo <= SubScore(inputs, c) <= hi
    ensures lo <= WeightedMean(inputs) <= hi
  {
    var cs := IncludedCategories(inputs);
    var ws := Weights(cs);
    var ss := SubScores(inputs, cs);
    forall i | 0 <= i < |cs| ensures lo <= ss[i] <= hi {
      assert cs[i] in cs;
    }
    MeanWithin(ss, ws, lo, hi);
  }

  /** Indicators within their physical ranges: a green-space ratio in [0,1], an
      NDVI in [-1,1] and healthcare access in [0,10] (the others are clipped
      within their sub-scores). */
  predicate InPhysicalRange(inputs: ScoreInputs) {
    && (inputs.greenSpaceRatio.Some? ==> 0.0 <= inputs.greenSpaceRatio.value <= 1.0)
    && (inputs.ndviValue.Some? ==> -1.0 <= inputs.ndviValue.value <= 1.0)
    && (inputs.healthcareAccessibility.Some? ==> 0.0 <= inputs.healthcareAccessibility.value <= 10.0)
  }

  /** For in-range indicators the final clip never changes the weighted mean. */
  lemma ClipInactiveInRange(inputs: ScoreInputs)
    requires InPhysicalRange(inputs) && IncludedCategories(inputs) != []
    ensures HealthScore(inputs) == WeightedMean(inputs)
  {
    forall c | Complete(inputs, c) ensures 0.0 <= SubScore(inputs, c) <= 100.0 {
    }
    WeightedMeanWithin(inputs, 0.0, 100.0);
  }

  /** The weighted sum of a single score is that score times its weight. */
  lemma DotSingle(x: real, w: real)
    ensures Dot([x], [w]) == x * w
  {
    assert [x][..0] == [] && [w][..0] == [];
  }

  /** A single complete category gets all the weight: the score is its sub-score. */
  lemma SingleCategoryScore(inputs: ScoreInputs, c: Category)
    requires IncludedCategories(inputs) == [c]
    ensures Complete(inputs, c)
    ensures HealthScore(inputs) == Clip(SubScore(inputs, c), 0.0, 100.0)
  {
    assert c in IncludedCategories(inputs);
    var x := SubScore(inputs, c);
    var w := Weight(c);
    assert Weights([c]) == [w] && SubScores(inputs, [c]) == [x];
    assert Sum([w]) == w by { assert [w][..0] == []; }
    DotSingle(x, w);
    MulDivCancel(x, w);
  }

  /** Air data only (AQI 45, PM2.5 12): 0.6 * 85 + 0.4 * 76 = 81.4. */
  lemma AirOnlyExample()
    ensures HealthScore(ScoreInputs(Some(45.0), Some(12.0), None, None, None, None, None, None, None)) == 81.4
  {
    var inputs := ScoreInputs(Some(45.0), Some(12.0), None, None, None, None, None, None, None);
    IncludedCategoriesUnfold(inputs);
    assert IncludedCategories(inputs) == [Air];
    SingleCategoryScore(inputs, Air);
  }

  /** Ideal climate and full healthcare access, nothing else: the weights 0.20
      and 0.10 renormalise to 2/3 and 1/3 and the score is 100. */
  lemma ClimateAndHealthcareExample()
    ensures HealthScore(ScoreInputs(None, None, None, None, Some(22.0), Some(50.0), None, None, Some(10.0))) == 100.0
  {
    var inputs := ScoreInputs(None, None, None, None, Some(22.0), Some(50.0), None, None, Some(10.0));
    assert Complete(inputs, Climate);
    assert Climate in IncludedCategories(inputs);
    forall c | Complete(inputs, c) ensures 100.0 <= SubScore(inputs, c) <= 100.0 {
    }
    WeightedMeanWithin(inputs, 100.0, 100.0);
  }

  /** The sub-scores and weights collected after visiting the first `k`
      categories of the fixed order. */
  function Collected(inputs: ScoreInputs, k: nat): (sw: (seq<real>, seq<real>))
    requires k <= |AllCategories|
  {
    if k == 0 then ([], [])
    else
      var (ss, ws) := Collected(inputs, k - 1);
      var c := AllCategories[k - 1];
      if Complete(inputs, c) then (ss + [SubScore(inputs, c)], ws + [Weight(c)]) else (ss, ws)
  }

  /** The collected lists are the sub-scores and weights of the included
      categories among the first `k`. */
  lemma {:induction false} CollectedSpec(inputs: ScoreInputs, k: nat)
    requires k <= |AllCategories|
    ensures forall c :: c in IncludedAmong(inputs, AllCategories[..k]) ==> Complete(inputs, c)
    ensures Collected(inputs, k).0 == SubScores(inputs, IncludedAmong(inputs, AllCategories[..k]))
    ensures Collected(inputs, k).1 == Weights(IncludedAmong(inputs, AllCategories[..k]))
  {
    if k == 0 {
      assert AllCategories[..0] == [];
    } else {
      CollectedSpec(inputs, k - 1);
      IncludedStep(inputs, k - 1);
      var c := AllCategories[k - 1];
      if Complete(inputs, c) {
        Extend(inputs, IncludedAmong(inputs, AllCategories[..k - 1]), c);
      }
    }
  }

  /** After all five categories the collected lists determine the score: 50
      when nothing was collected, otherwise the clipped weighted mean. */
  lemma CollectedScore(inputs: ScoreInputs)
    ensures var (ss, ws) := Collected(inputs, |AllCategories|);
            && |ss| == |ws|
            && (forall i :: 0 <= i < |ws| ==> ws[i] > 0.0)
            && (ss == [] ==> HealthScore(inputs) == 50.0)
            && (ss != [] ==> Sum(ws) > 0.0 && HealthScore(inputs) == Clip(Dot(ss, ws) / Sum(ws), 0.0, 100.0))
  {
    CollectedSpec(inputs, |AllCategories|);
    assert AllCategories[..|AllCategories|] == AllCategories;
    var cs := IncludedCategories(inputs);
    if cs != [] {
      SumPositive(Weights(cs));
    }
  }

  /** `_calculate_city_health_score`: collects the sub-score and weight of each
      complete category, normalises the weights by their total and sums the
      weighted sub-scores; 50 when no category is complete. */
  method CalculateHealthScore(inputs: ScoreInputs) returns (score: real)
    ensures score == HealthScore(inputs)
  {
    var scores, weights := CollectScores(inputs);
    CollectedScore(inputs);

    if |scores| > 0 {
      var finalScore := NormalizedWeightedSum(scores, weights);
      score := Clip(finalScore, 0.0, 100.0);
    } else {
      score := 50.0;
    }
  }

  /** The five `if` blocks of `_calculate_city_health_score` that append the
      sub-score and the weight of each category whose inputs are all present. */
  method CollectScores(inputs: ScoreInputs) returns (scores: seq<real>, weights: seq<real>)
    ensures (scores, weights) == Collected(inputs, |AllCategories|)
  {
    scores := [];
    weights := [];

    if inputs.airQualityIndex.Some? && inputs.pm25Concentration.Some? {
      scores := scores + [AirScore(inputs.airQualityIndex.value, inputs.pm25Concentration.value)];
      weights := weights + [0.30];
    }
    assert (scores, weights) == Collected(inputs, 1);

    if inputs.greenSpaceRatio.Some? && inputs.ndviValue.Some? {
      scores := scores + [GreenScore(inputs.greenSpaceRatio.value, inputs.ndviValue.value)];
      weights := weights + [0.25];
    }
    assert (scores, weights) == Collected(inputs, 2);

    if inputs.temperatureAvg.Some? && inputs.humidityAvg.Some? {
      scores := scores + [ClimateScore(inputs.temperatureAvg.value, inputs.humidityAvg.value)];
      weights := weights + [0.20];
    }
    assert (scores, weights) == Collected(inputs, 3);

    if inputs.populationDensity.Some? && inputs.noisePollutionDb.Some? {
      scores := scores + [UrbanScore(inputs.populationDensity.value, inputs.noisePollutionDb.value)];
      weights := weights + [0.15];
    }
    assert (scores, weights) == Collected(inputs, 4);

    if inputs.healthcareAccessibility.Some? {
      scores := scores + [HealthcareScore(inputs.healthcareAccessibility.value)];
      weights := weights + [0.10];
    }
    assert (scores, weights) == Collected(inputs, 5);
  }

  /** `sum(xs)`, accumulated left to right. */
  method SumOf(xs: seq<real>) returns (total: real)
    ensures total == Sum(xs)
  {
    total := 0.0;
    for i := 0 to |xs|
      invariant total == Sum(xs[..i])
    {
      assert xs[..i + 1][..i] == xs[..i];
      total := total + xs[i];
    }
    assert xs[..|xs|] == xs;
  }

  /** `[w / total for w in weights]`. */
  method Normalize(weights: seq<real>, total: real) returns (normalized: seq<real>)
    requires total != 0.0
    ensures normalized == Scale(weights, total)
  {
    normalized := [];
    for i := 0 to |weights|
      invariant normalized == Scale(weights[..i], total)
    {
      normalized := normalized + [weights[i] / total];
    }
    assert weights[..|weights|] == weights;
  }

  /** `sum(s * w for s, w in zip(scores, weights))`, accumulated left to right. */
  method DotOf(scores: seq<real>, weights: seq<real>) returns (total: real)
    requires |scores| == |weights|
    ensures total == Dot(scores, weights)
  {
    total := 0.0;
    for i := 0 to |scores|
      invariant total == Dot(scores[..i], weights[..i])
    {
      assert scores[..i + 1][..i] == scores[..i];
      assert weights[..i + 1][..i] == weights[..i];
      total := total + scores[i] * weights[i];
    }
    assert scores[..|scores|] == scores;
    assert weights[..|weights|] == weights;
  }

  /** Lines 1002-1006 of the score: divides each weight by the total weight and
      sums the sub-scores times the normalised weights, which is the weighted
      mean of the sub-scores. */
  method NormalizedWeightedSum(scores: seq<real>, weights: seq<real>) returns (finalScore: real)
    requires |scores| == |weights| && weights != []
    requires forall i :: 0 <= i < |weights| ==> weights[i] > 0.0
    ensures Sum(weights) > 0.0
    ensures finalScore == Dot(scores, weights) / Sum(weights)
  {
    var totalWeight := SumOf(weights);
    SumPositive(weights);
    var normalizedWeights := Normalize(weights, totalWeight);
    finalScore := DotOf(scores, normalizedWeights);
    DotScaled(scores, weights, totalWeight);
  }

  /** The map colour bands of `_get_health_color_hex`. */
  datatype HealthBand = Excellent | VeryGood | Good | Fair | Critical {
    function Hex(): string {
      match this
      case Excellent => "#00ff00"
      case VeryGood => "#7fff00"
      case Good => "#ffff00"
      case Fair => "#ff8c00"
      case Critical => "#ff0000"
    }

    function Level(): nat {
      match this
      case Critical => 0
      case Fair => 1
      case Good => 2
      case VeryGood => 3
      case Excellent => 4
    }
  }

  /** Each band is exactly a half-open score interval with lower bounds 85, 70,
      55 and 40. */
  function HealthBandOf(score: real): (b: HealthBand)
    ensures b == Excellent <==> score >= 85.0
    ensures b == VeryGood <==> 70.0 <= score < 85.0
    ensures b == Good <==> 55.0 <= score < 70.0
    ensures b == Fair <==> 40.0 <= score < 55.0
    ensures b == Critical <==> score < 40.0
  {
    if score >= 85.0 then Excellent
    else if score >= 70.0 then VeryGood
    else if score >= 55.0 then Good
    else if score >= 40.0 then Fair
    else Critical
  }

  /** A higher score never gets a worse band. */
  lemma HealthBandMonotone(s1: real, s2: real)
    requires s1 <= s2
    ensures HealthBandOf(s1).Level() <= HealthBandOf(s2).Level()
  {
  }
}
