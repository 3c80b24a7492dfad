/**
 * `EnvironmentalFactors` of `environmental_factors.py`: speed factors for the
 * weather, a road condition given as a number, and the road gradient given as
 * a decimal, and their product. Reals are exact here, so there is no rounding.
 */
module EnvironmentalFactors {

  /** `weather_factors`: the weather conditions with their own factor. */
  const WeatherFactors: map<string, real> := map["clear" := 1.0, "rain" := 0.8, "storm" := 0.6]

  /** `get_weather_factor`: the tabled factor, 1.0 for any other weather. */
  function GetWeatherFactor(weather: string): (f: real)
    ensures 0.6 <= f <= 1.0
    ensures f < 1.0 <==> weather == "rain" || weather == "storm"
  {
    if weather in WeatherFactors then WeatherFactors[weather] else 1.0
  }

  /** The table, entry by entry, and the default for everything else. */
  lemma WeatherTable(weather: string)
    ensures GetWeatherFactor("clear") == 1.0
    ensures GetWeatherFactor("rain") == 0.8
    ensures GetWeatherFactor("storm") == 0.6
    ensures weather != "clear" && weather != "rain" && weather != "storm" ==> GetWeatherFactor(weather) == 1.0
  {
  }

  /** `get_road_condition_factor`: `max(0.3, condition)`, never below 30 % of normal speed. */
  function GetRoadConditionFactor(condition: real): (f: real)
    ensures f >= 0.3 && f >= condition
    ensures f == 0.3 || f == condition
    ensures condition >= 0.3 ==> f == condition
    ensures condition <= 1.0 ==> f <= 1.0
  {
    if 0.3 >= condition then 0.3 else condition
  }

  /** The road factor never decreases as the condition improves. */
  lemma RoadConditionMonotone(c1: real, c2: real)
    requires c1 <= c2
    ensures GetRoadConditionFactor(c1) <= GetRoadConditionFactor(c2)
  {
  }

  /** The divisor of the gradient factor: `1 + 2g` uphill, `1 - g` otherwise; at least 1 either way. */
  function GradientDivisor(gradient: real): (d: real)
    ensures d >= 1.0
    ensures d == 1.0 <==> gradient == 0.0
  {
    if gradient > 0.0 then 1.0 + gradient * 2.0 else 1.0 - gradient
  }

  /**
   * `get_gradient_factor`: defined for every gradient (the divisor is never
   * 0), in (0, 1], and 1 exactly on level ground.
   */
  function GetGradientFactor(gradient: real): (f: real)
    ensures 0.0 < f <= 1.0
    ensures f == 1.0 <==> gradient == 0.0
    ensures f * GradientDivisor(gradient) == 1.0
  {
    1.0 / GradientDivisor(gradient)
  }

  lemma MulPositive(x: real, y: real)
    requires x > 0.0 && y > 0.0
    ensures x * y > 0.0
  {
  }

  lemma PositiveFactor(x: real, y: real)
    requires y > 0.0 && x * y > 0.0
    ensures x > 0.0
  {
  }

  /** A larger divisor gives a smaller factor. */
  lemma FactorOrder(d1: real, d2: real)
    requires 1.0 <= d1 < d2
    ensures 1.0 / d2 < 1.0 / d1
  {
    var a, b := 1.0 / d1, 1.0 / d2;
    assert a * d1 == 1.0 && b * d2 == 1.0;
    PositiveFactor(a, d1);
    MulPositive(a, d2 - d1);
    assert (a - b) * d2 == a * (d2 - d1);
    PositiveFactor(a - b, d2);
  }

  /** Uphill slows more than the same slope downhill. */
  lemma UphillPenalisedMore(g: real)
    requires g > 0.0
    ensures GetGradientFactor(g) < GetGradientFactor(-g)
  {
    FactorOrder(GradientDivisor(-g), GradientDivisor(g));
  }

  /** Climbing: the steeper the slope, the smaller the factor. */
  lemma UphillDecreasing(g1: real, g2: real)
    requires 0.0 <= g1 < g2
    ensures GetGradientFactor(g2) < GetGradientFactor(g1)
  {
    FactorOrder(GradientDivisor(g1), GradientDivisor(g2));
  }

  /** Descending: the factor grows as the slope flattens towards level. */
  lemma DownhillIncreasing(g1: real, g2: real)
    requires g1 < g2 <= 0.0
    ensures GetGradientFactor(g1) < GetGradientFactor(g2)
  {
    FactorOrder(GradientDivisor(g2), GradientDivisor(g1));
  }

  /**
   * `get_combined_factor`: weather, road and gradient factors multiplied.
   * It is positive for every input, no more than the road factor, and at
   * most 1 for a road condition of at most 1.
   */
  function GetCombinedFactor(weather: string, roadCondition: real, gradient: real): (f: real)
    ensures f > 0.0
    ensures f <= GetRoadConditionFactor(roadCondition)
    ensures roadCondition <= 1.0 ==> f <= 1.0
  {
    var w := GetWeatherFactor(weather);
    var r := GetRoadConditionFactor(roadCondition);
    var g := GetGradientFactor(gradient);
    assert w * g <= 1.0;
    assert (w * g) * r <= r;
    w * r * g
  }

  /** In clear weather on level ground only the road slows the truck; on a perfect road nothing does. */
  lemma CombinedNeutral(roadCondition: real)
    ensures GetCombinedFactor("clear", roadCondition, 0.0) == GetRoadConditionFactor(roadCondition)
    ensures GetCombinedFactor("clear", 1.0, 0.0) == 1.0
  {
  }
}
