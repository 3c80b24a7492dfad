/**
 * `equipment_config.py`: the catalogue of loader and truck models, and a
 * second `EnvironmentalFactors` class of speed factors looked up by road
 * condition name, weather name and gradient in percent. These tables are
 * independent of those in `environmental_factors.py` and disagree with them.
 */
module EquipmentConfig {
  import EnvironmentalFactors

  datatype LoaderConfig = LoaderConfig(
    typeName: string,
    bucketCapacity: real,    // cubic metres
    cycleTime: real,         // seconds
    maintenanceInterval: int, // hours
    fuelConsumption: real)   // L/hour

  datatype TruckConfig = TruckConfig(
    typeName: string,
    capacity: real,              // tons
    emptyWeight: real,           // tons
    maxSpeedLoaded: real,        // km/h
    maxSpeedEmpty: real,         // km/h
    fuelConsumptionLoaded: real, // L/km
    fuelConsumptionEmpty: real,  // L/km
    maintenanceInterval: int)    // hours

  /** `LOADER_TYPES` */
  const LoaderTypes: map<string, LoaderConfig> := map[
    "small_excavator" := LoaderConfig("CAT 336", 2.5, 25.0, 250, 28.0),
    "medium_excavator" := LoaderConfig("CAT 349", 3.5, 28.0, 250, 35.0),
    "large_excavator" := LoaderConfig("CAT 395", 6.0, 32.0, 250, 45.0),
    "excavator_870" := LoaderConfig("CAT 870", 7.5, 35.0, 300, 52.0),
    "excavator_2600" := LoaderConfig("CAT 2600", 15.0, 40.0, 350, 85.0),
    "face_shovel_2500" := LoaderConfig("CAT 2500", 13.0, 38.0, 300, 75.0),
    "face_shovel_2600" := LoaderConfig("CAT 2600", 16.0, 42.0, 350, 90.0),
    "face_shovel_3600" := LoaderConfig("CAT 3600", 20.0, 45.0, 400, 110.0),
    "wheel_loader_small" := LoaderConfig("CAT 966", 4.0, 45.0, 200, 25.0),
    "wheel_loader_large" := LoaderConfig("CAT 992", 12.0, 55.0, 200, 55.0),
    "wheel_loader_993" := LoaderConfig("CAT 993", 14.5, 58.0, 250, 65.0),
    "wheel_loader_994" := LoaderConfig("CAT 994", 19.0, 62.0, 300, 85.0)]

  /** `TRUCK_TYPES` */
  const TruckTypes: map<string, TruckConfig> := map[
    "articulated_small" := TruckConfig("Bell B30E", 28.0, 22.7, 40.0, 50.0, 0.85, 0.55, 250),
    "articulated_medium" := TruckConfig("Bell B45E", 41.0, 32.5, 35.0, 45.0, 1.0, 0.65, 250),
    "rigid_medium" := TruckConfig("CAT 777E", 100.0, 64.0, 30.0, 40.0, 1.4, 0.9, 300),
    "rigid_large" := TruckConfig("CAT 785D", 140.0, 87.0, 25.0, 35.0, 1.8, 1.1, 300),
    "rigid_789C" := TruckConfig("CAT 789C", 177.0, 98.0, 23.0, 33.0, 2.0, 1.3, 350),
    "rigid_789D" := TruckConfig("CAT 789D", 181.0, 99.0, 23.0, 33.0, 2.1, 1.35, 350),
    "rigid_793C" := TruckConfig("CAT 793C", 218.0, 123.0, 21.0, 31.0, 2.4, 1.6, 400),
    "rigid_793D" := TruckConfig("CAT 793D", 227.0, 125.0, 21.0, 31.0, 2.5, 1.65, 400)]

  /** Every loader model has a positive bucket, cycle time, maintenance interval and fuel use. */
  lemma LoaderTypesPositive()
    ensures forall k :: k in LoaderTypes ==>
      && LoaderTypes[k].bucketCapacity > 0.0 && LoaderTypes[k].cycleTime > 0.0
      && LoaderTypes[k].maintenanceInterval > 0 && LoaderTypes[k].fuelConsumption > 0.0
  {
  }

  /**
   * Every truck model carries a positive payload, runs slower and burns more
   * fuel loaded than empty.
   */
  lemma TruckTypesConsistent()
    ensures forall k :: k in TruckTypes ==>
      && TruckTypes[k].capacity > 0.0 && TruckTypes[k].emptyWeight > 0.0
      && 0.0 < TruckTypes[k].maxSpeedLoaded < TruckTypes[k].maxSpeedEmpty
      && TruckTypes[k].fuelConsumptionLoaded > TruckTypes[k].fuelConsumptionEmpty > 0.0
      && TruckTypes[k].maintenanceInterval > 0
  {
  }

  /** Two loader keys name the same model string: `excavator_2600` and `face_shovel_2600` are both "CAT 2600". */
  lemma LoaderTypeNameShared()
    ensures LoaderTypes["excavator_2600"].typeName == LoaderTypes["face_shovel_2600"].typeName
    ensures LoaderTypes["excavator_2600"] != LoaderTypes["face_shovel_2600"]
  {
  }

  /** The road conditions with their own factor. */
  const RoadFactors: map<string, real> := map[
    "excellent" := 1.0, "good" := 0.9, "fair" := 0.75, "poor" := 0.6, "very_poor" := 0.4]

  /** `get_road_condition_factor`: the tabled factor; anything else is treated as a fair road. */
  function GetRoadConditionFactor(condition: string): (f: real)
    ensures 0.4 <= f <= 1.0
    ensures condition !in RoadFactors ==> f == RoadFactors["fair"]
  {
    if condition in RoadFactors then RoadFactors[condition] else 0.75
  }

  /** The road factors, from excellent to very poor, strictly decrease. */
  lemma RoadFactorOrder()
    ensures GetRoadConditionFactor("excellent") == 1.0 && GetRoadConditionFactor("very_poor") == 0.4
    ensures GetRoadConditionFactor("excellent") > GetRoadConditionFactor("good") > GetRoadConditionFactor("fair")
            > GetRoadConditionFactor("poor") > GetRoadConditionFactor("very_poor")
  {
  }

  /** The weather conditions with their own factor. */
  const WeatherFactors: map<string, real> := map[
    "clear" := 1.0, "light_rain" := 0.9, "heavy_rain" := 0.7, "fog" := 0.6, "storm" := 0.4]

  /** `get_weather_factor`: the tabled factor; any other weather is treated as clear. */
  function GetWeatherFactor(condition: string): (f: real)
    ensures 0.4 <= f <= 1.0
    ensures condition !in WeatherFactors ==> f == WeatherFactors["clear"]
    ensures f == 1.0 <==> condition !in WeatherFactors || condition == "clear"
  {
    if condition in WeatherFactors then WeatherFactors[condition] else 1.0
  }

  /** The weather factors, from clear to storm, strictly decrease. */
  lemma WeatherFactorOrder()
    ensures GetWeatherFactor("clear") == 1.0 && GetWeatherFactor("storm") == 0.4
    ensures GetWeatherFactor("clear") > GetWeatherFactor("light_rain") > GetWeatherFactor("heavy_rain")
            > GetWeatherFactor("fog") > GetWeatherFactor("storm")
  {
  }

  /**
   * `get_gradient_factor`: a step function of the gradient in percent. Level
   * ground, downhill and up to 2 % cost nothing; every other band costs more
   * than the one before; beyond 10 % the factor is 0.4.
   */
  function GetGradientFactor(gradientPercent: real): (f: real)
    ensures 0.4 <= f <= 1.0
    ensures f == 1.0 <==> gradientPercent <= 2.0
    ensures f == 0.4 <==> gradientPercent > 10.0
  {
    if gradientPercent <= 2.0 then 1.0
    else if gradientPercent <= 5.0 then 0.85
    else if gradientPercent <= 8.0 then 0.7
    else if gradientPercent <= 10.0 then 0.5
    else 0.4
  }

  /** A steeper gradient never gives a larger factor. */
  lemma GradientMonotone(g1: real, g2: real)
    requires g1 <= g2
    ensures GetGradientFactor(g1) >= GetGradientFactor(g2)
  {
  }

  /** The value on each band: (2, 5] gives 0.85, (5, 8] gives 0.7, (8, 10] gives 0.5. */
  lemma GradientBands(g: real)
    ensures 2.0 < g <= 5.0 ==> GetGradientFactor(g) == 0.85
    ensures 5.0 < g <= 8.0 ==> GetGradientFactor(g) == 0.7
    ensures 8.0 < g <= 10.0 ==> GetGradientFactor(g) == 0.5
  {
  }

  /**
   * The two `EnvironmentalFactors` classes disagree: a storm is 0.4 here and
   * 0.6 in `environmental_factors.py`, and "rain" is tabled only there, so it
   * is 1.0 here.
   */
  lemma WeatherTablesDisagree()
    ensures GetWeatherFactor("storm") == 0.4 && EnvironmentalFactors.GetWeatherFactor("storm") == 0.6
    ensures GetWeatherFactor("rain") == 1.0 && EnvironmentalFactors.GetWeatherFactor("rain") == 0.8
  {
  }
}
