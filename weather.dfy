/** Season estimate and packing tips from the travel month (src/utils/weatherService.ts). */
module Weather {
  import opened Basics
  import opened Text

  /** One row of weatherConditions: a temperature range in degrees Celsius, a label, a humidity. */
  datatype Conditions = Conditions(low: int, high: int, condition: string, humidity: int, season: string)

  datatype WeatherInfo = WeatherInfo(temperature: int, condition: string, humidity: int, packingTips: seq<string>)

  const WeatherConditions: seq<Conditions> := [
    Conditions(15, 25, "Mild", 60, "spring"),
    Conditions(25, 35, "Warm", 50, "summer"),
    Conditions(5, 15, "Cool", 70, "fall"),
    Conditions(-5, 10, "Cold", 65, "winter")
  ]

  const PackingTipsByCondition: seq<(string, seq<string>)> := [
    ("Warm", ["Pack light, breathable clothing", "Bring sunscreen and sunglasses",
              "Stay hydrated - carry a water bottle", "Wear comfortable walking shoes"]),
    ("Hot", ["Pack very light cotton clothes", "Essential: High SPF sunscreen",
             "Wide-brimmed hat recommended", "Drink plenty of water"]),
    ("Mild", ["Pack layers - weather may vary", "Light jacket for evenings",
              "Comfortable walking shoes", "Umbrella might be useful"]),
    ("Cool", ["Bring warm layers and sweaters", "Pack a waterproof jacket",
              "Long pants and closed shoes", "Consider gloves and scarf"]),
    ("Cold", ["Pack heavy winter coat", "Essential: Warm layers, thermal wear",
              "Winter boots, gloves, and hat", "Moisturizer for dry skin"])
  ]

  /**
   * The generic bucket of a 0-based month: March-May spring (0), June-September summer (1),
   * October-November fall (2), everything else winter (3). A month outside 0..11 (an unparsable
   * date gives NaN, which fails every comparison) lands in winter as well.
   */
  function GenericSeasonIndex(month: int): (i: nat)
    ensures i < |WeatherConditions|
    ensures i == 0 <==> 2 <= month <= 4
    ensures i == 1 <==> 5 <= month <= 8
    ensures i == 2 <==> 9 <= month <= 10
    ensures i == 3 <==> !(2 <= month <= 10)
  {
    if 2 <= month <= 4 then 0
    else if 5 <= month <= 8 then 1
    else if 9 <= month <= 10 then 2
    else 3
  }

  /** The destination is one the Delhi/India override applies to. */
  predicate IsDelhiOrIndia(destination: string)
  {
    Contains(Lower(destination), "delhi") || Contains(Lower(destination), "india")
  }

  /**
   * The bucket after the destination override. The code's second override branch tests
   * `month >= 10 && month <= 2`, which no month satisfies; it is kept as written.
   */
  function SeasonIndex(destination: string, month: int): (i: int)
    ensures 0 <= i < |WeatherConditions|
  {
    var generic := GenericSeasonIndex(month);
    if IsDelhiOrIndia(destination) then
      if 3 <= month <= 6 then 1
      else if month >= 10 && month <= 2 then 2
      else generic
    else generic
  }

  /** The override forces summer for April-July in Delhi/India and changes no other month. */
  lemma SeasonOverride(destination: string, month: int)
    ensures SeasonIndex(destination, month) ==
      if IsDelhiOrIndia(destination) && 3 <= month <= 6 then 1 else GenericSeasonIndex(month)
    ensures !(3 <= month <= 6) ==> SeasonIndex(destination, month) == GenericSeasonIndex(month)
  {
  }

  /** packingTipsByCondition[condition] || packingTipsByCondition['Mild']. */
  function PackingTips(condition: string): (tips: seq<string>)
    ensures |tips| == 4
    ensures (forall j :: 0 <= j < |PackingTipsByCondition| ==> PackingTipsByCondition[j].0 != condition) ==>
              tips == PackingTipsByCondition[2].1
    ensures forall j :: 0 <= j < |PackingTipsByCondition| && PackingTipsByCondition[j].0 == condition ==>
              tips == PackingTipsByCondition[j].1
  {
    match LookupExact(PackingTipsByCondition, condition)
    case Some(tips) => tips
    case None => PackingTipsByCondition[2].1
  }

  /** The bucket's midpoint temperature, before rounding. */
  function Midpoint(c: Conditions): real
  {
    (c.low + c.high) as real / 2.0
  }

  function GetWeatherInfo(destination: string, month: int): (w: WeatherInfo)
    ensures var c := WeatherConditions[SeasonIndex(destination, month)];
      && w.temperature == Round(Midpoint(c))
      && w.humidity == c.humidity
      && w.condition == (if Midpoint(c) > 30.0 then "Hot" else c.condition)
      && w.packingTips == PackingTips(w.condition)
  {
    var weather := WeatherConditions[SeasonIndex(destination, month)];
    var avgTemp := Midpoint(weather);
    var condition := if avgTemp > 30.0 then "Hot" else weather.condition;
    WeatherInfo(Round(avgTemp), condition, weather.humidity, PackingTips(condition))
  }

  /**
   * With this table no midpoint exceeds 30, so the condition is always the bucket's own label,
   * never "Hot"; the temperature and humidity are the bucket's fixed pair.
   */
  lemma WeatherFollowsBucket(destination: string, month: int)
    ensures var i := SeasonIndex(destination, month);
      var w := GetWeatherInfo(destination, month);
      && w.condition == WeatherConditions[i].condition
      && w.condition != "Hot"
      && (i == 0 ==> w.temperature == 20 && w.humidity == 60 && w.condition == "Mild")
      && (i == 1 ==> w.temperature == 30 && w.humidity == 50 && w.condition == "Warm")
      && (i == 2 ==> w.temperature == 10 && w.humidity == 70 && w.condition == "Cool")
      && (i == 3 ==> w.temperature == 3 && w.humidity == 65 && w.condition == "Cold")
      && w.packingTips == PackingTipsByCondition[[2, 0, 3, 4][i]].1
  {
    var i := SeasonIndex(destination, month);
    var c := WeatherConditions[i];
    assert Midpoint(c) <= 30.0;
  }

  /** July (month 6) and January (month 0) in Paris. */
  lemma ParisExamples()
    ensures GetWeatherInfo("Paris", 6).condition == "Warm" && GetWeatherInfo("Paris", 6).temperature == 30
    ensures GetWeatherInfo("Paris", 0).condition == "Cold" && GetWeatherInfo("Paris", 0).temperature == 3
  {
    WeatherFollowsBucket("Paris", 6);
    WeatherFollowsBucket("Paris", 0);
  }
}
