/** The composer's additive item score: up to 3 points for weather, up to 3
    for occasion, 2 for the preferred colour and 2 for the preferred style. */
module Scoring {
  import opened Clothing
  import opened Compatibility

  const ExactMatchPoints := 3
  const CompatiblePoints := 1
  const PreferencePoints := 2
  const MaxScore := 10

  /** Points on one of the two table-backed axes: both values set and equal
      earn 3, both set and compatible earn 1, anything else earns 0. */
  function AxisPoints(itemValue: string, target: string, compatible: bool): (p: nat)
    ensures p == ExactMatchPoints <==> target != "" && itemValue == target
    ensures p == CompatiblePoints <==> target != "" && itemValue != "" && itemValue != target && compatible
    ensures p == 0 <==> target == "" || itemValue == "" || (itemValue != target && !compatible)
  {
    if target != "" && itemValue != "" then
      if itemValue == target then ExactMatchPoints
      else if compatible then CompatiblePoints
      else 0
    else 0
  }

  function WeatherPoints(item: Item, weather: string): (p: nat)
    ensures p == ExactMatchPoints <==> weather != "" && item.weather == weather
    ensures p == CompatiblePoints <==>
      weather != "" && item.weather != "" && item.weather != weather && IsWeatherCompatible(item.weather, weather)
    ensures p in {0, CompatiblePoints, ExactMatchPoints}
  {
    AxisPoints(item.weather, weather, IsWeatherCompatible(item.weather, weather))
  }

  function OccasionPoints(item: Item, occasion: string): (p: nat)
    ensures p == ExactMatchPoints <==> occasion != "" && item.occasion == occasion
    ensures p == CompatiblePoints <==>
      occasion != "" && item.occasion != "" && item.occasion != occasion && IsOccasionCompatible(item.occasion, occasion)
    ensures p in {0, CompatiblePoints, ExactMatchPoints}
  {
    AxisPoints(item.occasion, occasion, IsOccasionCompatible(item.occasion, occasion))
  }

  /** Points for a preference: 2 when it is set and the item's value equals it. */
  function PreferencePointsFor(itemValue: string, preferred: string): (p: nat)
    ensures p == PreferencePoints <==> preferred != "" && itemValue == preferred
    ensures p == 0 <==> preferred == "" || itemValue != preferred
  {
    if preferred != "" && itemValue == preferred then PreferencePoints else 0
  }

  /** The score `scoreItem` computes, axis by axis. */
  function Score(item: Item, c: Criteria): (r: nat)
    ensures r <= MaxScore
    ensures r == MaxScore <==>
      c.weather != "" && item.weather == c.weather &&
      c.occasion != "" && item.occasion == c.occasion &&
      c.preferences.color != "" && item.color == c.preferences.color &&
      c.preferences.style != "" && item.style == c.preferences.style
  {
    WeatherPoints(item, c.weather) + OccasionPoints(item, c.occasion)
    + PreferencePointsFor(item.color, c.preferences.color)
    + PreferencePointsFor(item.style, c.preferences.style)
  }

  /** `scoreItem`: a running total that each satisfied clause increases. */
  method ScoreItem(item: Item, c: Criteria) returns (score: nat)
    ensures score == Score(item, c)
    ensures score <= MaxScore
  {
    score := 0;
    if c.weather != "" && item.weather != "" {
      if item.weather == c.weather {
        score := score + ExactMatchPoints;
      } else if IsWeatherCompatible(item.weather, c.weather) {
        score := score + CompatiblePoints;
      }
    }
    if c.occasion != "" && item.occasion != "" {
      if item.occasion == c.occasion {
        score := score + ExactMatchPoints;
      } else if IsOccasionCompatible(item.occasion, c.occasion) {
        score := score + CompatiblePoints;
      }
    }
    if c.preferences.color != "" && item.color == c.preferences.color {
      score := score + PreferencePoints;
    }
    if c.preferences.style != "" && item.style == c.preferences.style {
      score := score + PreferencePoints;
    }
  }

  /** With no criteria at all, every item scores 0, so the composer's choice
      falls to the first item of each category. */
  lemma NoCriteriaScoresZero(item: Item)
    ensures Score(item, Criteria(Preferences("", ""), "", "")) == 0
  {
  }

  /** A weather-only request: an exact match earns 3, a listed neighbour
      earns 1 in either direction (spring item, summer request, and summer
      item, spring request), an unlisted one earns 0 (summer item, fall
      request), and an item without weather earns 0. */
  lemma WeatherOnlyExamples(top: Item)
    requires top.category == Top && top.color == "red" && top.style == "" && top.occasion == ""
    ensures Score(top.(weather := "summer"), Criteria(Preferences("", ""), "summer", "")) == 3
    ensures Score(top.(weather := "spring"), Criteria(Preferences("", ""), "summer", "")) == 1
    ensures Score(top.(weather := "summer"), Criteria(Preferences("", ""), "spring", "")) == 1
    ensures Score(top.(weather := "summer"), Criteria(Preferences("", ""), "fall", "")) == 0
    ensures Score(top.(weather := ""), Criteria(Preferences("", ""), "summer", "")) == 0
  {
  }

  /** Since both tables are symmetric, swapping the item's value and the
      requested value never changes the points of an axis. */
  lemma PointsSymmetric(item: Item, a: string, b: string)
    ensures WeatherPoints(item.(weather := a), b) == WeatherPoints(item.(weather := b), a)
    ensures OccasionPoints(item.(occasion := a), b) == OccasionPoints(item.(occasion := b), a)
  {
    TablesSymmetricAndIrreflexive(a, b);
  }
}
