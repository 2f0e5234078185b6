/** The suggestion page's weather helpers: the season a measured temperature
    stands for, which becomes the request's `weather` criterion, and the
    icon shown for a reported condition. */
module WeatherUi {
  import opened Compatibility

  datatype Option<T> = None | Some(value: T)

  const Winter := "winter"
  const Spring := "spring"
  const Fall := "fall"
  const Summer := "summer"

  /** The values of the page's weather selector. */
  const Seasons: set<string> := {Summer, Winter, Spring, Fall}

  /** `getWeatherSeason`: below 10 degrees is winter, below 20 spring, below
      30 fall, anything warmer summer. */
  function Season(temperature: real): (s: string)
    ensures s in Seasons
    ensures s == Winter <==> temperature < 10.0
    ensures s == Spring <==> 10.0 <= temperature < 20.0
    ensures s == Fall <==> 20.0 <= temperature < 30.0
    ensures s == Summer <==> 30.0 <= temperature
  {
    if temperature < 10.0 then Winter
    else if temperature < 20.0 then Spring
    else if temperature < 30.0 then Fall
    else Summer
  }

  /** The bands in the order the thresholds visit them. */
  function Band(s: string): nat {
    if s == Winter then 0 else if s == Spring then 1 else if s == Fall then 2 else 3
  }

  /** A warmer reading never gives an earlier band. */
  lemma SeasonMonotone(t1: real, t2: real)
    requires t1 <= t2
    ensures Band(Season(t1)) <= Band(Season(t2))
  {
  }

  /** Every season the page derives is a key of the weather compatibility
      table, so a derived weather criterion can earn compatibility points. */
  lemma SeasonIsTableKey(temperature: real)
    ensures Season(temperature) in WeatherTable
  {
  }

  /** The weather criterion a request carries: the derived season when a
      reading is present, otherwise the selector's value. */
  function RequestWeather(reading: Option<real>, selected: string): (w: string)
    ensures reading.Some? ==> w in Seasons && w == Season(reading.value)
    ensures reading.None? ==> w == selected
  {
    match reading
    case Some(t) => Season(t)
    case None => selected
  }

  /** The icons by condition name. */
  const Icons: map<string, string> := map[
    "Clear" := "\U{2600}\U{FE0F}",
    "Clouds" := "\U{2601}\U{FE0F}",
    "Rain" := "\U{1F327}\U{FE0F}",
    "Snow" := "\U{2744}\U{FE0F}",
    "Thunderstorm" := "\U{26C8}\U{FE0F}",
    "Drizzle" := "\U{1F326}\U{FE0F}",
    "Mist" := "\U{1F32B}\U{FE0F}",
    "Fog" := "\U{1F32B}\U{FE0F}"
  ]

  /** The icon shown for a condition the table does not list. */
  const DefaultIcon := "\U{1F324}\U{FE0F}"

  /** `getWeatherIcon`: the listed icon, or the default. */
  function Icon(condition: string): (r: string)
    ensures condition in Icons ==> r == Icons[condition]
    ensures condition !in Icons ==> r == DefaultIcon
    ensures r == DefaultIcon <==> condition !in Icons
  {
    if condition in Icons then Icons[condition] else DefaultIcon
  }

  /** Mist and fog share an icon; the other listed conditions each have
      their own. */
  lemma IconExamples()
    ensures Icon("Mist") == Icon("Fog")
    ensures Icon("Clear") != Icon("Rain") && Icon("Snow") != Icon("Thunderstorm")
    ensures Icon("Tornado") == DefaultIcon && Icon("") == DefaultIcon
  {
  }
}
