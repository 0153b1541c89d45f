/**
 * The weather service: converting an Open-Meteo response (WMO weather
 * codes) into the OpenWeatherMap-like shape the application uses, the
 * fallback snapshot, and the rain predicate.
 *
 * Temperatures are whole degrees (the source rounds them); precipitation
 * is a real number of millimetres that is only ever compared with zero.
 */
module WeatherService {
  import opened Wrappers
  import opened Strings

  /** One entry of the `weather` array: `main` is the category ("Rain", "Clouds", ...). */
  datatype Condition = Condition(main: Option<string>, description: Option<string>)

  datatype MainBlock = MainBlock(temp: int, humidity: int)

  datatype Coord = Coord(lat: real, lon: real)

  /** A weather snapshot; every field may be absent, as the source's optional chaining allows. */
  datatype WeatherData = WeatherData(
    main: Option<MainBlock>,
    weather: seq<Condition>,
    coord: Option<Coord>,
    precipitation: Option<real>)

  datatype CurrentWeather = CurrentWeather(temperature: int, weathercode: int)

  /** The parts of an Open-Meteo forecast response the conversion reads. */
  datatype OpenMeteoData = OpenMeteoData(
    currentWeather: Option<CurrentWeather>,
    hourlyPrecipitation: Option<seq<real>>,
    latitude: real,
    longitude: real)

  const CONVERTED_HUMIDITY: int := 65

  /** `data.hourly?.precipitation?.[0] || 0`. */
  function FirstPrecipitation(data: OpenMeteoData): (p: real)
    ensures data.hourlyPrecipitation.None? ==> p == 0.0
    ensures data.hourlyPrecipitation.Some? && |data.hourlyPrecipitation.value| == 0 ==> p == 0.0
    ensures data.hourlyPrecipitation.Some? && |data.hourlyPrecipitation.value| > 0 ==>
              p == data.hourlyPrecipitation.value[0]
  {
    match data.hourlyPrecipitation
    case None => 0.0
    case Some(hourly) => if |hourly| > 0 then hourly[0] else 0.0
  }

  predicate InRange(code: int, lo: int, hi: int) {
    lo <= code <= hi
  }

  /**
   * The condition chosen for a WMO weather code and the first hour's
   * precipitation: drizzle and rain (51-67) and rain showers (80-82) are
   * "Rain", thunderstorms (95-99) "Thunderstorm", partly cloudy (1-3)
   * "Clouds", everything else "Clear"; any positive precipitation overrides
   * the code with "Rain".
   */
  function Classify(code: int, precipitation: real): (c: Condition)
    ensures c.main.Some? && c.description.Some?
    ensures precipitation > 0.0 ==> c == Condition(Some("Rain"), Some("rain"))
    ensures precipitation <= 0.0 ==>
      c == (if InRange(code, 51, 67) then Condition(Some("Rain"), Some("rain"))
            else if InRange(code, 80, 82) then Condition(Some("Rain"), Some("rain showers"))
            else if InRange(code, 95, 99) then Condition(Some("Thunderstorm"), Some("thunderstorm"))
            else if InRange(code, 1, 3) then Condition(Some("Clouds"), Some("cloudy"))
            else Condition(Some("Clear"), Some("clear sky")))
  {
    var (main, description) :=
      if 51 <= code && code <= 67 then ("Rain", "rain")
      else if 80 <= code && code <= 82 then ("Rain", "rain showers")
      else if 95 <= code && code <= 99 then ("Thunderstorm", "thunderstorm")
      else if 1 <= code && code <= 3 then ("Clouds", "cloudy")
      else ("Clear", "clear sky");
    if precipitation > 0.0 then Condition(Some("Rain"), Some("rain"))
    else Condition(Some(main), Some(description))
  }

  /**
   * `convertOpenMeteoData`; `None` stands for the exception thrown when the
   * response has no `current_weather`.
   */
  function ConvertOpenMeteoData(data: OpenMeteoData): (r: Option<WeatherData>)
    ensures r.Some? <==> data.currentWeather.Some?
    ensures r.Some? ==> r.value.main == Some(MainBlock(data.currentWeather.value.temperature, CONVERTED_HUMIDITY))
    ensures r.Some? ==> r.value.precipitation == Some(FirstPrecipitation(data))
    ensures r.Some? ==> r.value.coord == Some(Coord(data.latitude, data.longitude))
    ensures r.Some? ==> r.value.weather == [Classify(data.currentWeather.value.weathercode, FirstPrecipitation(data))]
  {
    match data.currentWeather
    case None => None
    case Some(current) =>
      var precipitation := FirstPrecipitation(data);
      Some(WeatherData(
        Some(MainBlock(current.temperature, CONVERTED_HUMIDITY)),
        [Classify(current.weathercode, precipitation)],
        Some(Coord(data.latitude, data.longitude)),
        Some(precipitation)))
  }

  /** `getDefaultWeatherData`: 22 degrees, 60% humidity, clear sky, no precipitation. */
  function DefaultWeatherData(): (w: WeatherData)
    ensures w.main == Some(MainBlock(22, 60)) && w.coord.None?
    ensures w.weather == [Condition(Some("Clear"), Some("clear sky"))]
    ensures w.precipitation == Some(0.0)
  {
    WeatherData(Some(MainBlock(22, 60)), [Condition(Some("Clear"), Some("clear sky"))], None, Some(0.0))
  }

  /**
   * `getCurrentWeather`, given what the Open-Meteo request returned
   * (`None` when the request or its JSON decoding failed). The
   * OpenWeatherMap branch is never taken: its API key is the empty string.
   */
  function GetCurrentWeather(response: Option<OpenMeteoData>): (w: WeatherData)
    ensures response.None? ==> w == DefaultWeatherData()
    ensures response.Some? ==>
      w == ConvertOpenMeteoData(response.value).GetOr(DefaultWeatherData())
  {
    match response
    case None => DefaultWeatherData()
    case Some(data) =>
      match ConvertOpenMeteoData(data)
      case None => DefaultWeatherData()
      case Some(w) => w
  }

  /** `weatherData?.precipitation || 0`. */
  function PrecipitationOrZero(w: WeatherData): real {
    w.precipitation.GetOr(0.0)
  }

  predicate MainIsRain(w: WeatherData) {
    |w.weather| > 0 && w.weather[0].main == Some("Rain")
  }

  predicate DescriptionMentionsRain(w: WeatherData) {
    |w.weather| > 0 && w.weather[0].description.Some?
    && Contains(ToLower(w.weather[0].description.value), "rain")
  }

  /**
   * `isRaining`: any of three signals, because providers disagree on which
   * field they fill: the category is "Rain", the description mentions
   * "rain" in any case, or the precipitation is positive.
   */
  predicate IsRaining(w: WeatherData): (raining: bool)
    ensures raining <==>
      || (|w.weather| > 0 && w.weather[0].main == Some("Rain"))
      || (|w.weather| > 0 && w.weather[0].description.Some?
          && Contains(ToLower(w.weather[0].description.value), "rain"))
      || (w.precipitation.Some? && w.precipitation.value > 0.0)
  {
    var hasRainInMain := MainIsRain(w);
    var hasRainInDescription := DescriptionMentionsRain(w);
    var hasPrecipitation := PrecipitationOrZero(w) > 0.0;
    hasRainInMain || hasRainInDescription || hasPrecipitation
  }

  /** `checkForRainAlerts`: the rain predicate on the freshly fetched snapshot. */
  function CheckForRainAlerts(response: Option<OpenMeteoData>): (raining: bool)
    ensures response.None? ==> !raining
    ensures raining == IsRaining(GetCurrentWeather(response))
  {
    DefaultIsDry();
    IsRaining(GetCurrentWeather(response))
  }

  /** The fallback snapshot is dry, so a failed fetch never raises a rain alert. */
  lemma DefaultIsDry()
    ensures !IsRaining(DefaultWeatherData())
  {
    var w := DefaultWeatherData();
    ToLowerOfLower("clear sky");
    MissingCharNotContained("clear sky", "rain", 2);
  }

  /** The descriptions "rain" and "rain showers" mention rain. */
  lemma RainDescriptions()
    ensures Contains(ToLower("rain"), "rain")
    ensures Contains(ToLower("rain showers"), "rain")
  {
    ToLowerOfLower("rain");
    ContainsAt("rain", "rain", 0);
    ToLowerOfLower("rain showers");
    ContainsAt("rain showers", "rain", 0);
  }

  /** The descriptions "thunderstorm", "cloudy" and "clear sky" do not. */
  lemma DryDescriptions()
    ensures !Contains(ToLower("thunderstorm"), "rain")
    ensures !Contains(ToLower("cloudy"), "rain")
    ensures !Contains(ToLower("clear sky"), "rain")
  {
    NotMentioned("thunderstorm", 1);
    NotMentioned("cloudy", 0);
    NotMentioned("clear sky", 2);
  }

  /** A lower-case text lacking the `k`-th letter of "rain" does not mention rain. */
  lemma NotMentioned(s: string, k: nat)
    requires forall i :: 0 <= i < |s| ==> !('A' <= s[i] <= 'Z')
    requires k < 4 && "rain"[k] !in s
    ensures !Contains(ToLower(s), "rain")
  {
    ToLowerOfLower(s);
    MissingCharNotContained(s, "rain", k);
  }

  /**
   * A converted snapshot is raining exactly when the code is a rain code
   * (51-67 or 80-82) or there is precipitation: a dry thunderstorm
   * (95-99) is not rain.
   */
  lemma ConvertedRainIff(data: OpenMeteoData)
    requires data.currentWeather.Some?
    ensures var code := data.currentWeather.value.weathercode;
      IsRaining(ConvertOpenMeteoData(data).value)
      <==> InRange(code, 51, 67) || InRange(code, 80, 82) || FirstPrecipitation(data) > 0.0
  {
    RainDescriptions();
    DryDescriptions();
  }

  /** The predicate on the four snapshots that document its three signals. */
  lemma RainSignalExamples()
    ensures IsRaining(WeatherData(None, [Condition(Some("Rain"), Some("clear"))], None, Some(0.0)))
    ensures IsRaining(WeatherData(None, [Condition(Some("Clear"), Some("light rain"))], None, Some(0.0)))
    ensures IsRaining(WeatherData(None, [Condition(Some("Clear"), Some("sunny"))], None, Some(0.1)))
    ensures !IsRaining(WeatherData(None, [Condition(Some("Clear"), Some("sunny"))], None, Some(0.0)))
  {
    ToLowerOfLower("light rain");
    ContainsAt("light rain", "rain", 6);
    ToLowerOfLower("sunny");
    MissingCharNotContained("sunny", "rain", 0);
  }

  /** With every field missing, the predicate is false. */
  lemma EmptySnapshotIsDry()
    ensures !IsRaining(WeatherData(None, [], None, None))
  {
  }
}
