/**
 * The weather card: its own copy of the rain test, the icon it picks and
 * which of its panels are shown.
 */
module WeatherAlertView {
  import opened Wrappers
  import opened Strings
  import WeatherService

  type WeatherData = WeatherService.WeatherData

  datatype Icon = CloudRain | Cloud | Sun

  /** Which parts of the card are rendered. */
  datatype Panels = Panels(
    rainDot: bool,
    precipitationPanel: bool,
    rainAlertPanel: bool,
    clearWeatherPanel: bool)

  /** The card's rain test, written inline in the component. */
  predicate IsRaining(weather: WeatherData): (raining: bool)
    ensures weather.precipitation.Some? && weather.precipitation.value > 0.0 ==> raining
    ensures |weather.weather| == 0 ==> (raining <==> weather.precipitation.Some? && weather.precipitation.value > 0.0)
  {
    (|weather.weather| > 0 && weather.weather[0].main == Some("Rain"))
    || (|weather.weather| > 0 && weather.weather[0].description.Some?
        && Contains(ToLower(weather.weather[0].description.value), "rain"))
    || weather.precipitation.GetOr(0.0) > 0.0
  }

  /** `weather?.weather?.[0]?.main?.toLowerCase()`. */
  function Condition(weather: WeatherData): (c: Option<string>)
    ensures c.Some? <==> |weather.weather| > 0 && weather.weather[0].main.Some?
    ensures c.Some? ==> |c.value| == |weather.weather[0].main.value|
    ensures c.Some? ==> forall i :: 0 <= i < |c.value| ==> !('A' <= c.value[i] <= 'Z')
    ensures c.Some? ==> forall i :: 0 <= i < |c.value| ==> c.value[i] == LowerChar(weather.weather[0].main.value[i])
  {
    if |weather.weather| > 0 && weather.weather[0].main.Some?
    then Some(ToLower(weather.weather[0].main.value))
    else None
  }

  /** `getWeatherIcon`. */
  function WeatherIcon(weather: WeatherData): (icon: Icon)
    ensures IsRaining(weather) ==> icon == CloudRain
    ensures !IsRaining(weather) ==>
      (icon == Cloud <==> Condition(weather).Some? && Contains(Condition(weather).value, "cloud"))
    ensures !IsRaining(weather) ==> icon != CloudRain
  {
    var condition := Condition(weather);
    if IsRaining(weather) then CloudRain
    else if condition.Some? && Contains(condition.value, "cloud") then Cloud
    else Sun
  }

  /** The card's conditional sections. */
  function VisiblePanels(weather: WeatherData): (p: Panels)
    ensures p.rainAlertPanel != p.clearWeatherPanel
    ensures p.rainAlertPanel == IsRaining(weather) && p.rainDot == IsRaining(weather)
    ensures p.precipitationPanel <==> weather.precipitation.Some? && weather.precipitation.value > 0.0
  {
    var raining := IsRaining(weather);
    Panels(raining, weather.precipitation.Some? && weather.precipitation.value > 0.0, raining, !raining)
  }

  /** The card and the rain check agree on every snapshot. */
  lemma AgreesWithService(weather: WeatherData)
    ensures IsRaining(weather) == WeatherService.IsRaining(weather)
  {
  }

  /** Precipitation alone shows the precipitation panel and the rain alert panel together. */
  lemma PrecipitationImpliesRainPanel(weather: WeatherData)
    ensures VisiblePanels(weather).precipitationPanel ==> VisiblePanels(weather).rainAlertPanel
  {
  }

  /**
   * On converted data: a dry "Clouds" snapshot shows the cloud icon, a dry
   * thunderstorm the sun icon (its category does not contain "cloud").
   */
  lemma ConvertedDryIcons(data: WeatherService.OpenMeteoData)
    requires data.currentWeather.Some?
    requires WeatherService.FirstPrecipitation(data) <= 0.0
    ensures var code := data.currentWeather.value.weathercode;
      && (1 <= code <= 3 ==> WeatherIcon(WeatherService.ConvertOpenMeteoData(data).value) == Cloud)
      && (95 <= code <= 99 ==> WeatherIcon(WeatherService.ConvertOpenMeteoData(data).value) == Sun)
  {
    var code := data.currentWeather.value.weathercode;
    var w := WeatherService.ConvertOpenMeteoData(data).value;
    WeatherService.ConvertedRainIff(data);
    if 1 <= code <= 3 {
      assert ToLower("Clouds") == "clouds";
      ContainsAt("clouds", "cloud", 0);
    }
    if 95 <= code <= 99 {
      assert ToLower("Thunderstorm") == "thunderstorm";
      MissingCharNotContained("thunderstorm", "cloud", 1);
    }
  }
}
