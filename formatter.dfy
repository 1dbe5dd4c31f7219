/** The four replies the bot renders once it has coordinates: current
    weather, the 12-hour forecast, the 4-day outlook and air quality.
    Each takes the decoded provider answer as its input. */
module Formatter {
  import opened Optional
  import Text
  import Wind
  import AirQuality

  /** One element of the provider's forecast series: the timestamp in epoch
      seconds, the temperature, the humidity, the description, the wind
      speed in m/s and the wind bearing in whole degrees. */
  datatype Entry = Entry(dt: int, temp: real, humidity: int, description: string, speed: real, deg: int)

  /** The fields of one rendered forecast block. */
  datatype Block = Block(stamp: int, temp: real, description: string, windKmh: real, direction: string)

  /** A message the bot sends to the chat. A forecast report carries its
      header and the entries it shows; the current-weather report carries
      its entry. The model does not render reports to text: Render states
      which fields each shown entry contributes to its block, and the
      current-weather report shows the same fields plus the humidity. */
  datatype Outgoing =
    | Notice(text: string)
    | Report(header: string, shown: seq<Entry>)
    | Current(entry: Entry)
    | AirQualityReport(word: string)

  const CurrentIntro := "Here's the current weather:"
  const WeatherUnavailable := "Unable to fetch weather information. Please try again later."
  const CouldNotFetch := "Could not fetch weather data. Please try again later."
  const HourlyHeader := "*12-Hour Weather Forecast:*\n"
  const FourDayHeader := "*4-Day Weather Forecast:*\n"
  const AirQualityUnavailable := "Unable to fetch air quality information. Please try again later."

  /** The provider's series step, in seconds. */
  const ThreeHours := 10800

  /** Wind speed converted from m/s to km/h. */
  function KmPerHour(speed: real): real { speed * 3.6 }

  /** The block rendered for one entry: its time, temperature, capitalized
      description, wind speed in km/h and compass label. */
  function Render(e: Entry): (b: Block)
    ensures b.stamp == e.dt && b.temp == e.temp
    ensures b.direction in Wind.Compass && b.direction == Wind.WindDirection(e.deg % 360)
    ensures b.windKmh == e.speed * 36.0 / 10.0
    ensures Text.Lowered(b.description) == Text.Lowered(e.description)
    ensures |e.description| > 0 ==> !Text.IsLower(b.description[0])
  {
    Text.CapitalizeShape(e.description);
    Wind.WindModulo360(e.deg);
    Block(e.dt, e.temp, Text.Capitalize(e.description), KmPerHour(e.speed), Wind.WindDirection(e.deg))
  }

  // ---------------------------------------------------------------- current

  /** The current-weather reply. A response without a series, or with an
      empty one, is caught and answered with the apology; otherwise only
      the first entry is reported, after an introduction. */
  function CurrentWeather(series: Option<seq<Entry>>): (out: seq<Outgoing>)
    ensures out == [Notice(WeatherUnavailable)] <==> series.None? || series.value == []
    ensures series.Some? && series.value != [] ==>
              out == [Notice(CurrentIntro), Current(series.value[0])]
  {
    match series
    case None => [Notice(WeatherUnavailable)]
    case Some(fs) =>
      if fs == [] then [Notice(WeatherUnavailable)]
      else [Notice(CurrentIntro), Current(fs[0])]
  }

  /** The current-weather reply depends on the first entry alone. */
  lemma CurrentUsesFirstEntry(a: seq<Entry>, b: seq<Entry>)
    requires a != [] && b != [] && a[0] == b[0]
    ensures CurrentWeather(Some(a)) == CurrentWeather(Some(b))
  {
  }

  // ----------------------------------------------------------------- hourly

  /** The position of the first entry whose timestamp is at or after now. */
  function FirstAtOrAfter(fs: seq<Entry>, now: int): (k: Option<nat>)
    ensures k.None? <==> forall j :: 0 <= j < |fs| ==> fs[j].dt < now
    ensures k.Some? ==> k.value < |fs| && fs[k.value].dt >= now
                        && forall j :: 0 <= j < k.value ==> fs[j].dt < now
    decreases |fs|
  {
    if fs == [] then None
    else if fs[0].dt >= now then Some(0)
    else
      match FirstAtOrAfter(fs[1..], now)
      case None => None
      case Some(k) => Some(k + 1)
  }

  /** The 12-hour forecast as the source computes it. The scan looks for
      the first entry at or after now and stops there; what it then renders
      is entries 0..3, whatever position the scan stopped at. With no such
      entry only the header is sent. A series shorter than four entries
      with a qualifying entry makes the source fail on indexing, outside any
      handler, so it is excluded here. */
  method HourlyForecast(series: Option<seq<Entry>>, now: int) returns (out: seq<Outgoing>, trigger: Option<nat>)
    requires series.Some? && FirstAtOrAfter(series.value, now).Some? ==> |series.value| >= 4
    ensures series.None? ==> out == [Notice(CouldNotFetch)] && trigger.None?
    ensures series.Some? ==> trigger == FirstAtOrAfter(series.value, now)
    ensures series.Some? && trigger.None? ==> out == [Report(HourlyHeader, [])]
    ensures series.Some? && trigger.Some? ==> out == [Report(HourlyHeader, series.value[..4])]
  {
    if series.None? {
      return [Notice(CouldNotFetch)], None;
    }
    var forecasts := series.value;
    var shown: seq<Entry> := [];
    trigger := None;
    var j := 0;
    while j < |forecasts|
      invariant 0 <= j <= |forecasts|
      invariant forall m :: 0 <= m < j ==> forecasts[m].dt < now
      invariant trigger.None? && shown == []
    {
      if forecasts[j].dt >= now {
        trigger := Some(j);
        var i := 0;
        while i < 4
          invariant 0 <= i <= 4
          invariant shown == forecasts[..i]
        {
          shown := shown + [forecasts[i]];
          i := i + 1;
        }
        break;
      }
      j := j + 1;
    }
    out := [Report(HourlyHeader, shown)];
  }

  /** The scan in HourlyForecast is meant to start the forecast at the first
      upcoming entry: this renders that entry and up to three after it. */
  function HourlyFromTrigger(fs: seq<Entry>, now: int): (shown: seq<Entry>)
    ensures FirstAtOrAfter(fs, now).None? ==> shown == []
    ensures FirstAtOrAfter(fs, now).Some? ==>
              var k := FirstAtOrAfter(fs, now).value;
              0 < |shown| <= 4 && |shown| == (if k + 4 <= |fs| then 4 else |fs| - k)
              && shown[0].dt >= now
              && forall i :: 0 <= i < |shown| ==> shown[i] == fs[k + i]
  {
    match FirstAtOrAfter(fs, now)
    case None => []
    case Some(k) =>
      var end := if k + 4 <= |fs| then k + 4 else |fs|;
      var window := fs[k..end];
      assert |window| == end - k && window[0] == fs[k];
      assert forall i :: 0 <= i < |window| ==> window[i] == fs[k + i];
      window
  }

  /** Timestamps never decrease along the series. */
  predicate Chronological(fs: seq<Entry>)
  {
    forall i, j :: 0 <= i < j < |fs| ==> fs[i].dt <= fs[j].dt
  }

  /** On a chronological series every entry of the intended forecast is
      at or after now. */
  lemma HourlyFromTriggerUpcoming(fs: seq<Entry>, now: int)
    requires Chronological(fs)
    ensures forall e :: e in HourlyFromTrigger(fs, now) ==> e.dt >= now
  {
    var shown := HourlyFromTrigger(fs, now);
    if FirstAtOrAfter(fs, now).Some? {
      var k := FirstAtOrAfter(fs, now).value;
      forall i | 0 <= i < |shown| ensures shown[i].dt >= now {
        assert shown[i] == fs[k + i];
        assert fs[k].dt <= fs[k + i].dt;
      }
    }
  }

  /** A three-hourly series of nine entries starting at time 0, as the provider sends them. */
  function NineSteps(): (fs: seq<Entry>)
    ensures |fs| == 9 && forall i :: 0 <= i < 9 ==> fs[i].dt == i * ThreeHours
  {
    seq(9, i => Entry(i * ThreeHours, 20.0, 50, "clear sky", 1.0, 0))
  }

  /** With now at the sixth step, the first upcoming entry is entry 5, yet
      the source renders entries 0..3, all of them earlier than now; the
      intended forecast renders entries 5..8. */
  lemma HourlyRendersPastEntries()
    ensures FirstAtOrAfter(NineSteps(), 5 * ThreeHours) == Some(5)
    ensures forall e :: e in NineSteps()[..4] ==> e.dt < 5 * ThreeHours
    ensures HourlyFromTrigger(NineSteps(), 5 * ThreeHours) == NineSteps()[5..9]
  {
    var fs := NineSteps();
    var k := FirstAtOrAfter(fs, 5 * ThreeHours);
    assert fs[5].dt == 5 * ThreeHours;
    assert forall j :: 0 <= j < 5 ==> fs[j].dt < 5 * ThreeHours;
    assert k == Some(5);
    forall e | e in fs[..4] ensures e.dt < 5 * ThreeHours {
      var i :| 0 <= i < 4 && fs[..4][i] == e;
    }
  }

  // ------------------------------------------------------------------ 4-day

  /** The 4-day outlook: entries 0, 8, 16 and 24 of the series, read in
      that order (range(0, 32, 8)), one block each after the header. The
      source indexes without a guard, so it needs at least 25 entries. */
  method FourDayForecast(series: Option<seq<Entry>>) returns (out: seq<Outgoing>, read: seq<nat>)
    requires series.Some? ==> |series.value| >= 25
    ensures series.None? ==> out == [Notice(CouldNotFetch)] && read == []
    ensures series.Some? ==> read == [0, 8, 16, 24]
    ensures series.Some? ==>
              var fs := series.value;
              out == [Report(FourDayHeader, [fs[0], fs[8], fs[16], fs[24]])]
  {
    if series.None? {
      return [Notice(CouldNotFetch)], [];
    }
    var forecasts := series.value;
    var shown: seq<Entry> := [];
    read := [];
    var i, k := 0, 0;
    while i < 32
      invariant 0 <= k <= 4 && i == 8 * k
      invariant |read| == k && forall j :: 0 <= j < k ==> read[j] == 8 * j
      invariant |shown| == k && forall j :: 0 <= j < k ==> shown[j] == forecasts[8 * j]
    {
      read := read + [i];
      shown := shown + [forecasts[i]];
      i, k := i + 8, k + 1;
    }
    assert read == [0, 8, 16, 24];
    assert shown == [forecasts[0], forecasts[8], forecasts[16], forecasts[24]];
    out := [Report(FourDayHeader, shown)];
  }

  /** Consecutive entries are exactly one provider step apart. */
  predicate ThreeHourly(fs: seq<Entry>)
  {
    forall i :: 0 <= i < |fs| - 1 ==> fs[i + 1].dt == fs[i].dt + ThreeHours
  }

  /** On a three-hourly series, entry i + n is n steps after entry i. */
  lemma {:induction false} StepOffset(fs: seq<Entry>, i: nat, n: nat)
    requires ThreeHourly(fs) && i + n < |fs|
    ensures fs[i + n].dt == fs[i].dt + n * ThreeHours
  {
    if n > 0 {
      StepOffset(fs, i, n - 1);
      assert fs[i + n].dt == fs[i + n - 1].dt + ThreeHours;
    }
  }

  /** On a three-hourly series the four outlook blocks are exactly one day apart. */
  lemma FourDayIsDaily(fs: seq<Entry>)
    requires ThreeHourly(fs) && |fs| >= 25
    ensures forall j :: 0 <= j < 4 ==> fs[8 * j].dt == fs[0].dt + j * 86400
  {
    forall j | 0 <= j < 4 ensures fs[8 * j].dt == fs[0].dt + j * 86400 {
      StepOffset(fs, 0, 8 * j);
    }
  }

  /** On a three-hourly series the four hourly blocks are one step apart,
      from the first entry's time to nine hours after it. */
  lemma HourlyIsThreeHourly(fs: seq<Entry>)
    requires ThreeHourly(fs) && |fs| >= 4
    ensures forall i :: 0 <= i < 4 ==> fs[..4][i].dt == fs[0].dt + i * ThreeHours
  {
    forall i | 0 <= i < 4 ensures fs[..4][i].dt == fs[0].dt + i * ThreeHours {
      StepOffset(fs, 0, i);
    }
  }

  // ------------------------------------------------------------ air quality

  /** The air-quality reply: a non-200 status, a missing reading list or an
      empty one is answered with the apology; otherwise the word for the
      first reading's index is reported after the "Air Quality Index (AQI)"
      caption. */
  function AirQualityReply(status: int, readings: Option<seq<int>>): (out: seq<Outgoing>)
    ensures |out| == 1
    ensures out == [Notice(AirQualityUnavailable)] <==> status != 200 || readings.None? || readings.value == []
    ensures out != [Notice(AirQualityUnavailable)] ==> out == [AirQualityReport(AirQuality.Label(readings.value[0]))]
  {
    if status != 200 || readings.None? || readings.value == [] then [Notice(AirQualityUnavailable)]
    else [AirQualityReport(AirQuality.Label(readings.value[0]))]
  }
}
