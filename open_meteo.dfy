/** Weather acquisition of the clock display: the Open-Meteo response, its
    normalisation into the record the display shows (with `'--'` standing for
    a missing reading), the weather-code tables, the fixed fallback record,
    and the order in which the three candidate locations are tried. */
module OpenMeteo {
  import opened Wrappers
  import opened Seqs

  /** A displayed reading: a value, or the `'--'` placeholder. */
  datatype Reading<T> = Known(value: T) | Dashes

  /** JavaScript truthiness of a rounded reading: `'--'` is a non-empty
      string and so truthy, a number is truthy unless it is 0. */
  predicate Truthy(r: Reading<int>) {
    r.Dashes? || r.value != 0
  }

  /** The record kept in `weatherData`. Pressure and visibility are kept as
      numbers; their `toFixed` text is not modelled. */
  datatype WeatherRecord = WeatherRecord(
    temperature: Reading<int>,
    description: string,
    icon: string,
    location: string,
    feelsLike: Reading<int>,
    humidity: Reading<real>,
    windSpeed: Reading<int>,
    pressure: Reading<real>,
    uvIndex: Reading<real>,
    visibility: Reading<real>,
    timestamp: Option<int>)

  /** `current_weather` (or `current`) of the response; `None` is an absent
      or `null` member. */
  datatype Current = Current(
    time: Option<string>,
    temperature: Option<real>,
    weathercode: Option<int>,
    windspeed: Option<real>)

  /** A series of the `hourly` block: `None` when the member is missing
      (`undefined`); within a series `None` is a `null` entry, and a series
      shorter than `time` has `undefined` beyond its end. */
  type Series = Option<seq<Option<real>>>

  /** The `hourly` block: parallel series indexed like `time` (an absent
      `time` is empty). */
  datatype Hourly = Hourly(
    time: seq<string>,
    apparentTemperature: Series,
    relativeHumidity: Series,
    pressureMsl: Series,
    uvIndex: Series,
    visibility: Series)

  datatype Payload = Payload(
    currentWeather: Option<Current>,
    current: Option<Current>,
    hourly: Option<Hourly>)

  /** `Math.round`: round half up. */
  function Round(x: real): (n: int)
    ensures x - 0.5 < n as real <= x + 0.5
  {
    (x + 0.5).Floor
  }

  const Sun := "\U{2600}\U{FE0F}"
  const SunBehindCloud := "\U{26C5}"
  const Cloud := "\U{2601}\U{FE0F}"
  const FogIcon := "\U{1F32B}\U{FE0F}"
  const RainCloud := "\U{1F327}\U{FE0F}"
  const Snowflake := "\U{2744}\U{FE0F}"
  const ThunderCloud := "\U{26C8}\U{FE0F}"
  /** The icon of every code the table does not list, and of the fallback. */
  const DefaultIcon := "\U{1F324}\U{FE0F}"

  /** The `iconMap` of `getWeatherIconFromCode`. */
  const IconTable: map<int, string> := map[
    0 := Sun, 1 := Sun, 2 := SunBehindCloud, 3 := Cloud,
    45 := FogIcon, 48 := FogIcon, 51 := RainCloud, 53 := RainCloud,
    55 := RainCloud, 56 := RainCloud, 57 := RainCloud, 61 := RainCloud,
    63 := RainCloud, 65 := RainCloud, 66 := RainCloud, 67 := RainCloud,
    71 := Snowflake, 73 := Snowflake, 75 := Snowflake, 77 := Snowflake,
    80 := RainCloud, 81 := RainCloud, 82 := RainCloud, 85 := Snowflake,
    86 := Snowflake, 95 := ThunderCloud, 96 := ThunderCloud, 99 := ThunderCloud
  ]

  /** The `descMap` of `getWeatherDescriptionFromCode`. */
  const DescriptionTable: map<int, string> := map[
    0 := "Clear Sky", 1 := "Mainly Clear", 2 := "Partly Cloudy", 3 := "Overcast",
    45 := "Fog", 48 := "Fog", 51 := "Drizzle", 53 := "Drizzle",
    55 := "Drizzle", 56 := "Freezing Drizzle", 57 := "Freezing Drizzle", 61 := "Rain",
    63 := "Rain", 65 := "Rain", 66 := "Freezing Rain", 67 := "Freezing Rain",
    71 := "Snow", 73 := "Snow", 75 := "Snow", 77 := "Snow Grains",
    80 := "Rain Showers", 81 := "Rain Showers", 82 := "Rain Showers", 85 := "Snow Showers",
    86 := "Snow Showers", 95 := "Thunderstorm", 96 := "Thunderstorm", 99 := "Thunderstorm"
  ]

  /** The two tables describe the same 28 codes, and no listed code maps to
      the default text or icon. */
  lemma TablesCoverSameCodes()
    ensures IconTable.Keys == DescriptionTable.Keys
    ensures forall c :: c in DescriptionTable ==> DescriptionTable[c] != "Unknown"
    ensures forall c :: c in IconTable ==> IconTable[c] != DefaultIcon
  {
  }

  /** `getWeatherIconFromCode`: the listed icon, or the default for an
      unlisted or missing code. */
  function WeatherIconFromCode(code: Option<int>): (r: string)
    ensures r == DefaultIcon <==> code.None? || code.value !in IconTable
    ensures code.Some? && code.value in IconTable ==> r == IconTable[code.value]
  {
    TablesCoverSameCodes();
    if code.Some? && code.value in IconTable then IconTable[code.value] else DefaultIcon
  }

  /** `getWeatherDescriptionFromCode`: the listed text, or `'Unknown'` for an
      unlisted or missing code. */
  function WeatherDescriptionFromCode(code: Option<int>): (r: string)
    ensures r == "Unknown" <==> code.None? || code.value !in DescriptionTable
    ensures code.Some? && code.value in DescriptionTable ==> r == DescriptionTable[code.value]
  {
    TablesCoverSameCodes();
    if code.Some? && code.value in DescriptionTable then DescriptionTable[code.value] else "Unknown"
  }

  /** A code gets the default icon exactly when it gets the `'Unknown'` text. */
  lemma UnknownCodeGetsDefaultIcon(code: Option<int>)
    ensures WeatherDescriptionFromCode(code) == "Unknown" <==> WeatherIconFromCode(code) == DefaultIcon
  {
    TablesCoverSameCodes();
  }

  /** `data.current_weather || data.current || {}` */
  function CurrentOf(data: Payload): Current {
    if data.currentWeather.Some? then data.currentWeather.value
    else if data.current.Some? then data.current.value
    else Current(None, None, None, None)
  }

  /** `hourlyTime.indexOf(currentWeather.time)`, with `hourlyTime` empty when
      the response has no hourly block. */
  function TimeIndex(data: Payload): (i: int)
    ensures -1 <= i
    ensures 0 <= i ==> data.hourly.Some? && i < |data.hourly.value.time|
                       && CurrentOf(data).time == Some(data.hourly.value.time[i])
  {
    var times := if data.hourly.Some? then data.hourly.value.time else [];
    var t := CurrentOf(data).time;
    if t.None? then -1 else IndexOf(times, t.value)
  }

  /** The `typeof x === 'number'` test at a matched index. */
  function NumberAt(series: seq<Option<real>>, index: int): Reading<real> {
    if 0 <= index < |series| && series[index].Some? then Known(series[index].value) else Dashes
  }

  /** The feels-like reading: `'--'` only for no match or an `undefined`
      entry; a `null` entry rounds to 0. */
  function RoundedAt(series: seq<Option<real>>, index: int): Reading<int> {
    if 0 <= index < |series| then Known(Round(series[index].GetOr(0.0))) else Dashes
  }

  /** A truthy number is rounded, anything else shows `'--'`. */
  function RoundedIfTruthy(x: Option<real>): Reading<int> {
    if x.Some? && x.value != 0.0 then Known(Round(x.value)) else Dashes
  }

  const MetresPerMile: real := 1609.344

  /** The entries of a series, none when it is missing. */
  function Entries(series: Series): seq<Option<real>> {
    if series.Some? then series.value else []
  }

  /** Some hourly series that `parseWeatherResponse` reads is missing. */
  predicate SeriesMissing(h: Hourly) {
    h.apparentTemperature.None? || h.relativeHumidity.None? || h.pressureMsl.None?
    || h.uvIndex.None? || h.visibility.None?
  }

  /** `parseWeatherResponse` throws: the current time matches an hour, so
      every series is indexed, and one of them is missing. */
  predicate ParseThrows(data: Payload) {
    TimeIndex(data) >= 0 && SeriesMissing(data.hourly.value)
  }

  /** `parseWeatherResponse`: `None` when it throws (indexing a missing
      series at a matched hour), else the record it returns. */
  function ParseWeatherResponse(data: Payload): (r: Option<WeatherRecord>)
    ensures r.None? <==> ParseThrows(data)
    ensures r.Some? && TimeIndex(data) == -1 ==>
              r.value.humidity == Dashes && r.value.pressure == Dashes && r.value.uvIndex == Dashes
              && r.value.feelsLike == Dashes && r.value.visibility == Dashes
    ensures r.Some? ==>
              (r.value.temperature == Dashes <==>
                 CurrentOf(data).temperature.None? || CurrentOf(data).temperature.value == 0.0)
              && (r.value.windSpeed == Dashes <==>
                    CurrentOf(data).windspeed.None? || CurrentOf(data).windspeed.value == 0.0)
    ensures r.Some? && r.value.temperature.Known? ==>
              CurrentOf(data).temperature.value - 0.5 < r.value.temperature.value as real
              <= CurrentOf(data).temperature.value + 0.5
    ensures r.Some? && (CurrentOf(data).weathercode.None? || CurrentOf(data).weathercode.value !in DescriptionTable) ==>
              r.value.description == "Unknown" && r.value.icon == DefaultIcon
    ensures r.Some? ==>
              r.value.description == WeatherDescriptionFromCode(CurrentOf(data).weathercode)
              && r.value.icon == WeatherIconFromCode(CurrentOf(data).weathercode)
              && r.value.location == "Atlanta, GA (30318)" && r.value.timestamp == None
  {
    TablesCoverSameCodes();
    var c := CurrentOf(data);
    var index := TimeIndex(data);
    if ParseThrows(data) then None
    else
      var h := if data.hourly.Some? then data.hourly.value else Hourly([], None, None, None, None, None);
      var vis := NumberAt(Entries(h.visibility), index);
      Some(WeatherRecord(
        temperature := RoundedIfTruthy(c.temperature),
        description := WeatherDescriptionFromCode(c.weathercode),
        icon := WeatherIconFromCode(c.weathercode),
        location := "Atlanta, GA (30318)",
        feelsLike := RoundedAt(Entries(h.apparentTemperature), index),
        humidity := NumberAt(Entries(h.relativeHumidity), index),
        windSpeed := RoundedIfTruthy(c.windspeed),
        pressure := NumberAt(Entries(h.pressureMsl), index),
        uvIndex := NumberAt(Entries(h.uvIndex), index),
        visibility := if vis.Known? then Known(vis.value / MetresPerMile) else Dashes,
        timestamp := None))
  }

  /** When the current time first occurs at hour `k` of the hourly series
      and every series is present, the hourly readings are the ones
      recorded at `k`, visibility converted from metres to miles. */
  lemma ParseReadsMatchedHour(data: Payload, k: nat)
    requires data.hourly.Some? && CurrentOf(data).time.Some?
    requires k < |data.hourly.value.time| && data.hourly.value.time[k] == CurrentOf(data).time.value
    requires CurrentOf(data).time.value !in data.hourly.value.time[..k]
    requires !SeriesMissing(data.hourly.value)
    ensures var h := data.hourly.value; var r := ParseWeatherResponse(data);
            var hum, pre, uv, vis, app := h.relativeHumidity.value, h.pressureMsl.value, h.uvIndex.value,
                                          h.visibility.value, h.apparentTemperature.value;
            r.Some?
            && (k < |hum| && hum[k].Some? ==> r.value.humidity == Known(hum[k].value))
            && (k < |pre| && pre[k].Some? ==> r.value.pressure == Known(pre[k].value))
            && (k < |uv| && uv[k].Some? ==> r.value.uvIndex == Known(uv[k].value))
            && (k < |vis| && vis[k].Some? ==> r.value.visibility == Known(vis[k].value / MetresPerMile))
            && (k < |app| ==> r.value.feelsLike == Known(Round(app[k].GetOr(0.0))))
  {
  }

  /** `setWeatherFallback`'s fixed record. */
  const Fallback: WeatherRecord := WeatherRecord(
    temperature := Known(72),
    description := "Pleasant",
    icon := DefaultIcon,
    location := "Atlanta, GA",
    feelsLike := Known(72),
    humidity := Known(65.0),
    windSpeed := Known(5),
    pressure := Known(30.0),
    uvIndex := Known(5.0),
    visibility := Known(10.0),
    timestamp := None)

  /** The check `ensureWeatherPopulates` makes after each attempt:
      `weatherData.temperature && weatherData.location`. */
  predicate Populated(w: WeatherRecord) {
    Truthy(w.temperature) && w.location != ""
  }

  lemma FallbackIsPopulated()
    ensures Populated(Fallback)
  {
  }

  /** The candidate locations of `updateWeather`, in the order tried. */
  const LocationNames: seq<string> := ["Atlanta, GA", "New York, NY", "London, UK"]

  /** What one weather request yields: a transport error, a non-ok status,
      a body that does not parse as JSON or a `null` body all count as
      `Failed`. */
  datatype FetchOutcome = Failed | Delivered(data: Payload)

  /** The outcome met by the `k`-th request against the outcome sequence
      `net`; requests beyond its end fail. */
  function NthOutcome(net: seq<FetchOutcome>, k: nat): FetchOutcome {
    if k < |net| then net[k] else Failed
  }

  /** The outcomes left after `k` requests. */
  function Drop(net: seq<FetchOutcome>, k: nat): seq<FetchOutcome> {
    if k <= |net| then net[k..] else []
  }

  lemma DropStep(net: seq<FetchOutcome>, k: nat)
    ensures NthOutcome(Drop(net, k), 0) == NthOutcome(net, k)
    ensures Drop(Drop(net, k), 1) == Drop(net, k + 1)
  {
  }

  /** The record a request yields, or `None` when it fails or its body
      makes `parseWeatherResponse` throw; either way the loop then goes on
      to the next candidate. */
  function Answer(outcome: FetchOutcome): (r: Option<WeatherRecord>)
    ensures outcome.Failed? ==> r.None?
    ensures outcome.Delivered? ==> r == ParseWeatherResponse(outcome.data)
  {
    match outcome
    case Failed => None
    case Delivered(data) => ParseWeatherResponse(data)
  }

  /** A record parsed for candidate `k`, stamped with its name and time. */
  function Located(w: WeatherRecord, k: nat, now: int): (r: WeatherRecord)
    requires k < |LocationNames|
    ensures r.location == LocationNames[k] && r.timestamp == Some(now)
    ensures r.(location := w.location, timestamp := w.timestamp) == w
  {
    w.(location := LocationNames[k], timestamp := Some(now))
  }

  /** The loop of `updateWeather` from candidate `k` on: the record it ends
      with and the number of requests made so far. */
  function TryLocations(net: seq<FetchOutcome>, now: int, k: nat): (WeatherRecord, nat)
    requires k < |LocationNames|
    decreases |LocationNames| - k
  {
    match Answer(NthOutcome(net, k))
    case Some(w) => (Located(w, k, now), k + 1)
    case None =>
      if k + 1 == |LocationNames| then (Fallback, |LocationNames|)
      else TryLocations(net, now, k + 1)
  }

  /** `updateWeather` against the outcomes `net`: the record stored in
      `weatherData` and the number of requests made. */
  function UpdateWeatherResult(net: seq<FetchOutcome>, now: int): (r: (WeatherRecord, nat))
    ensures 1 <= r.1 <= |LocationNames|
  {
    TryLocationsBounds(net, now, 0);
    TryLocations(net, now, 0)
  }

  lemma {:induction false} TryLocationsBounds(net: seq<FetchOutcome>, now: int, k: nat)
    requires k < |LocationNames|
    ensures k + 1 <= TryLocations(net, now, k).1 <= |LocationNames|
    decreases |LocationNames| - k
  {
    if Answer(NthOutcome(net, k)).None? && k + 1 < |LocationNames| {
      TryLocationsBounds(net, now, k + 1);
    }
  }

  lemma {:induction false} TryLocationsFirstDelivered(net: seq<FetchOutcome>, now: int, k: nat, j: nat)
    requires k <= j < |LocationNames|
    requires Answer(NthOutcome(net, j)).Some?
    requires forall i :: k <= i < j ==> Answer(NthOutcome(net, i)).None?
    ensures TryLocations(net, now, k) == (Located(Answer(NthOutcome(net, j)).value, j, now), j + 1)
    decreases j - k
  {
    if k < j {
      TryLocationsFirstDelivered(net, now, k + 1, j);
    }
  }

  lemma {:induction false} TryLocationsAllFailed(net: seq<FetchOutcome>, now: int, k: nat)
    requires k < |LocationNames|
    requires forall i :: k <= i < |LocationNames| ==> Answer(NthOutcome(net, i)).None?
    ensures TryLocations(net, now, k) == (Fallback, |LocationNames|)
    decreases |LocationNames| - k
  {
    if k + 1 < |LocationNames| {
      TryLocationsAllFailed(net, now, k + 1);
    }
  }

  /** The candidates are tried in order and the first that answers with a
      body that parses wins: its parsed record, stamped with its own name,
      is kept, and no later candidate is asked. */
  lemma FirstAnsweringLocationWins(net: seq<FetchOutcome>, now: int, j: nat)
    requires j < |LocationNames| && Answer(NthOutcome(net, j)).Some?
    requires forall i :: 0 <= i < j ==> Answer(NthOutcome(net, i)).None?
    ensures UpdateWeatherResult(net, now) == (Located(Answer(NthOutcome(net, j)).value, j, now), j + 1)
  {
    TryLocationsFirstDelivered(net, now, 0, j);
  }

  /** When no candidate yields a record, the fallback record is installed
      after three requests. */
  lemma AllLocationsFailedFallsBack(net: seq<FetchOutcome>, now: int)
    requires forall i :: 0 <= i < |LocationNames| ==> Answer(NthOutcome(net, i)).None?
    ensures UpdateWeatherResult(net, now) == (Fallback, |LocationNames|)
  {
    TryLocationsAllFailed(net, now, 0);
  }

  /** A candidate whose body makes `parseWeatherResponse` throw is skipped
      like one whose request failed: when the first candidate's body lacks a
      series at the matched hour and the second candidate's parses, the
      second is kept. */
  lemma ThrowingParseSkipsLocation(net: seq<FetchOutcome>, now: int)
    requires NthOutcome(net, 0).Delivered? && ParseThrows(NthOutcome(net, 0).data)
    requires Answer(NthOutcome(net, 1)).Some?
    ensures UpdateWeatherResult(net, now) == (Located(Answer(NthOutcome(net, 1)).value, 1, now), 2)
  {
    FirstAnsweringLocationWins(net, now, 1);
  }

  /** The end state of `ensureWeatherPopulates`: its return value, the
      record left in `weatherData`, the outcomes not consumed, and the number
      of `updateWeather` calls made. */
  datatype Populate = Populate(populated: bool, record: WeatherRecord, remaining: seq<FetchOutcome>, calls: nat)

  /** The retry loop of `ensureWeatherPopulates` from attempt `attempts` on. */
  function PopulateFrom(net: seq<FetchOutcome>, now: int, attempts: nat): Populate
    requires attempts <= 3
    decreases 3 - attempts
  {
    if attempts == 3 then Populate(false, Fallback, net, 0)
    else
      var (w, tried) := UpdateWeatherResult(net, now);
      if Populated(w) then Populate(true, w, Drop(net, tried), 1)
      else
        var p := PopulateFrom(Drop(net, tried), now, attempts + 1);
        p.(calls := p.calls + 1)
  }

  /** From any attempt on, `updateWeather` is called at least once and at
      most the remaining number of attempts; the loop reports failure only
      after using them all, and then leaves the fallback record; in every
      case the record left behind passes the populated check. */
  lemma {:induction false} PopulateFromBounds(net: seq<FetchOutcome>, now: int, attempts: nat)
    requires attempts < 3
    ensures var p := PopulateFrom(net, now, attempts);
            1 <= p.calls <= 3 - attempts
            && Populated(p.record)
            && (!p.populated ==> p.calls == 3 - attempts && p.record == Fallback)
    decreases 3 - attempts
  {
    var (w, tried) := UpdateWeatherResult(net, now);
    if !Populated(w) && attempts + 1 < 3 {
      PopulateFromBounds(Drop(net, tried), now, attempts + 1);
    }
  }

  /** One attempt of the retry loop: the `updateWeather` result either
      ends it or leaves the rest of the loop one call shorter. */
  lemma PopulateFromStep(net: seq<FetchOutcome>, now: int, attempts: nat)
    requires attempts < 3
    ensures var (w, tried) := UpdateWeatherResult(net, now);
            (Populated(w) ==> PopulateFrom(net, now, attempts) == Populate(true, w, Drop(net, tried), 1))
            && (!Populated(w) ==>
                  var rest := PopulateFrom(Drop(net, tried), now, attempts + 1);
                  PopulateFrom(net, now, attempts) == rest.(calls := rest.calls + 1))
  {
  }

  /** `ensureWeatherPopulates` against the outcomes `net`. */
  function EnsureWeatherPopulatesResult(net: seq<FetchOutcome>, now: int): (p: Populate)
    ensures 1 <= p.calls <= 3
    ensures Populated(p.record)
    ensures !p.populated ==> p.record == Fallback && p.calls == 3
  {
    PopulateFromBounds(net, now, 0);
    PopulateFrom(net, now, 0)
  }

  /** Because `updateWeather` installs the fallback itself when every
      location fails, a first attempt whose three requests all fail already
      counts as populated: the loop stops after one call. */
  lemma NetworkDownPopulatesWithFallback(net: seq<FetchOutcome>, now: int)
    requires forall i :: 0 <= i < |LocationNames| ==> Answer(NthOutcome(net, i)).None?
    ensures EnsureWeatherPopulatesResult(net, now) == Populate(true, Fallback, Drop(net, 3), 1)
  {
    AllLocationsFailedFallsBack(net, now);
    FallbackIsPopulated();
  }
}
