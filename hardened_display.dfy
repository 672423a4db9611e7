/** The hardened build of the display controller (`StatusDisplay` of the
    hardened web client): a stricter theme switch that reverts to the default
    stylesheet, theme prefetching, numeric key selection, and a weather path
    with a freshness window, two providers behind a one-at-a-time call queue,
    a range validator and exponential-backoff retries. */
module HardenedDisplay {
  import opened Wrappers
  import opened Strings
  import opened ThemeCatalog
  import OpenMeteo

  /** What a weather provider produced, as far as `validateWeatherData`
      looks at it: `None` is a member that is not a number (or not a string). */
  datatype Observation = Observation(
    temperature: Option<int>,
    description: Option<string>,
    location: Option<string>,
    icon: string)

  /** `validateWeatherData`: a numeric temperature strictly between -100 and
      150, and a description and a location that are strings (empty strings
      included). */
  predicate ValidateWeatherData(data: Observation) {
    data.temperature.Some? && data.description.Some? && data.location.Some?
    && -100 < data.temperature.value < 150
  }

  /** `getWeatherIcon` on OpenWeatherMap's `weather[0].main`. The strings
      in the file are double-encoded; these are the emoji they encode. */
  function GetWeatherIcon(weatherMain: string): (icon: string)
    ensures weatherMain == "Clear" ==> icon == OpenMeteo.Sun
    ensures weatherMain == "Clouds" ==> icon == OpenMeteo.Cloud
    ensures weatherMain == "Rain" ==> icon == OpenMeteo.RainCloud
    ensures weatherMain == "Drizzle" ==> icon == SunBehindRainCloud
    ensures weatherMain == "Thunderstorm" ==> icon == OpenMeteo.ThunderCloud
    ensures weatherMain == "Snow" ==> icon == OpenMeteo.Snowflake
    ensures weatherMain in {"Mist", "Fog", "Haze"} ==> icon == OpenMeteo.FogIcon
    ensures weatherMain !in IconKeys ==> icon == OpenMeteo.DefaultIcon
  {
    if weatherMain in IconMap then IconMap[weatherMain] else OpenMeteo.DefaultIcon
  }

  const SunBehindRainCloud := "\U{1F326}\U{FE0F}"

  const IconMap: map<string, string> := map[
    "Clear" := OpenMeteo.Sun,
    "Clouds" := OpenMeteo.Cloud,
    "Rain" := OpenMeteo.RainCloud,
    "Drizzle" := SunBehindRainCloud,
    "Thunderstorm" := OpenMeteo.ThunderCloud,
    "Snow" := OpenMeteo.Snowflake,
    "Mist" := OpenMeteo.FogIcon,
    "Fog" := OpenMeteo.FogIcon,
    "Haze" := OpenMeteo.FogIcon
  ]

  const IconKeys: set<string> := {"Clear", "Clouds", "Rain", "Drizzle", "Thunderstorm", "Snow", "Mist", "Fog", "Haze"}

  /** OpenWeatherMap's `main` object, as far as it is read: `temp` (`None`:
      missing or not a number). */
  datatype OwmMain = OwmMain(temp: Option<real>)

  /** The first element of OpenWeatherMap's `weather` array: `description`
      (`None`: not a string) and the condition group `main`. */
  datatype OwmWeather = OwmWeather(description: Option<string>, main: string)

  /** The JSON body of an OpenWeatherMap `weather` response. `main` and
      `weather0` are `None` when `data.main` or `data.weather[0]` is
      missing; `hasWind` says whether `data.wind` is present; `name` is
      `None` when it is not a string. */
  datatype OwmBody = OwmBody(main: Option<OwmMain>, weather0: Option<OwmWeather>, name: Option<string>, hasWind: bool)

  /** A response to the OpenWeatherMap request: the HTTP `ok` flag and the
      body, `None` when `response.json()` rejects or yields `null` or a
      value that is not an object. */
  datatype OwmResponse = OwmResponse(ok: bool, body: Option<OwmBody>)

  /** The outcome of one provider call: it threw, or it returned a value. */
  datatype ProviderResult = Threw | Returned(data: Observation)

  /** A response `fetchOpenWeatherMap` reads without throwing: ok, with a
      body whose `main`, `weather[0]` and `wind` are all present. */
  predicate Readable(resp: OwmResponse) {
    resp.ok && resp.body.Some? && resp.body.value.main.Some?
    && resp.body.value.weather0.Some? && resp.body.value.hasWind
  }

  /** `fetchOpenWeatherMap` on the response it meets (`None`: the request
      itself failed). A failed request, a non-ok status, a body that does
      not parse to an object, or a missing `main`, `weather[0]` or `wind`
      throws; otherwise the temperature is rounded (a missing one is `NaN`,
      modelled as not a number), the description and the name are passed
      on and the icon comes from `weather[0].main`. */
  function FetchOpenWeatherMap(response: Option<OwmResponse>): (r: ProviderResult)
    ensures r.Threw? <==>
              response.None? || !response.value.ok || response.value.body.None?
              || response.value.body.value.main.None? || response.value.body.value.weather0.None?
              || !response.value.body.value.hasWind
    ensures r.Returned? ==>
              var b := response.value.body.value;
              r.data.description == b.weather0.value.description
              && r.data.location == b.name
              && r.data.icon == GetWeatherIcon(b.weather0.value.main)
              && (r.data.temperature.Some? <==> b.main.value.temp.Some?)
              && (r.data.temperature.Some? ==>
                    b.main.value.temp.value - 0.5 < r.data.temperature.value as real <= b.main.value.temp.value + 0.5)
  {
    match response
    case None => Threw
    case Some(resp) =>
      if !Readable(resp) then Threw
      else
        var b := resp.body.value;
        var temperature := match b.main.value.temp
          case Some(t) => Some(OpenMeteo.Round(t))
          case None => None;
        Returned(Observation(temperature, b.weather0.value.description, b.name, GetWeatherIcon(b.weather0.value.main)))
  }

  /** A provider result that `fetchWeatherWithFallback` accepts. */
  predicate Acceptable(r: ProviderResult) {
    r.Returned? && ValidateWeatherData(r.data)
  }

  /** `fetchWeatherWithFallback` over the providers' results in list order:
      the first acceptable result, or `None` (the thrown 'All weather APIs
      failed'). */
  function FirstAcceptable(results: seq<ProviderResult>): (r: Option<Observation>)
    ensures r.None? <==> forall i :: 0 <= i < |results| ==> !Acceptable(results[i])
    ensures r.Some? ==> exists i :: 0 <= i < |results| && results[i] == Returned(r.value)
                                    && ValidateWeatherData(r.value)
                                    && forall j :: 0 <= j < i ==> !Acceptable(results[j])
  {
    if results == [] then None
    else if Acceptable(results[0]) then Some(results[0].data)
    else
      var r := FirstAcceptable(results[1..]);
      assert forall i :: 1 <= i < |results| ==> results[i] == results[1..][i - 1];
      if r.Some? then
        var i :| 0 <= i < |results[1..]| && results[1..][i] == Returned(r.value)
                 && ValidateWeatherData(r.value) && forall j :: 0 <= j < i ==> !Acceptable(results[1..][j]);
        assert results[i + 1] == Returned(r.value);
        assert forall j :: 0 <= j < i + 1 ==> !Acceptable(results[j]);
        r
      else r
  }

  /** The results of the provider list, OpenWeatherMap then WeatherAPI,
      on the response OpenWeatherMap meets; `fetchWeatherAPI` always
      throws. */
  function ProviderResults(response: Option<OwmResponse>): (rs: seq<ProviderResult>)
    ensures |rs| == 2 && rs[1] == Threw
  {
    [FetchOpenWeatherMap(response), Threw]
  }

  /** Fetching with fallback succeeds exactly when OpenWeatherMap answers
      ok with a readable body holding a numeric temperature that rounds
      into `(-100, 150)`, a description and a name, and then yields
      OpenWeatherMap's data. */
  lemma {:induction false} OnlyOpenWeatherMapCanSucceed(response: Option<OwmResponse>)
    ensures FirstAcceptable(ProviderResults(response)).Some? <==>
              response.Some? && Readable(response.value)
              && var b := response.value.body.value;
                 b.main.value.temp.Some? && b.weather0.value.description.Some? && b.name.Some?
                 && -100 < OpenMeteo.Round(b.main.value.temp.value) < 150
    ensures FirstAcceptable(ProviderResults(response)).Some? ==>
              Returned(FirstAcceptable(ProviderResults(response)).value) == FetchOpenWeatherMap(response)
  {
    var rs := ProviderResults(response);
    assert FirstAcceptable(rs[1..]) == None by {
      assert rs[1..] == [Threw];
      assert FirstAcceptable([Threw][1..]) == None;
    }
  }

  /** A 200 response whose body lacks `wind` makes `fetchOpenWeatherMap`
      throw, so fetching with fallback fails however complete the rest of
      the body is. */
  lemma MissingWindFails(b: OwmBody)
    requires !b.hasWind
    ensures FetchOpenWeatherMap(Some(OwmResponse(true, Some(b)))) == Threw
    ensures FirstAcceptable(ProviderResults(Some(OwmResponse(true, Some(b))))).None?
  {
    OnlyOpenWeatherMapCanSucceed(Some(OwmResponse(true, Some(b))));
  }

  /** A queued provider call, identified by the order it was queued in, with
      the result it will produce when run. */
  datatype QueuedCall = QueuedCall(id: nat, result: ProviderResult)

  /** The settling of one call's promise: resolved with the returned value,
      or rejected. */
  datatype Settlement = Settlement(id: nat, result: ProviderResult)

  /** The settlements of draining `queue` front to back. */
  function SettleAll(queue: seq<QueuedCall>): (r: seq<Settlement>)
    ensures |r| == |queue|
    ensures forall i :: 0 <= i < |queue| ==> r[i] == Settlement(queue[i].id, queue[i].result)
  {
    if queue == [] then [] else [Settlement(queue[0].id, queue[0].result)] + SettleAll(queue[1..])
  }

  /** The provider results `fetchWeatherWithFallback` goes through: in list
      order, up to and including the first acceptable one, or all of them
      when none is. */
  function Tried(results: seq<ProviderResult>): (t: seq<ProviderResult>)
    ensures |t| <= |results| && t == results[..|t|]
    ensures results != [] ==> |t| >= 1
    ensures forall j :: 0 <= j < |t| - 1 ==> !Acceptable(t[j])
    ensures |t| < |results| ==> Acceptable(t[|t| - 1])
  {
    if results == [] then []
    else if Acceptable(results[0]) then [results[0]]
    else [results[0]] + Tried(results[1..])
  }

  /** The results up to an acceptable one that follows only refused ones
      are the ones tried. */
  lemma {:induction false} TriedStopsAt(results: seq<ProviderResult>, i: nat)
    requires i < |results| && Acceptable(results[i])
    requires forall j :: 0 <= j < i ==> !Acceptable(results[j])
    ensures Tried(results) == results[..i + 1]
  {
    if i > 0 {
      TriedStopsAt(results[1..], i - 1);
      assert results[..i + 1] == [results[0]] + results[1..][..i];
    }
  }

  /** When every result is refused, all of them are tried. */
  lemma {:induction false} TriedAll(results: seq<ProviderResult>)
    requires forall j :: 0 <= j < |results| ==> !Acceptable(results[j])
    ensures Tried(results) == results
  {
    if results != [] {
      TriedAll(results[1..]);
      assert results == [results[0]] + results[1..];
    }
  }

  /** OpenWeatherMap is always called, and WeatherAPI only after the
      OpenWeatherMap result has been refused. */
  lemma WeatherApiOnlyAfterRefusal(response: Option<OwmResponse>)
    ensures Tried(ProviderResults(response))
            == if Acceptable(FetchOpenWeatherMap(response)) then [FetchOpenWeatherMap(response)]
               else [FetchOpenWeatherMap(response), Threw]
  {
    var rs := ProviderResults(response);
    if Acceptable(rs[0]) {
      TriedStopsAt(rs, 0);
    } else {
      TriedAll(rs);
    }
  }

  /** The settlements of calls queued with `results`, numbered from `id`. */
  function Numbered(id: nat, results: seq<ProviderResult>): (s: seq<Settlement>)
    ensures |s| == |results|
    ensures forall i :: 0 <= i < |s| ==> s[i] == Settlement(id + i, results[i])
    decreases |results|
  {
    if results == [] then [] else [Settlement(id, results[0])] + Numbered(id + 1, results[1..])
  }

  lemma SettleAllAppend(a: seq<QueuedCall>, b: seq<QueuedCall>)
    ensures SettleAll(a + b) == SettleAll(a) + SettleAll(b)
  {
    var l, r := SettleAll(a + b), SettleAll(a) + SettleAll(b);
    assert |l| == |r|;
    forall i | 0 <= i < |l|
      ensures l[i] == r[i]
    {
      if i < |a| {
        assert (a + b)[i] == a[i];
      } else {
        assert (a + b)[i] == b[i - |a|];
      }
    }
  }

  /** Draining settles each queued call exactly once and in queue order: the
      i-th settlement belongs to the i-th queued call, and a call id that was
      queued once is settled once. */
  lemma DrainSettlesEachOnce(queue: seq<QueuedCall>, id: nat)
    requires forall i, j :: 0 <= i < j < |queue| ==> queue[i].id != queue[j].id
    ensures forall i, j :: 0 <= i < j < |SettleAll(queue)| ==> SettleAll(queue)[i].id != SettleAll(queue)[j].id
    ensures (exists i :: 0 <= i < |queue| && queue[i].id == id)
              <==> (exists i :: 0 <= i < |SettleAll(queue)| && SettleAll(queue)[i].id == id)
  {
    var s := SettleAll(queue);
    if exists i :: 0 <= i < |s| && s[i].id == id {
      var i :| 0 <= i < |s| && s[i].id == id;
      assert queue[i].id == id;
    }
  }

  /** `Math.pow(2, n)` for a natural `n`. */
  function Pow2(n: nat): (p: nat)
    ensures p >= 1
  {
    if n == 0 then 1 else 2 * Pow2(n - 1)
  }

  /** The pause, in milliseconds, the queue processor takes after each
      call. */
  const CallSpacing: nat := 100

  const MaxRetries: nat := 3
  const CacheExpiry: int := 10 * 60 * 1000

  /** What `handleWeatherError` does once `retryCount` has been incremented
      to `retryCount`: schedule a retry after `2^retryCount * 1000` ms while
      the count is at most `maxRetries`, else show the fallback (`None`). */
  function RetryDelay(retryCount: nat): (d: Option<nat>)
    ensures d.Some? <==> retryCount <= MaxRetries
    ensures d.Some? ==> d.value == Pow2(retryCount) * 1000
  {
    if retryCount <= MaxRetries then Some(Pow2(retryCount) * 1000) else None
  }

  /** The first three consecutive failures back off by 2, 4 and 8 seconds;
      the fourth shows the fallback instead, as does every later one. */
  lemma BackoffSchedule(n: nat)
    ensures RetryDelay(1) == Some(2000) && RetryDelay(2) == Some(4000) && RetryDelay(3) == Some(8000)
    ensures n > MaxRetries ==> RetryDelay(n) == None
  {
    assert Pow2(1) == 2 && Pow2(2) == 4 && Pow2(3) == 8;
  }

  /** Each backoff delay doubles the previous one. */
  lemma {:induction false} BackoffDoubles(n: nat)
    requires 1 <= n < MaxRetries
    ensures RetryDelay(n + 1).value == 2 * RetryDelay(n).value
  {
    assert Pow2(n + 1) == 2 * Pow2(n);
  }

  /** `preloadNextTheme`: the theme after `currentTheme` in the catalog,
      wrapping after the last; a theme outside the catalog (index -1)
      prefetches the first entry. */
  function PreloadTarget(currentTheme: string): (t: string)
    ensures t in Themes
    ensures currentTheme in Themes ==> t == Themes[NextIndex(CatalogIndex(currentTheme))]
    ensures currentTheme !in Themes ==> t == DefaultTheme
  {
    Themes[NextIndex(CatalogIndex(currentTheme))]
  }

  /** The catalog's successor relation seen through `preloadNextTheme`:
      entry `k` prefetches entry `k + 1`, and the last wraps to the first. */
  lemma PreloadFollowsCatalog(k: int)
    requires 0 <= k < |Themes|
    ensures PreloadTarget(Themes[k]) == Themes[(k + 1) % |Themes|]
  {
    CatalogIndexOfEntry(k);
  }

  /** The keyboard shortcuts' effects. */
  datatype KeyAction = ToggleFullscreen | RefreshWeather | RotateNext | SelectTheme(index: int) | NoAction

  /** The `switch` of the key handler on `e.key.toLowerCase()`. */
  function KeyActionOf(key: string): (a: KeyAction)
    ensures a.SelectTheme? ==> 0 <= a.index < |Themes|
  {
    var k := Lower(key);
    if k == "f" then ToggleFullscreen
    else if k == "r" then RefreshWeather
    else if k == "t" then RotateNext
    else if |k| == 1 && '1' <= k[0] <= '9' then SelectTheme(k[0] as int - '0' as int - 1)
    else if k == "0" then SelectTheme(9)
    else if k == "-" then SelectTheme(10)
    else if k == "=" then SelectTheme(11)
    else NoAction
  }

  /** The key that selects catalog entry `i`: `'1'`..`'9'` for the first
      nine, then `'0'`, `'-'` and `'='`. */
  function ThemeKey(i: int): (key: string)
    requires 0 <= i < |Themes|
    ensures |key| == 1
  {
    if i < 9 then [('1' as int + i) as char]
    else if i == 9 then "0"
    else if i == 10 then "-"
    else "="
  }

  /** Every catalog entry has its own key, and pressing it selects that
      entry. */
  lemma ThemeKeySelects(i: int)
    requires 0 <= i < |Themes|
    ensures KeyActionOf(ThemeKey(i)) == SelectTheme(i)
  {
    var key := ThemeKey(i);
    assert Lower(key) == [LowerChar(key[0])];
  }

  /** Conversely, a key that selects a theme is that theme's key. */
  lemma SelectingKeyIsThemeKey(key: string)
    requires KeyActionOf(key).SelectTheme?
    ensures Lower(key) == ThemeKey(KeyActionOf(key).index)
  {
    var k := Lower(key);
    if |k| == 1 && '1' <= k[0] <= '9' {
      assert k == [k[0]];
    }
  }

  class StatusDisplay {
    var currentThemeIndex: int
    var autoRotateInterval: Option<nat>
    var timers: set<nat>
    var nextHandle: nat
    var page: Page
    var storage: map<string, string>
    /** The `href`s of the prefetch links appended to the document head. */
    var prefetchLinks: seq<string>
    var selectorListening: bool
    var weatherData: Option<Observation>
    var lastWeatherUpdate: int
    var retryCount: nat
    /** The delays of the retries handed to `setTimeout`, oldest first. */
    var scheduledRetries: seq<nat>
    var fallbackShown: bool
    var apiCallQueue: seq<QueuedCall>
    var isProcessingQueue: bool
    /** Every provider-call promise settled so far, in order. */
    var settled: seq<Settlement>
    var nextCallId: nat
    /** The milliseconds the queue processor has spent in its pauses
        between calls. */
    var pausedMs: nat

    ghost predicate Valid()
      reads this`currentThemeIndex, this`autoRotateInterval, this`timers, this`nextHandle,
            this`selectorListening, this`page, this`isProcessingQueue, this`apiCallQueue
    {
      -1 <= currentThemeIndex < |Themes|
      && (autoRotateInterval.None? ==> timers == {})
      && (autoRotateInterval.Some? ==>
            timers == {autoRotateInterval.value} && autoRotateInterval.value < nextHandle)
      && (selectorListening ==> page.CanApply())
      && !isProcessingQueue && apiCallQueue == []
    }

    lemma AtMostOneRotation()
      requires Valid()
      ensures |timers| <= 1
      ensures timers != {} <==> autoRotateInterval.Some?
    {
    }

    constructor (page0: Page, storage0: map<string, string>)
      ensures Valid()
      ensures currentThemeIndex == 0 && autoRotateInterval == None && timers == {}
      ensures page == page0 && storage == storage0 && prefetchLinks == [] && !selectorListening
      ensures weatherData == None && lastWeatherUpdate == 0 && retryCount == 0
      ensures scheduledRetries == [] && !fallbackShown && settled == []
    {
      currentThemeIndex := 0;
      autoRotateInterval := None;
      timers := {};
      nextHandle := 1;
      page := page0;
      storage := storage0;
      prefetchLinks := [];
      selectorListening := false;
      weatherData := None;
      lastWeatherUpdate := 0;
      retryCount := 0;
      scheduledRetries := [];
      fallbackShown := false;
      apiCallQueue := [];
      isProcessingQueue := false;
      settled := [];
      nextCallId := 0;
      pausedMs := 0;
    }

    /** `applyStyle`: a catalog path is applied to the link and the
        dropdown, persisted, and its successor prefetched; any other path
        reverts the link and the dropdown to `style.css` and persists
        nothing. */
    method ApplyStyle(themePath: string)
      requires page.CanApply()
      modifies this`page, this`storage, this`prefetchLinks
      ensures themePath in Themes ==>
                page == old(page).(href := themePath, dropdownValue := themePath)
                && storage == old(storage)[SelectedStyleKey := themePath]
                && prefetchLinks == old(prefetchLinks) + [PreloadTarget(themePath)]
      ensures themePath !in Themes ==>
                page == old(page).(href := DefaultTheme, dropdownValue := DefaultTheme)
                && storage == old(storage) && prefetchLinks == old(prefetchLinks)
    {
      if themePath !in Themes {
        page := page.(href := DefaultTheme, dropdownValue := DefaultTheme);
        return;
      }
      page := page.(href := themePath, dropdownValue := themePath);
      storage := storage[SelectedStyleKey := themePath];
      PreloadNextTheme(themePath);
    }

    /** `preloadNextTheme`: one prefetch link for the following theme. */
    method PreloadNextTheme(currentTheme: string)
      modifies this`prefetchLinks
      ensures prefetchLinks == old(prefetchLinks) + [PreloadTarget(currentTheme)]
    {
      var nextTheme := Themes[NextIndex(CatalogIndex(currentTheme))];
      prefetchLinks := prefetchLinks + [nextTheme];
    }

    /** `stopAutoRotate` */
    method StopAutoRotate()
      requires Valid()
      modifies this`autoRotateInterval, this`timers
      ensures Valid()
      ensures autoRotateInterval == None && timers == {}
      ensures old(autoRotateInterval).None? ==> timers == old(timers)
    {
      if autoRotateInterval.Some? {
        timers := timers - {autoRotateInterval.value};
        autoRotateInterval := None;
      }
    }

    /** `startAutoRotate`: stops first, then arms one fresh interval, which
        is then the only one; the index is not re-synced. */
    method StartAutoRotate()
      requires Valid()
      modifies this`autoRotateInterval, this`timers, this`nextHandle
      ensures Valid()
      ensures autoRotateInterval.Some? && autoRotateInterval.value !in old(timers)
      ensures timers == {autoRotateInterval.value}
    {
      StopAutoRotate();
      var handle := nextHandle;
      nextHandle := nextHandle + 1;
      timers := timers + {handle};
      autoRotateInterval := Some(handle);
    }

    /** One firing of the rotation interval: the index advances by one
        modulo 12, and the theme is applied only while the checkbox is
        checked and the elements exist; the interval never stops itself. */
    method RotationTick()
      requires Valid() && autoRotateInterval.Some?
      modifies this`page, this`storage, this`prefetchLinks, this`currentThemeIndex
      ensures Valid()
      ensures currentThemeIndex == NextIndex(old(currentThemeIndex))
      ensures var enabled := old(page).hasCheckbox && old(page).checked && old(page).CanApply();
              var theme := Themes[currentThemeIndex];
              (enabled ==>
                 page == old(page).(href := theme, dropdownValue := theme)
                 && storage == old(storage)[SelectedStyleKey := theme]
                 && prefetchLinks == old(prefetchLinks) + [PreloadTarget(theme)])
              && (!enabled ==>
                    page == old(page) && storage == old(storage) && prefetchLinks == old(prefetchLinks))
    {
      currentThemeIndex := NextIndex(currentThemeIndex);
      if page.hasCheckbox && page.checked && page.CanApply() {
        ApplyStyle(Themes[currentThemeIndex]);
      }
    }

    /** `rotateTheme` (the `t` key): advances the index by one modulo 12 and
        applies that theme when the elements exist. */
    method RotateTheme()
      requires Valid()
      modifies this`page, this`storage, this`prefetchLinks, this`currentThemeIndex
      ensures Valid()
      ensures currentThemeIndex == NextIndex(old(currentThemeIndex))
      ensures old(page).CanApply() ==> ShowsTheme(Themes[currentThemeIndex])
      ensures !old(page).CanApply() ==>
                page == old(page) && storage == old(storage) && prefetchLinks == old(prefetchLinks)
      ensures WeatherUnchanged()
    {
      currentThemeIndex := NextIndex(currentThemeIndex);
      if page.CanApply() {
        ApplyStyle(Themes[currentThemeIndex]);
      }
    }

    /** `selectThemeByNumber`: outside `[0, 12)`, or without the elements,
        nothing changes; otherwise entry `index` is applied and becomes the
        current index. */
    method SelectThemeByNumber(index: int)
      requires Valid()
      modifies this`page, this`storage, this`prefetchLinks, this`currentThemeIndex
      ensures Valid()
      ensures 0 <= index < |Themes| && old(page).CanApply() ==>
                currentThemeIndex == index && ShowsTheme(Themes[index])
      ensures !(0 <= index < |Themes| && old(page).CanApply()) ==> ThemeUnchanged()
      ensures WeatherUnchanged()
    {
      if 0 <= index < |Themes| && page.CanApply() {
        ApplyStyle(Themes[index]);
        currentThemeIndex := index;
      }
    }

    /** `initStyleSelector`: without the elements nothing happens; a saved
        catalog style is applied with its index (anything else leaves the
        index as it was); the checkbox takes the saved setting and a saved
        `'true'` starts the rotation; the listeners are registered. */
    method InitStyleSelector()
      requires Valid()
      modifies this`page, this`storage, this`prefetchLinks, this`currentThemeIndex,
               this`autoRotateInterval, this`timers, this`nextHandle, this`selectorListening
      ensures Valid()
      ensures !old(page).CanApply() ==>
                page == old(page) && storage == old(storage) && prefetchLinks == old(prefetchLinks)
                && currentThemeIndex == old(currentThemeIndex) && !selectorListening
                && autoRotateInterval == old(autoRotateInterval) && timers == old(timers)
      ensures old(page).CanApply() ==>
                var restore := SelectedStyleKey in old(storage) && old(storage)[SelectedStyleKey] in Themes;
                var saved := if restore then old(storage)[SelectedStyleKey] else DefaultTheme;
                var shown := if restore then old(page).(href := saved, dropdownValue := saved) else old(page);
                var auto := StoredTrue(old(storage), AutoRotateKey);
                selectorListening && storage == old(storage)
                && page == (if old(page).hasCheckbox then shown.(checked := auto) else shown)
                && currentThemeIndex == (if restore then CatalogIndex(saved) else old(currentThemeIndex))
                && prefetchLinks == old(prefetchLinks) + (if restore then [PreloadTarget(saved)] else [])
                && (old(page).hasCheckbox && auto ==> autoRotateInterval.Some? && timers == {autoRotateInterval.value})
                && (!(old(page).hasCheckbox && auto) ==>
                      autoRotateInterval == old(autoRotateInterval) && timers == old(timers))
    {
      if !page.CanApply() {
        return;
      }
      if SelectedStyleKey in storage && storage[SelectedStyleKey] in Themes {
        var savedStyle := storage[SelectedStyleKey];
        ApplyStyle(savedStyle);
        currentThemeIndex := CatalogIndex(savedStyle);
      }
      var savedAutoRotate := StoredTrue(storage, AutoRotateKey);
      if page.hasCheckbox {
        page := page.(checked := savedAutoRotate);
        if savedAutoRotate {
          StartAutoRotate();
        }
      }
      selectorListening := true;
    }

    /** The dropdown's `change` event with the user's choice `value`: the
        choice goes through `applyStyle`, the index follows it, and a
        checked auto-rotate box is unchecked, persisted as `'false'` and the
        rotation stopped. */
    method DropdownChanged(value: string)
      requires Valid() && page.hasDropdown
      modifies this`page, this`storage, this`prefetchLinks, this`currentThemeIndex,
               this`autoRotateInterval, this`timers
      ensures Valid()
      ensures !old(selectorListening) ==>
                page == old(page).(dropdownValue := value) && storage == old(storage)
                && prefetchLinks == old(prefetchLinks) && currentThemeIndex == old(currentThemeIndex)
                && autoRotateInterval == old(autoRotateInterval) && timers == old(timers)
      ensures old(selectorListening) ==>
                var cancel := old(page).hasCheckbox && old(page).checked;
                var target := if value in Themes then value else DefaultTheme;
                var shown := old(page).(href := target, dropdownValue := target);
                var saved := if value in Themes then old(storage)[SelectedStyleKey := value] else old(storage);
                currentThemeIndex == CatalogIndex(value)
                && page == (if cancel then shown.(checked := false) else shown)
                && storage == (if cancel then saved[AutoRotateKey := "false"] else saved)
                && prefetchLinks == old(prefetchLinks) + (if value in Themes then [PreloadTarget(value)] else [])
                && (cancel ==> autoRotateInterval == None && timers == {})
                && (!cancel ==> autoRotateInterval == old(autoRotateInterval) && timers == old(timers))
    {
      page := page.(dropdownValue := value);
      if !selectorListening {
        return;
      }
      ApplyStyle(value);
      currentThemeIndex := CatalogIndex(value);
      if page.hasCheckbox && page.checked {
        page := page.(checked := false);
        storage := storage[AutoRotateKey := "false"];
        StopAutoRotate();
      }
    }

    /** The checkbox's `change` event: with the selector's listener
        registered the state is persisted and the rotation runs exactly when
        the box is checked. */
    method CheckboxChanged(isChecked: bool)
      requires Valid() && page.hasCheckbox
      modifies this`page, this`storage, this`autoRotateInterval, this`timers, this`nextHandle
      ensures Valid()
      ensures page == old(page).(checked := isChecked)
      ensures selectorListening ==>
                storage == old(storage)[AutoRotateKey := BoolText(isChecked)]
                && (autoRotateInterval.Some? <==> isChecked)
      ensures !selectorListening ==>
                storage == old(storage) && autoRotateInterval == old(autoRotateInterval) && timers == old(timers)
    {
      page := page.(checked := isChecked);
      if selectorListening {
        storage := storage[AutoRotateKey := BoolText(isChecked)];
        if isChecked {
          StartAutoRotate();
        } else {
          StopAutoRotate();
        }
      }
    }

    /** `processAPIQueue`: takes the calls off the front of the queue one
        at a time, runs each, settles its promise and pauses 100 ms, until
        the queue is empty; then the processing flag is cleared. */
    method ProcessAPIQueue()
      modifies this`apiCallQueue, this`isProcessingQueue, this`settled, this`pausedMs
      ensures apiCallQueue == [] && !isProcessingQueue
      ensures settled == old(settled) + SettleAll(old(apiCallQueue))
      ensures pausedMs == old(pausedMs) + CallSpacing * |old(apiCallQueue)|
    {
      isProcessingQueue := true;
      ghost var k := 0;
      while |apiCallQueue| > 0
        invariant 0 <= k <= |old(apiCallQueue)|
        invariant apiCallQueue == old(apiCallQueue)[k..]
        invariant settled == old(settled) + SettleAll(old(apiCallQueue)[..k])
        invariant pausedMs == old(pausedMs) + CallSpacing * k
        decreases |apiCallQueue|
      {
        var call := apiCallQueue[0];
        apiCallQueue := apiCallQueue[1..];
        SettleAllAppend(old(apiCallQueue)[..k], [call]);
        assert old(apiCallQueue)[..k + 1] == old(apiCallQueue)[..k] + [call];
        settled := settled + [Settlement(call.id, call.result)];
        pausedMs := pausedMs + CallSpacing;
        k := k + 1;
      }
      assert old(apiCallQueue)[..k] == old(apiCallQueue);
      isProcessingQueue := false;
    }

    /** `rateLimitedAPICall`: queues the call and, since nothing is being
        processed, drains the queue at once; the call's own promise is the
        one settled, with the call's result. */
    method RateLimitedAPICall(result: ProviderResult) returns (r: ProviderResult)
      requires Valid()
      modifies this`apiCallQueue, this`isProcessingQueue, this`settled, this`nextCallId, this`pausedMs
      ensures Valid()
      ensures r == result
      ensures settled == old(settled) + [Settlement(old(nextCallId), result)]
      ensures nextCallId == old(nextCallId) + 1
      ensures pausedMs == old(pausedMs) + CallSpacing
    {
      apiCallQueue := apiCallQueue + [QueuedCall(nextCallId, result)];
      nextCallId := nextCallId + 1;
      if !isProcessingQueue {
        ProcessAPIQueue();
      }
      r := result;
    }

    /** `fetchWeatherWithFallback`: the providers are called through the
        queue in list order until one returns acceptable data; the result is
        the first acceptable one, or `None` when both fail. */
    method FetchWeatherWithFallback(response: Option<OwmResponse>) returns (data: Option<Observation>)
      requires Valid()
      modifies this`apiCallQueue, this`isProcessingQueue, this`settled, this`nextCallId,
               this`pausedMs
      ensures Valid()
      ensures data == FirstAcceptable(ProviderResults(response))
      ensures Queued(response)
    {
      var results := ProviderResults(response);
      var i := 0;
      while i < |results|
        invariant 0 <= i <= |results|
        invariant Valid()
        invariant forall j :: 0 <= j < i ==> !Acceptable(results[j])
        invariant settled == old(settled) + Numbered(old(nextCallId), results[..i])
        invariant nextCallId == old(nextCallId) + i
        invariant pausedMs == old(pausedMs) + CallSpacing * i
      {
        var r := RateLimitedAPICall(results[i]);
        assert Numbered(old(nextCallId), results[..i + 1])
               == Numbered(old(nextCallId), results[..i]) + [Settlement(old(nextCallId) + i, results[i])];
        if r.Returned? && ValidateWeatherData(r.data) {
          TriedStopsAt(results, i);
          return Some(r.data);
        }
        i := i + 1;
      }
      TriedAll(results);
      assert results[..i] == results;
      data := None;
    }

    /** `handleWeatherError`: the retry count goes up by one; while it is at
        most `maxRetries` a retry is scheduled after `2^retryCount` seconds,
        after that the fallback is shown. */
    method HandleWeatherError()
      modifies this`retryCount, this`scheduledRetries, this`fallbackShown
      ensures Failed()
    {
      retryCount := retryCount + 1;
      if retryCount <= MaxRetries {
        var delay := Pow2(retryCount) * 1000;
        scheduledRetries := scheduledRetries + [delay];
      } else {
        fallbackShown := true;
      }
    }

    /** The weather state after `updateWeather(now)` with geolocation
        giving `location` and OpenWeatherMap answering `response`: cached
        data under ten minutes old is kept; a missing or zero coordinate or
        a failure of both providers counts one more failure, scheduling the
        retry `RetryDelay` gives or showing the fallback; success stores the
        data, stamps `now` and clears the count. With a location, the
        providers `Tried` are called through the queue, one id and one pause
        each; without one, nothing is queued. */
    twostate predicate WeatherUpdated(now: int, location: Option<(real, real)>, response: Option<OwmResponse>)
      reads this`weatherData, this`lastWeatherUpdate, this`retryCount, this`scheduledRetries,
            this`fallbackShown, this`settled, this`nextCallId, this`pausedMs
    {
      var cached := old(weatherData).Some? && now - old(lastWeatherUpdate) < CacheExpiry;
      var located := location.Some? && location.value.0 != 0.0 && location.value.1 != 0.0;
      (cached ==> WeatherUnchanged())
      && (!cached && located ==> Fetched(now, response))
      && (!cached && !located ==>
            Failed() && settled == old(settled) && nextCallId == old(nextCallId) && pausedMs == old(pausedMs))
    }

    /** The weather state after fetching with fallback at time `now` with
        OpenWeatherMap answering `response`: the providers `Tried` went
        through the queue, one id and one pause each; the first acceptable
        result is stored, stamped `now`, with the failure count cleared, and
        when neither is acceptable the failure is `Failed`. */
    twostate predicate Fetched(now: int, response: Option<OwmResponse>)
      reads this`weatherData, this`lastWeatherUpdate, this`retryCount, this`scheduledRetries,
            this`fallbackShown, this`settled, this`nextCallId, this`pausedMs
    {
      Queued(response) && Stored(now, FirstAcceptable(ProviderResults(response)))
    }

    /** The weather state after `updateWeather` at time `now` got `data`
        from fetching: data is stored, stamped `now`, with the failure count
        cleared; no data is `Failed`. */
    twostate predicate Stored(now: int, data: Option<Observation>)
      reads this`weatherData, this`lastWeatherUpdate, this`retryCount, this`scheduledRetries,
            this`fallbackShown
    {
      (data.Some? ==>
         weatherData == data && lastWeatherUpdate == now && retryCount == 0
         && scheduledRetries == old(scheduledRetries) && fallbackShown == old(fallbackShown))
      && (data.None? ==> Failed())
    }

    /** The queue after fetching with fallback with OpenWeatherMap
        answering `response`: each provider `Tried` settled in turn under the
        next call id, with one pause of `CallSpacing` after it. */
    twostate predicate Queued(response: Option<OwmResponse>)
      reads this`settled, this`nextCallId, this`pausedMs
    {
      var tried := Tried(ProviderResults(response));
      settled == old(settled) + Numbered(old(nextCallId), tried)
      && nextCallId == old(nextCallId) + |tried| && pausedMs == old(pausedMs) + CallSpacing * |tried|
    }

    /** One more weather failure counted by `handleWeatherError`: the data
        and its stamp are kept, and the retry `RetryDelay` gives is scheduled
        or, past the last retry, the fallback is shown. */
    twostate predicate Failed()
      reads this`weatherData, this`lastWeatherUpdate, this`retryCount, this`scheduledRetries,
            this`fallbackShown
    {
      var delay := RetryDelay(old(retryCount) + 1);
      weatherData == old(weatherData) && lastWeatherUpdate == old(lastWeatherUpdate)
      && retryCount == old(retryCount) + 1
      && (delay.Some? ==>
            scheduledRetries == old(scheduledRetries) + [delay.value] && fallbackShown == old(fallbackShown))
      && (delay.None? ==> scheduledRetries == old(scheduledRetries) && fallbackShown)
    }

    /** The page, the storage and the prefetch links after theme `theme`
        has been applied. */
    twostate predicate ShowsTheme(theme: string)
      reads this`page, this`storage, this`prefetchLinks
    {
      page == old(page).(href := theme, dropdownValue := theme)
      && storage == old(storage)[SelectedStyleKey := theme]
      && prefetchLinks == old(prefetchLinks) + [PreloadTarget(theme)]
    }

    /** Neither the theme index, nor the page, the storage or the prefetch
        links changed. */
    twostate predicate ThemeUnchanged()
      reads this`currentThemeIndex, this`page, this`storage, this`prefetchLinks
    {
      currentThemeIndex == old(currentThemeIndex) && page == old(page)
      && storage == old(storage) && prefetchLinks == old(prefetchLinks)
    }

    /** Nothing on the weather path changed. */
    twostate predicate WeatherUnchanged()
      reads this`weatherData, this`lastWeatherUpdate, this`retryCount, this`scheduledRetries,
            this`fallbackShown, this`settled, this`nextCallId, this`pausedMs
    {
      weatherData == old(weatherData) && lastWeatherUpdate == old(lastWeatherUpdate)
      && retryCount == old(retryCount) && scheduledRetries == old(scheduledRetries)
      && fallbackShown == old(fallbackShown) && settled == old(settled) && nextCallId == old(nextCallId)
      && pausedMs == old(pausedMs)
    }

    /** `updateWeather` at time `now`, with the position geolocation gave
        (`None` when it failed) and the result the OpenWeatherMap request
        meets. Fresh cached data is kept without any request; a missing or
        zero coordinate or a failure of both providers goes to
        `handleWeatherError`; success stores the data, stamps the time and
        clears the retry count. */
    method UpdateWeather(now: int, location: Option<(real, real)>, response: Option<OwmResponse>)
      requires Valid()
      modifies this`weatherData, this`lastWeatherUpdate, this`retryCount, this`scheduledRetries,
               this`fallbackShown, this`apiCallQueue, this`isProcessingQueue, this`settled, this`nextCallId,
               this`pausedMs
      ensures Valid()
      ensures WeatherUpdated(now, location, response)
      ensures ThemeUnchanged()
    {
      if weatherData.Some? && now - lastWeatherUpdate < CacheExpiry {
        return;
      }
      if location.None? || location.value.0 == 0.0 || location.value.1 == 0.0 {
        HandleWeatherError();
        return;
      }
      FetchAndStore(now, response);
    }

    /** The part of `updateWeather` past the cache and location checks:
        fetch with fallback, then store the data or hand the failure to
        `handleWeatherError`. */
    method FetchAndStore(now: int, response: Option<OwmResponse>)
      requires Valid()
      modifies this`weatherData, this`lastWeatherUpdate, this`retryCount, this`scheduledRetries,
               this`fallbackShown, this`apiCallQueue, this`isProcessingQueue, this`settled, this`nextCallId,
               this`pausedMs
      ensures Valid()
      ensures Fetched(now, response)
    {
      var data := FetchWeatherWithFallback(response);
      StoreWeather(now, data);
    }

    /** The end of `updateWeather` once fetching is done: data is stored,
        stamped `now`, with the failure count cleared; no data is a failure
        for `handleWeatherError`. */
    method StoreWeather(now: int, data: Option<Observation>)
      modifies this`weatherData, this`lastWeatherUpdate, this`retryCount, this`scheduledRetries,
               this`fallbackShown
      ensures Stored(now, data)
    {
      if data.None? {
        HandleWeatherError();
        return;
      }
      weatherData := data;
      lastWeatherUpdate := now;
      retryCount := 0;
    }

    /** The key handler: `f` toggles full screen (not modelled), `r`
        refreshes the weather, `t` rotates, and the number keys select a
        theme. */
    method KeyDown(key: string, now: int, location: Option<(real, real)>, response: Option<OwmResponse>)
      requires Valid()
      modifies this`page, this`storage, this`prefetchLinks, this`currentThemeIndex,
               this`weatherData, this`lastWeatherUpdate, this`retryCount, this`scheduledRetries,
               this`fallbackShown, this`apiCallQueue, this`isProcessingQueue, this`settled, this`nextCallId,
               this`pausedMs
      ensures Valid()
      ensures autoRotateInterval == old(autoRotateInterval) && timers == old(timers)
      ensures KeyActionOf(key).NoAction? || KeyActionOf(key).ToggleFullscreen? ==>
                ThemeUnchanged() && WeatherUnchanged()
      ensures KeyActionOf(key).RefreshWeather? ==> ThemeUnchanged() && WeatherUpdated(now, location, response)
      ensures KeyActionOf(key).RotateNext? ==>
                currentThemeIndex == NextIndex(old(currentThemeIndex)) && WeatherUnchanged()
                && (old(page).CanApply() ==> ShowsTheme(Themes[currentThemeIndex]))
                && (!old(page).CanApply() ==>
                      page == old(page) && storage == old(storage) && prefetchLinks == old(prefetchLinks))
      ensures KeyActionOf(key).SelectTheme? ==>
                var i := KeyActionOf(key).index;
                WeatherUnchanged()
                && (old(page).CanApply() ==> currentThemeIndex == i && ShowsTheme(Themes[i]))
                && (!old(page).CanApply() ==> ThemeUnchanged())
    {
      match KeyActionOf(key)
      case ToggleFullscreen =>
      case RefreshWeather => UpdateWeather(now, location, response);
      case RotateNext => RotateTheme();
      case SelectTheme(i) => SelectThemeByNumber(i);
      case NoAction =>
    }
  }
}
