/** The clock display's controller object (`StatusDisplay` of the web client):
    the current theme index, the rotation interval, the persisted preferences,
    the theme panel's minimised state and the weather record, with the
    operations that change them. Timer firings and DOM events are method
    calls. */
module ClockDisplay {
  import opened Wrappers
  import opened Seqs
  import opened ThemeCatalog
  import opened OpenMeteo

  const MinimizedKey: string := "themePanelMinimized"

  /** The theme panel and its minimise button: whether each exists, whether
      the panel carries the `minimized` class, and the button's text. */
  datatype Panel = Panel(present: bool, hasButton: bool, minimized: bool, buttonLabel: string)

  /** The panel after one `toggleMinimize`: the class flips, and the button
      shows `+` on a minimised panel and a minus sign on an open one. */
  function Toggled(p: Panel): (q: Panel)
    ensures q.minimized == !p.minimized
    ensures q.buttonLabel == (if q.minimized then "+" else "−")
    ensures q.present == p.present && q.hasButton == p.hasButton
  {
    p.(minimized := !p.minimized, buttonLabel := if p.minimized then "−" else "+")
  }

  /** The index `startAutoRotate` re-syncs to: the dropdown theme's position
      in the catalog, or 0 when it is not a catalog theme. */
  function SyncIndex(value: string): (i: int)
    ensures 0 <= i < |Themes|
    ensures value in Themes ==> Themes[i] == value
    ensures value !in Themes ==> i == 0
  {
    var j := CatalogIndex(value);
    if j != -1 then j else 0
  }

  /** A saved `selectedStyle` that passes the allow-list. */
  predicate Restorable(storage: map<string, string>) {
    SelectedStyleKey in storage && ValidateStylePath(storage[SelectedStyleKey])
  }

  /** The page once a restorable saved style is applied. */
  function RestoredPage(page: Page, storage: map<string, string>): Page {
    if Restorable(storage) then
      page.(href := storage[SelectedStyleKey], dropdownValue := storage[SelectedStyleKey])
    else page
  }

  /** The index after restoring: the saved style's position, or 0. */
  function RestoredIndex(storage: map<string, string>): (i: int)
    ensures 0 <= i < |Themes|
    ensures Restorable(storage) ==> Themes[i] == storage[SelectedStyleKey]
    ensures !Restorable(storage) ==> i == 0
  {
    if Restorable(storage) then
      ValidateStylePathIsCatalog(storage[SelectedStyleKey]);
      CatalogIndex(storage[SelectedStyleKey])
    else 0
  }

  class StatusDisplay {
    var currentThemeIndex: int
    /** The rotation interval's handle; `None` is `null`. */
    var autoRotateInterval: Option<nat>
    /** The rotation intervals armed with the browser. */
    var timers: set<nat>
    /** The handle the next `setInterval` returns. */
    var nextHandle: nat
    var page: Page
    var panel: Panel
    var storage: map<string, string>
    var weatherData: Option<WeatherRecord>
    /** The outcomes the coming weather requests will meet, in order. */
    var network: seq<FetchOutcome>
    /** `initStyleSelector` registered its dropdown and checkbox listeners. */
    var selectorListening: bool
    /** `verifyAutoRotateFunctionality` registered its checkbox listener. */
    var verifierListening: bool
    /** The one-second checks the verification listener has armed that have
        not fired yet. */
    var pendingVerifications: nat

    /** The index stays a catalog index or the -1 of a failed `indexOf`, and
        exactly the interval named by the handle is armed. */
    ghost predicate Valid()
      reads this
    {
      -1 <= currentThemeIndex < |Themes|
      && (autoRotateInterval.None? ==> timers == {})
      && (autoRotateInterval.Some? ==>
            timers == {autoRotateInterval.value} && autoRotateInterval.value < nextHandle)
      && (selectorListening ==> page.CanApply())
    }

    /** At most one rotation interval is ever armed, and one is armed exactly
        when a handle is held. */
    lemma AtMostOneRotation()
      requires Valid()
      ensures |timers| <= 1
      ensures timers != {} <==> autoRotateInterval.Some?
    {
    }

    constructor (page0: Page, panel0: Panel, storage0: map<string, string>, network0: seq<FetchOutcome>)
      ensures Valid()
      ensures currentThemeIndex == 0 && autoRotateInterval == None && weatherData == None
      ensures page == page0 && panel == panel0 && storage == storage0 && network == network0
      ensures !selectorListening && !verifierListening && pendingVerifications == 0
    {
      currentThemeIndex := 0;
      autoRotateInterval := None;
      timers := {};
      nextHandle := 1;
      page := page0;
      panel := panel0;
      storage := storage0;
      weatherData := None;
      network := network0;
      selectorListening := false;
      verifierListening := false;
      pendingVerifications := 0;
    }

    /** `applyStyle`: only an allow-listed path changes the link, the
        dropdown and the persisted `selectedStyle`; any other path changes
        none of the three. */
    method ApplyStyle(stylePath: string)
      requires page.CanApply()
      modifies this`page, this`storage
      ensures ValidateStylePath(stylePath) ==>
                page == old(page).(href := stylePath, dropdownValue := stylePath)
                && storage == old(storage)[SelectedStyleKey := stylePath]
      ensures !ValidateStylePath(stylePath) ==> page == old(page) && storage == old(storage)
    {
      if !ValidateStylePath(stylePath) {
        return;
      }
      page := page.(href := stylePath, dropdownValue := stylePath);
      storage := storage[SelectedStyleKey := stylePath];
    }

    /** `changeTheme`: with both elements present, the path is applied
        through `applyStyle`, and then the index, the dropdown and
        `selectedStyle` are written whether or not it was accepted. */
    method ChangeTheme(themePath: string)
      requires Valid()
      modifies this`page, this`storage, this`currentThemeIndex
      ensures Valid()
      ensures old(page).CanApply() ==>
                currentThemeIndex == CatalogIndex(themePath)
                && page == old(page).(href := if ValidateStylePath(themePath) then themePath else old(page).href,
                                      dropdownValue := themePath)
                && storage == old(storage)[SelectedStyleKey := themePath]
      ensures !old(page).CanApply() ==>
                currentThemeIndex == old(currentThemeIndex) && page == old(page) && storage == old(storage)
    {
      if page.CanApply() {
        ApplyStyle(themePath);
        currentThemeIndex := CatalogIndex(themePath);
        page := page.(dropdownValue := themePath);
        storage := storage[SelectedStyleKey := themePath];
      }
    }

    /** `cycleTheme`: the index advances by one modulo 12 (a failed -1 goes
        to 0), and that catalog theme is applied when the page allows. */
    method CycleTheme()
      requires Valid()
      modifies this`page, this`storage, this`currentThemeIndex
      ensures Valid()
      ensures currentThemeIndex == NextIndex(old(currentThemeIndex))
      ensures old(page).CanApply() ==>
                page == old(page).(href := Themes[currentThemeIndex], dropdownValue := Themes[currentThemeIndex])
                && storage == old(storage)[SelectedStyleKey := Themes[currentThemeIndex]]
      ensures !old(page).CanApply() ==> page == old(page) && storage == old(storage)
    {
      currentThemeIndex := NextIndex(currentThemeIndex);
      var next := Themes[currentThemeIndex];
      ValidateStylePathIsCatalog(next);
      CatalogIndexOfEntry(currentThemeIndex);
      ChangeTheme(next);
    }

    /** `stopAutoRotate`: afterwards no handle is held and no rotation
        interval is armed; when already stopped it changes nothing. */
    method StopAutoRotate()
      requires Valid()
      modifies this`autoRotateInterval, this`timers
      ensures Valid()
      ensures autoRotateInterval == None && timers == {}
      ensures old(autoRotateInterval).None? ==> timers == old(timers)
    {
      if autoRotateInterval.Some? {
        timers := timers - {autoRotateInterval.value};
        autoRotateInterval := None;
      }
    }

    /** `startAutoRotate`: clears any running interval first, re-syncs the
        index to the dropdown's theme (0 if it is not a catalog theme), and
        arms one fresh interval, which is then the only one. */
    method StartAutoRotate()
      requires Valid()
      modifies this`autoRotateInterval, this`timers, this`nextHandle, this`currentThemeIndex
      ensures Valid()
      ensures autoRotateInterval.Some? && autoRotateInterval.value !in old(timers)
      ensures timers == {autoRotateInterval.value}
      ensures currentThemeIndex ==
                if page.hasDropdown then SyncIndex(page.dropdownValue) else old(currentThemeIndex)
    {
      StopAutoRotate();
      if page.hasDropdown {
        currentThemeIndex := SyncIndex(page.dropdownValue);
      }
      var handle := nextHandle;
      nextHandle := nextHandle + 1;
      timers := timers + {handle};
      autoRotateInterval := Some(handle);
    }

    /** One firing of the rotation interval: the index always advances by
        one modulo 12; the theme is applied only while the checkbox is
        checked and the dropdown and link exist, and otherwise the rotation
        stops itself. */
    method RotationTick()
      requires Valid() && autoRotateInterval.Some?
      modifies this`page, this`storage, this`currentThemeIndex, this`autoRotateInterval, this`timers
      ensures Valid()
      ensures currentThemeIndex == NextIndex(old(currentThemeIndex))
      ensures var enabled := old(page).hasCheckbox && old(page).checked && old(page).CanApply();
              var theme := Themes[currentThemeIndex];
              (enabled ==>
                 page == old(page).(href := theme, dropdownValue := theme)
                 && storage == old(storage)[SelectedStyleKey := theme]
                 && autoRotateInterval == old(autoRotateInterval) && timers == old(timers))
              && (!enabled ==>
                    page == old(page) && storage == old(storage)
                    && autoRotateInterval == None && timers == {})
    {
      currentThemeIndex := NextIndex(currentThemeIndex);
      var next := Themes[currentThemeIndex];
      if page.hasCheckbox && page.checked && page.CanApply() {
        ValidateStylePathIsCatalog(next);
        ApplyStyle(next);
      } else {
        StopAutoRotate();
      }
    }

    /** The dropdown's `change` event with the user's choice `value`. With
        the selector's listener registered, the choice is applied, the index
        follows it, and a checked auto-rotate box is unchecked, persisted as
        `'false'` and the rotation stopped. */
    method DropdownChanged(value: string)
      requires Valid() && page.hasDropdown
      modifies this`page, this`storage, this`currentThemeIndex, this`autoRotateInterval, this`timers
      ensures Valid()
      ensures !old(selectorListening) ==>
                page == old(page).(dropdownValue := value) && storage == old(storage)
                && currentThemeIndex == old(currentThemeIndex)
                && autoRotateInterval == old(autoRotateInterval) && timers == old(timers)
      ensures old(selectorListening) ==>
                var valid := ValidateStylePath(value);
                var cancel := old(page).hasCheckbox && old(page).checked;
                var shown := old(page).(href := if valid then value else old(page).href, dropdownValue := value);
                var saved := if valid then old(storage)[SelectedStyleKey := value] else old(storage);
                currentThemeIndex == CatalogIndex(value)
                && page == (if cancel then shown.(checked := false) else shown)
                && storage == (if cancel then saved[AutoRotateKey := "false"] else saved)
                && (cancel ==> autoRotateInterval == None && timers == {})
                && (!cancel ==> autoRotateInterval == old(autoRotateInterval) && timers == old(timers))
    {
      page := page.(dropdownValue := value);
      if !selectorListening {
        return;
      }
      ApplyStyle(value);
      currentThemeIndex := CatalogIndex(value);
      if page.hasCheckbox && page.checked {
        page := page.(checked := false);
        storage := storage[AutoRotateKey := "false"];
        StopAutoRotate();
      }
    }

    /** The checkbox's `change` event. The selector's listener persists the
        new state; each registered listener starts or stops the rotation to
        match it, so with either registered the rotation runs exactly when
        the box is checked; on a check the verification listener also arms
        its one-second check. */
    method CheckboxChanged(isChecked: bool)
      requires Valid() && page.hasCheckbox
      modifies this`page, this`storage, this`currentThemeIndex, this`autoRotateInterval, this`timers,
               this`nextHandle, this`pendingVerifications
      ensures Valid()
      ensures pendingVerifications ==
                old(pendingVerifications) + (if verifierListening && isChecked then 1 else 0)
      ensures page == old(page).(checked := isChecked)
      ensures storage == if selectorListening then old(storage)[AutoRotateKey := BoolText(isChecked)]
                         else old(storage)
      ensures selectorListening || verifierListening ==>
                (autoRotateInterval.Some? <==> isChecked)
                && (isChecked ==> currentThemeIndex == SyncIndex(page.dropdownValue) || !page.hasDropdown)
                && (!isChecked ==> timers == {} && currentThemeIndex == old(currentThemeIndex))
      ensures !(selectorListening || verifierListening) ==>
                autoRotateInterval == old(autoRotateInterval) && timers == old(timers)
                && currentThemeIndex == old(currentThemeIndex)
    {
      page := page.(checked := isChecked);
      if selectorListening {
        storage := storage[AutoRotateKey := BoolText(isChecked)];
        if isChecked {
          StartAutoRotate();
        } else {
          StopAutoRotate();
        }
      }
      if verifierListening {
        if isChecked {
          StartAutoRotate();
          pendingVerifications := pendingVerifications + 1;
        } else {
          StopAutoRotate();
        }
      }
    }

    /** The verification listener's one-second check firing: with no
        rotation running it starts one, whatever the checkbox now says, so a
        check followed within the second by an uncheck leaves the rotation
        running with the box unchecked (until its next tick stops it); with
        a rotation running nothing changes. */
    method VerificationTimeout()
      requires Valid() && pendingVerifications > 0
      modifies this`currentThemeIndex, this`autoRotateInterval, this`timers, this`nextHandle,
               this`pendingVerifications
      ensures Valid()
      ensures pendingVerifications == old(pendingVerifications) - 1
      ensures old(autoRotateInterval).None? ==>
                autoRotateInterval.Some? && timers == {autoRotateInterval.value}
                && currentThemeIndex == (if page.hasDropdown then SyncIndex(page.dropdownValue)
                                         else old(currentThemeIndex))
      ensures old(autoRotateInterval).Some? ==>
                autoRotateInterval == old(autoRotateInterval) && timers == old(timers)
                && currentThemeIndex == old(currentThemeIndex)
    {
      pendingVerifications := pendingVerifications - 1;
      if autoRotateInterval.None? {
        StartAutoRotate();
      }
    }

    /** `toggleMinimize`: with the panel and its button present, the panel's
        state flips and the new state is persisted; otherwise nothing
        changes. */
    method ToggleMinimize()
      modifies this`panel, this`storage
      ensures old(panel).present && old(panel).hasButton ==>
                panel == Toggled(old(panel))
                && storage == old(storage)[MinimizedKey := BoolText(panel.minimized)]
      ensures !(old(panel).present && old(panel).hasButton) ==>
                panel == old(panel) && storage == old(storage)
    {
      if !panel.present || !panel.hasButton {
        return;
      }
      if panel.minimized {
        panel := panel.(minimized := false, buttonLabel := "−");
        storage := storage[MinimizedKey := "false"];
      } else {
        panel := panel.(minimized := true, buttonLabel := "+");
        storage := storage[MinimizedKey := "true"];
      }
    }

    /** The saved-style half of `initStyleSelector`: an allow-listed saved
        style is applied and the index set to its position; otherwise the
        index is reset to 0 and the page is left alone. */
    method RestoreSavedStyle()
      requires Valid() && page.CanApply()
      modifies this`page, this`storage, this`currentThemeIndex
      ensures Valid()
      ensures page == RestoredPage(old(page), old(storage))
      ensures currentThemeIndex == RestoredIndex(old(storage))
      ensures storage == old(storage)
    {
      if SelectedStyleKey in storage && ValidateStylePath(storage[SelectedStyleKey]) {
        var saved := storage[SelectedStyleKey];
        ApplyStyle(saved);
        currentThemeIndex := CatalogIndex(saved);
      } else {
        currentThemeIndex := 0;
      }
    }

    /** The auto-rotate half of `initStyleSelector`: the checkbox takes the
        saved setting, and a saved `'true'` starts the rotation. */
    method RestoreAutoRotate()
      requires Valid() && page.CanApply()
      modifies this`page, this`currentThemeIndex, this`autoRotateInterval, this`timers, this`nextHandle
      ensures Valid()
      ensures page == if old(page).hasCheckbox then old(page).(checked := StoredTrue(storage, AutoRotateKey))
                      else old(page)
      ensures old(page).hasCheckbox && StoredTrue(storage, AutoRotateKey) ==>
                autoRotateInterval.Some? && timers == {autoRotateInterval.value}
                && currentThemeIndex == SyncIndex(page.dropdownValue)
      ensures !(old(page).hasCheckbox && StoredTrue(storage, AutoRotateKey)) ==>
                autoRotateInterval == old(autoRotateInterval) && timers == old(timers)
                && currentThemeIndex == old(currentThemeIndex)
    {
      if page.hasCheckbox {
        var savedAutoRotate := StoredTrue(storage, AutoRotateKey);
        page := page.(checked := savedAutoRotate);
        if savedAutoRotate {
          StartAutoRotate();
        }
      }
    }

    /** `initStyleSelector`. Without the dropdown or the link nothing
        happens. Otherwise a saved allow-listed style is restored together
        with its index (any other saved value leaves the index at 0), the
        checkbox takes the saved auto-rotate setting and a saved `'true'`
        starts the rotation (re-syncing the index to the dropdown), a saved
        minimised panel is minimised, and the listeners are registered. */
    method InitStyleSelector()
      requires Valid()
      modifies this`page, this`storage, this`currentThemeIndex, this`autoRotateInterval, this`timers,
               this`nextHandle, this`panel, this`selectorListening
      ensures Valid()
      ensures !old(page).CanApply() ==>
                page == old(page) && storage == old(storage) && panel == old(panel)
                && currentThemeIndex == old(currentThemeIndex) && !selectorListening
                && autoRotateInterval == old(autoRotateInterval) && timers == old(timers)
      ensures old(page).CanApply() ==>
                var shown := RestoredPage(old(page), old(storage));
                var auto := StoredTrue(old(storage), AutoRotateKey);
                var rotate := old(page).hasCheckbox && auto;
                var fold := StoredTrue(old(storage), MinimizedKey) && old(panel).present && old(panel).hasButton;
                selectorListening
                && page == (if old(page).hasCheckbox then shown.(checked := auto) else shown)
                && currentThemeIndex == (if rotate then SyncIndex(shown.dropdownValue) else RestoredIndex(old(storage)))
                && (rotate ==> autoRotateInterval.Some? && timers == {autoRotateInterval.value})
                && (!rotate ==> autoRotateInterval == old(autoRotateInterval) && timers == old(timers))
                && panel == (if fold then Toggled(old(panel)) else old(panel))
                && storage == (if fold then old(storage)[MinimizedKey := BoolText(panel.minimized)] else old(storage))
    {
      if !page.CanApply() {
        return;
      }
      RestoreSavedStyle();
      RestoreAutoRotate();
      if StoredTrue(storage, MinimizedKey) && panel.hasButton {
        ToggleMinimize();
      }
      selectorListening := true;
    }

    /** `verifyAutoRotateFunctionality`: with a checkbox, a saved `'true'`
        checks it and starts the rotation, and the second checkbox listener
        is registered; without one nothing happens. */
    method VerifyAutoRotateFunctionality()
      requires Valid()
      modifies this`page, this`currentThemeIndex, this`autoRotateInterval, this`timers, this`nextHandle,
               this`verifierListening
      ensures Valid()
      ensures !old(page).hasCheckbox ==>
                page == old(page) && currentThemeIndex == old(currentThemeIndex)
                && autoRotateInterval == old(autoRotateInterval) && timers == old(timers)
                && verifierListening == old(verifierListening)
      ensures old(page).hasCheckbox ==> verifierListening
      ensures old(page).hasCheckbox && StoredTrue(storage, AutoRotateKey) ==>
                page == old(page).(checked := true)
                && autoRotateInterval.Some? && timers == {autoRotateInterval.value}
                && currentThemeIndex == (if page.hasDropdown then SyncIndex(page.dropdownValue)
                                         else old(currentThemeIndex))
      ensures old(page).hasCheckbox && !StoredTrue(storage, AutoRotateKey) ==>
                page == old(page) && currentThemeIndex == old(currentThemeIndex)
                && autoRotateInterval == old(autoRotateInterval) && timers == old(timers)
    {
      if page.hasCheckbox {
        if StoredTrue(storage, AutoRotateKey) {
          page := page.(checked := true);
          StartAutoRotate();
        }
        verifierListening := true;
      }
    }

    /** `setWeatherFallback` */
    method SetWeatherFallback()
      modifies this`weatherData
      ensures weatherData == Some(Fallback)
    {
      weatherData := Some(Fallback);
    }

    /** One weather request: it meets the next outcome. */
    method Fetch() returns (outcome: FetchOutcome)
      modifies this`network
      ensures outcome == NthOutcome(old(network), 0)
      ensures network == Drop(old(network), 1)
    {
      if network == [] {
        outcome := Failed;
      } else {
        outcome := network[0];
        network := network[1..];
      }
    }

    /** `updateWeather`: the locations are tried in order until one answers;
        its parsed record, with that location's name and the time, is kept;
        when all three fail the fallback is installed. Either way
        `weatherData` is set. */
    method UpdateWeather(now: int)
      modifies this`weatherData, this`network
      ensures weatherData == Some(UpdateWeatherResult(old(network), now).0)
      ensures network == Drop(old(network), UpdateWeatherResult(old(network), now).1)
    {
      var found: Option<WeatherRecord> := None;
      var k := 0;
      while k < |LocationNames|
        invariant 0 <= k <= |LocationNames|
        invariant network == Drop(old(network), k)
        invariant forall i :: 0 <= i < k ==> Answer(NthOutcome(old(network), i)).None?
        invariant found.None?
      {
        DropStep(old(network), k);
        var outcome := Fetch();
        if outcome.Delivered? {
          var parsed := ParseWeatherResponse(outcome.data);
          if parsed.Some? {
            found := Some(parsed.value.(location := LocationNames[k], timestamp := Some(now)));
            FirstAnsweringLocationWins(old(network), now, k);
            break;
          }
        }
        k := k + 1;
      }
      if found.Some? {
        weatherData := found;
      } else {
        AllLocationsFailedFallsBack(old(network), now);
        SetWeatherFallback();
      }
    }

    /** `ensureWeatherPopulates`: up to three `updateWeather` calls, stopping
        at the first whose record has a truthy temperature and location;
        after three misses the fallback is installed and `false` returned.
        The end state is the one `EnsureWeatherPopulatesResult` describes,
        so `weatherData` always ends populated. */
    method EnsureWeatherPopulates(now: int) returns (populated: bool, ghost calls: nat)
      modifies this`weatherData, this`network
      ensures var p := EnsureWeatherPopulatesResult(old(network), now);
              populated == p.populated && weatherData == Some(p.record) && network == p.remaining
              && calls == p.calls
      ensures weatherData.Some? && Populated(weatherData.value)
    {
      var attempts := 0;
      calls := 0;
      while attempts < 3
        invariant 0 <= attempts <= 3 && calls == attempts
        invariant var goal := PopulateFrom(old(network), now, 0);
                  var here := PopulateFrom(network, now, attempts);
                  goal.populated == here.populated && goal.record == here.record
                  && goal.remaining == here.remaining && goal.calls == attempts + here.calls
      {
        ghost var before := network;
        UpdateWeather(now);
        calls := calls + 1;
        PopulateFromStep(before, now, attempts);
        if Populated(weatherData.value) {
          return true, calls;
        }
        attempts := attempts + 1;
      }
      SetWeatherFallback();
      populated := false;
    }
  }
}
