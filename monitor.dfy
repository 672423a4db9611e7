/** The hardened monitor (`HardenedMonitor`): bounded logs of errors and
    performance issues, an unbounded log of security events with a breach
    threshold, a health check over four sub-checks, and the URL screen the
    fetch wrapper applies. Times are milliseconds since the epoch, passed
    in where the source reads `Date.now()`. */
module Monitor {
  import opened Wrappers
  import opened Strings
  import opened Seqs

  const MaxErrors: nat := 100
  const MaxMetrics: nat := 1000
  const SecurityThreshold: nat := 10
  const BreachWindow: int := 60000
  const HealthWindow: int := 3600000

  /** One logged entry: its type and the time it was recorded. */
  datatype Entry = Entry(kind: string, timestamp: int)

  /** The entries of `entries` that are less than `window` ms old at `now`,
      in their order: `entries.filter(e => now - e.timestamp < window)`. */
  function Recent(entries: seq<Entry>, now: int, window: int): (r: seq<Entry>)
    ensures |r| <= |entries|
    ensures forall i :: 0 <= i < |r| ==> now - r[i].timestamp < window
  {
    if entries == [] then []
    else
      var rest := Recent(entries[1..], now, window);
      if now - entries[0].timestamp < window then [entries[0]] + rest else rest
  }

  /** The filter keeps exactly the recent entries. */
  lemma {:induction false} RecentMembers(entries: seq<Entry>, now: int, window: int)
    ensures forall e :: e in Recent(entries, now, window) <==> e in entries && now - e.timestamp < window
  {
    if entries != [] {
      RecentMembers(entries[1..], now, window);
      assert forall e :: e in entries <==> e == entries[0] || e in entries[1..];
    }
  }

  /** Filtering distributes over appending, so a new entry counts towards the
      window exactly when it is itself recent. */
  lemma {:induction false} RecentAppend(a: seq<Entry>, b: seq<Entry>, now: int, window: int)
    ensures Recent(a + b, now, window) == Recent(a, now, window) + Recent(b, now, window)
    decreases |a|
  {
    if a == [] {
      assert a + b == b;
    } else {
      assert (a + b)[1..] == a[1..] + b;
      RecentAppend(a[1..], b, now, window);
    }
  }

  /** An entry recorded at `now` is recent for any positive window. */
  lemma RecentNewEntry(entries: seq<Entry>, e: Entry, window: int)
    requires 0 < window
    ensures |Recent(entries + [e], e.timestamp, window)| == |Recent(entries, e.timestamp, window)| + 1
  {
    RecentAppend(entries, [e], e.timestamp, window);
    assert [e][1..] == [];
  }

  /** `metrics.performance` as far as the performance check reads it. */
  datatype PerformanceGroup = PerformanceGroup(totalLoadTime: Option<real>, memory: Option<(real, real)>)

  /** The group after `clearMetrics`: `{}`. */
  const EmptyPerformance := PerformanceGroup(None, None)

  /** `checkPerformanceHealth`: a load over 10 s, or memory in use above
      80% of the limit, fails the check (a missing value compares false). */
  predicate PerformanceHealthy(p: PerformanceGroup) {
    !(p.totalLoadTime.Some? && p.totalLoadTime.value > 10000.0)
    && !(p.memory.Some? && p.memory.value.0 > p.memory.value.1 * 0.8)
  }

  /** `checkSecurityHealth`: fails iff more than 5 events are under an hour old. */
  predicate SecurityHealthy(events: seq<Entry>, now: int) {
    |Recent(events, now, HealthWindow)| <= 5
  }

  /** `checkErrorHealth`: fails iff more than 10 errors are under an hour old. */
  predicate ErrorHealthy(errors: seq<Entry>, now: int) {
    |Recent(errors, now, HealthWindow)| <= 10
  }

  /** `checkNetworkHealth`: fails iff `navigator.onLine === false`. */
  predicate NetworkHealthy(onLine: bool) {
    onLine
  }

  datatype Status = Healthy | Degraded | Unhealthy

  /** The overall status from the number of failed checks. */
  function StatusOf(failed: nat): (s: Status)
    ensures s == Healthy <==> failed == 0
    ensures s == Degraded <==> 1 <= failed <= 2
    ensures s == Unhealthy <==> failed > 2
  {
    if failed > 0 then (if failed > 2 then Unhealthy else Degraded) else Healthy
  }

  /** The number of failed checks among the four, counted as
      `Object.values(checks).filter(c => !c.healthy).length` does. */
  function FailCount(checks: seq<bool>): (n: nat)
    ensures n <= |checks|
    ensures n == 0 <==> forall i :: 0 <= i < |checks| ==> checks[i]
  {
    if checks == [] then 0 else (if checks[0] then 0 else 1) + FailCount(checks[1..])
  }

  /** The result of `healthCheck`: the four sub-checks and the status. */
  datatype Health = Health(status: Status, performance: bool, security: bool, errors: bool, network: bool) {
    /** How many of the four sub-checks failed. */
    function Failures(): nat {
      (if performance then 0 else 1) + (if security then 0 else 1)
      + (if errors then 0 else 1) + (if network then 0 else 1)
    }
  }

  lemma {:induction false} FailCountOfFour(a: bool, b: bool, c: bool, d: bool)
    ensures FailCount([a, b, c, d]) == (if a then 0 else 1) + (if b then 0 else 1)
                                       + (if c then 0 else 1) + (if d then 0 else 1)
  {
    assert [a, b, c, d][1..] == [b, c, d] && [b, c, d][1..] == [c, d];
    assert [c, d][1..] == [d] && [d][1..] == [];
    assert FailCount([d]) == (if d then 0 else 1);
    assert FailCount([c, d]) == (if c then 0 else 1) + FailCount([d]);
    assert FailCount([b, c, d]) == (if b then 0 else 1) + FailCount([c, d]);
  }

  /** `healthCheck` on the monitor's state at time `now`. */
  function HealthCheck(performance: PerformanceGroup, securityEvents: seq<Entry>, errors: seq<Entry>,
                       now: int, onLine: bool): (h: Health)
    ensures h.performance == PerformanceHealthy(performance)
    ensures h.security == SecurityHealthy(securityEvents, now)
    ensures h.errors == ErrorHealthy(errors, now)
    ensures h.network == NetworkHealthy(onLine)
    ensures h.status == Healthy <==> h.performance && h.security && h.errors && h.network
    ensures h.status == Degraded <==> 1 <= h.Failures() <= 2
    ensures h.status == Unhealthy <==> h.Failures() > 2
  {
    var checks := [PerformanceHealthy(performance), SecurityHealthy(securityEvents, now),
                   ErrorHealthy(errors, now), NetworkHealthy(onLine)];
    FailCountOfFour(checks[0], checks[1], checks[2], checks[3]);
    Health(StatusOf(FailCount(checks)), checks[0], checks[1], checks[2], checks[3])
  }

  /** The patterns of `isSuspiciousURL`, matched case-insensitively. */
  const SuspiciousSubstrings: seq<string> := ["javascript:", "data:text/html", "vbscript:", "<script"]

  /** A character `\w` matches. */
  predicate WordChar(c: char) {
    'a' <= c <= 'z' || 'A' <= c <= 'Z' || '0' <= c <= '9' || c == '_'
  }

  /** `/on\w+=/i`: "on" in any case, one or more word characters, then `=`. */
  predicate HandlerAttribute(url: string) {
    exists i, j | 0 <= i && i + 2 < j < |url| :: HandlerAt(url, i, j)
  }

  /** `on\w+=` matches `url[i..j+1]`. */
  predicate HandlerAt(url: string, i: int, j: int)
    requires 0 <= i && i + 2 < j < |url|
  {
    Lower(url)[i..i + 2] == "on" && url[j] == '='
    && forall k | i + 2 <= k < j :: WordChar(url[k])
  }

  /** Whether any of the five patterns matches `url`. */
  predicate PatternMatch(url: string) {
    (exists p | p in SuspiciousSubstrings :: Contains(Lower(url), p)) || HandlerAttribute(url)
  }

  function TrustedOrigins(ownOrigin: string): seq<string> {
    [ownOrigin, "https://fonts.googleapis.com", "https://fonts.gstatic.com",
     "https://api.openweathermap.org", "https://api.weatherapi.com", "https://ipapi.co"]
  }

  datatype Suspicion = InvalidUrl | PatternMatched | UnknownOrigin | NotSuspicious

  /** `isSuspiciousURL(url)`, with the origin `new URL(url)` parses (`None`
      when it throws): a parse failure first, then the patterns, which win
      over a trusted origin, then the origin list. */
  function IsSuspiciousURL(url: string, origin: Option<string>, ownOrigin: string): (r: Suspicion)
    ensures r == InvalidUrl <==> origin.None?
    ensures r == PatternMatched <==> origin.Some? && PatternMatch(url)
    ensures r == UnknownOrigin <==> origin.Some? && !PatternMatch(url) && origin.value !in TrustedOrigins(ownOrigin)
    ensures r == NotSuspicious <==> origin.Some? && !PatternMatch(url) && origin.value in TrustedOrigins(ownOrigin)
  {
    match origin
    case None => InvalidUrl
    case Some(o) =>
      if PatternMatch(url) then PatternMatched
      else if o !in TrustedOrigins(ownOrigin) then UnknownOrigin
      else NotSuspicious
  }

  /** A `javascript:` URL is flagged whatever its origin, as long as it
      parses. */
  lemma ScriptSchemeIsFlagged(url: string, origin: string, ownOrigin: string)
    requires StartsWith(Lower(url), "javascript:")
    ensures IsSuspiciousURL(url, Some(origin), ownOrigin) == PatternMatched
  {
    StartsWithContains(Lower(url), "javascript:");
    assert SuspiciousSubstrings[0] == "javascript:";
  }

  class HardenedMonitor {
    var errors: seq<Entry>
    var performanceMetrics: seq<Entry>
    var securityEvents: seq<Entry>
    var performance: PerformanceGroup
    /** The `security`, `network` and `user` metric groups. */
    var securityGroup: map<string, string>
    var networkGroup: map<string, string>
    var userGroup: map<string, string>
    /** How many times `handleSecurityBreach` has locked the page. */
    var breaches: nat

    ghost predicate Valid()
      reads this
    {
      |errors| <= MaxErrors && |performanceMetrics| <= MaxMetrics
    }

    constructor ()
      ensures Valid()
      ensures errors == [] && performanceMetrics == [] && securityEvents == []
      ensures performance == EmptyPerformance && breaches == 0
    {
      errors := [];
      performanceMetrics := [];
      securityEvents := [];
      performance := EmptyPerformance;
      securityGroup := map[];
      networkGroup := map[];
      userGroup := map[];
      breaches := 0;
    }

    /** `recordError`: append, then keep the last `maxErrors`. The log stays
        within bound and ends with the new entry. */
    method RecordError(kind: string, now: int)
      requires Valid()
      modifies this`errors
      ensures Valid()
      ensures errors == KeepLast(old(errors) + [Entry(kind, now)], MaxErrors)
      ensures errors[|errors| - 1] == Entry(kind, now)
      ensures |errors| == if |old(errors)| < MaxErrors then |old(errors)| + 1 else MaxErrors
    {
      errors := errors + [Entry(kind, now)];
      if |errors| > MaxErrors {
        errors := errors[|errors| - MaxErrors..];
      }
    }

    /** `recordPerformanceIssue`: the same bounded append with `maxMetrics`. */
    method RecordPerformanceIssue(kind: string, now: int)
      requires Valid()
      modifies this`performanceMetrics
      ensures Valid()
      ensures performanceMetrics == KeepLast(old(performanceMetrics) + [Entry(kind, now)], MaxMetrics)
      ensures performanceMetrics[|performanceMetrics| - 1] == Entry(kind, now)
    {
      performanceMetrics := performanceMetrics + [Entry(kind, now)];
      if |performanceMetrics| > MaxMetrics {
        performanceMetrics := performanceMetrics[|performanceMetrics| - MaxMetrics..];
      }
    }

    /** `recordSecurityEvent`: always appends; a breach is handled exactly
        when, with the new event, more than 10 events are under a minute
        old. */
    method RecordSecurityEvent(kind: string, now: int)
      requires Valid()
      modifies this`securityEvents, this`breaches
      ensures Valid()
      ensures securityEvents == old(securityEvents) + [Entry(kind, now)]
      ensures breaches == old(breaches) + (if |Recent(securityEvents, now, BreachWindow)| > SecurityThreshold then 1 else 0)
      ensures breaches > old(breaches) <==> |Recent(old(securityEvents), now, BreachWindow)| >= SecurityThreshold
    {
      securityEvents := securityEvents + [Entry(kind, now)];
      RecentNewEntry(old(securityEvents), Entry(kind, now), BreachWindow);
      var recentEvents := Recent(securityEvents, now, BreachWindow);
      if |recentEvents| > SecurityThreshold {
        breaches := breaches + 1;
      }
    }

    /** `clearMetrics`: every log and every metric group emptied. */
    method ClearMetrics()
      modifies this`errors, this`performanceMetrics, this`securityEvents, this`performance,
               this`securityGroup, this`networkGroup, this`userGroup
      ensures Valid()
      ensures errors == [] && performanceMetrics == [] && securityEvents == []
      ensures performance == EmptyPerformance
      ensures securityGroup == map[] && networkGroup == map[] && userGroup == map[]
    {
      performance := EmptyPerformance;
      securityGroup := map[];
      networkGroup := map[];
      errors := [];
      userGroup := map[];
      performanceMetrics := [];
      securityEvents := [];
    }

    /** `healthCheck` on the current state. */
    function Health(now: int, onLine: bool): (h: Health)
      reads this
      ensures h == HealthCheck(performance, securityEvents, errors, now, onLine)
    {
      HealthCheck(performance, securityEvents, errors, now, onLine)
    }
  }

  /** Once the metrics are cleared the monitor reports healthy while the
      browser is online, and degraded (only the network check failing)
      while it is offline. */
  lemma ClearedIsHealthy(now: int, onLine: bool)
    ensures HealthCheck(EmptyPerformance, [], [], now, onLine).status == (if onLine then Healthy else Degraded)
  {
  }
}
