/** The hardened service worker of the iOS build (`sw.hardened.js`): URL
    screening, the API rate limit, expiry stamps on cached responses, the
    three caching strategies, the routing of fetch events, and the pruning
    of caches on activation. URL parsing is an input (`ParsedUrl`, `None`
    where `new URL` throws); the network is an input per request; times are
    milliseconds passed in where the source reads `Date.now()`. */
module ServiceWorker {
  import opened Wrappers
  import opened Strings
  import opened Seqs

  const StaticCache := "atomic-clock-static-v2.0.0"
  const DynamicCache := "atomic-clock-dynamic-v2.0.0"
  const ApiCache := "atomic-clock-api-v2.0.0"

  const TrustedOrigins: seq<string> := [
    "https://fonts.googleapis.com", "https://fonts.gstatic.com",
    "https://api.openweathermap.org", "https://api.weatherapi.com", "https://ipapi.co"]

  const StaticResources: seq<string> := [
    "/", "/index.html", "/style.css", "/script.js", "/theme-preloader.js",
    "/styles/dark.css", "/styles/ocean.css", "/styles/sunset.css", "/styles/forest.css",
    "/styles/cyberpunk.css", "/styles/galaxy.css", "/styles/aurora.css", "/styles/vintage.css",
    "/styles/minimal.css", "/styles/neon.css", "/styles/candy.css",
    "https://fonts.googleapis.com/css2?family=Inter:wght@200;300;400;600;700&display=swap"]

  const StaticMaxAge: nat := 7 * 24 * 60 * 60 * 1000
  const StaticMaxEntries: nat := 100
  const DynamicMaxAge: nat := 24 * 60 * 60 * 1000
  const DynamicMaxEntries: nat := 50
  const ApiMaxAge: nat := 10 * 60 * 1000
  const ApiMaxEntries: nat := 20

  const RateLimitRequests: nat := 10
  const RateLimitWindow: int := 60 * 1000

  const CachedAtHeader := "sw-cached-at"
  const MaxAgeHeader := "sw-cache-max-age"

  /** The parts of a parsed URL the worker reads. */
  datatype ParsedUrl = ParsedUrl(origin: string, pathname: string, search: string)

  /** `isValidUrl`: the URL parses and its origin is trusted or the
      worker's own. */
  predicate IsValidUrl(url: Option<ParsedUrl>, selfOrigin: string) {
    url.Some? && (url.value.origin in TrustedOrigins || url.value.origin == selfOrigin)
  }

  /** `sanitizeCacheKey`: pathname followed by search, or `None` (`null`)
      when the URL does not parse. */
  function SanitizeCacheKey(url: Option<ParsedUrl>): (key: Option<string>)
    ensures key.None? <==> url.None?
    ensures key.Some? ==> StartsWith(key.value, url.value.pathname) && EndsWith(key.value, url.value.search)
    ensures key.Some? ==> key.value == url.value.pathname + url.value.search
  {
    match url
    case None => None
    case Some(u) => Some(u.pathname + u.search)
  }

  /** The strategy the fetch handler picks, or `Ignore` when it leaves the
      request to the browser. */
  datatype Route = Ignore | CacheFirst | NetworkFirst | StaleWhileRevalidate | Blocked

  /** The fetch handler's routing: non-GET and invalid URLs are ignored;
      then static resources, `/styles/` paths and the font origins go cache
      first, the API origins network first, and the worker's own origin
      stale-while-revalidate; anything else is blocked with a 403. */
  function RouteOf(verb: string, url: Option<ParsedUrl>, selfOrigin: string): Route {
    if verb != "GET" || !IsValidUrl(url, selfOrigin) then Ignore
    else
      var u := url.value;
      if u.pathname in StaticResources || StartsWith(u.pathname, "/styles/")
         || u.origin == "https://fonts.googleapis.com" || u.origin == "https://fonts.gstatic.com" then CacheFirst
      else if u.origin == "https://api.openweathermap.org" || u.origin == "https://api.weatherapi.com"
              || u.origin == "https://ipapi.co" then NetworkFirst
      else if u.origin == selfOrigin then StaleWhileRevalidate
      else Blocked
  }

  /** Every URL that passes `isValidUrl` matches one of the three
      strategies, so the handler's 403 branch is never taken; and a
      handled request is exactly a valid GET. */
  lemma NeverBlocked(verb: string, url: Option<ParsedUrl>, selfOrigin: string)
    ensures RouteOf(verb, url, selfOrigin) != Blocked
    ensures RouteOf(verb, url, selfOrigin) == Ignore <==> verb != "GET" || !IsValidUrl(url, selfOrigin)
  {
  }

  /** A request to an API origin for a path that is not a static resource
      goes network first. */
  lemma ApiGoesNetworkFirst(url: ParsedUrl, selfOrigin: string)
    requires url.origin == "https://api.openweathermap.org"
    requires url.pathname !in StaticResources && !StartsWith(url.pathname, "/styles/")
    ensures RouteOf("GET", Some(url), selfOrigin) == NetworkFirst
  {
    assert TrustedOrigins[2] == url.origin;
  }

  /** The decimal digit characters. */
  predicate IsDigit(c: char) {
    '0' <= c <= '9'
  }

  predicate IsSpace(c: char) {
    c == ' ' || c == '\t' || c == '\n' || c == '\r'
  }

  /** The longest prefix of `s` made of digits. */
  function DigitPrefix(s: string): (d: string)
    ensures |d| <= |s| && d == s[..|d|]
    ensures forall i :: 0 <= i < |d| ==> IsDigit(d[i])
    ensures |d| < |s| ==> !IsDigit(s[|d|])
  {
    if s != [] && IsDigit(s[0]) then
      var rest := DigitPrefix(s[1..]);
      assert s[1..][..|rest|] == s[1..|rest| + 1];
      [s[0]] + rest
    else []
  }

  /** The value of a string of digits. */
  function DigitsValue(d: string): (n: nat)
    requires forall i :: 0 <= i < |d| ==> IsDigit(d[i])
  {
    if d == [] then 0
    else
      assert IsDigit(d[|d| - 1]);
      10 * DigitsValue(d[..|d| - 1]) + (d[|d| - 1] as int - '0' as int)
  }

  /** `parseInt(s)` in base 10 on integer text: leading white space, an
      optional sign, then the longest run of digits; `None` is `NaN`. */
  function ParseInt(s: string): (r: Option<int>)
    ensures r.Some? ==> exists i :: 0 <= i < |s| && IsDigit(s[i])
  {
    var t := LeadingSpaceDropped(s);
    var negative := t != [] && t[0] == '-';
    var body := if t != [] && (t[0] == '-' || t[0] == '+') then t[1..] else t;
    var digits := DigitPrefix(body);
    if digits == [] then None
    else
      assert IsDigit(s[|s| - |t| + (|t| - |body|)]);
      var v: int := DigitsValue(digits);
      Some(if negative then -v else v)
  }

  function LeadingSpaceDropped(s: string): (t: string)
    ensures |t| <= |s| && t == s[|s| - |t|..]
    ensures t == [] || !IsSpace(t[0])
  {
    if s != [] && IsSpace(s[0]) then LeadingSpaceDropped(s[1..]) else s
  }

  /** `Number.prototype.toString()` on a natural number. */
  function NatToString(n: nat): (s: string)
    ensures |s| > 0
    ensures forall i :: 0 <= i < |s| ==> IsDigit(s[i])
  {
    if n < 10 then [('0' as int + n) as char]
    else NatToString(n / 10) + [('0' as int + n % 10) as char]
  }

  lemma {:induction false} DigitsValueOfNatToString(n: nat)
    ensures DigitsValue(NatToString(n)) == n
  {
    var s := NatToString(n);
    if n >= 10 {
      DigitsValueOfNatToString(n / 10);
      assert s[..|s| - 1] == NatToString(n / 10);
    }
  }

  /** A timestamp written with `toString()` reads back under `parseInt`. */
  lemma ParseIntOfNatToString(n: nat)
    ensures ParseInt(NatToString(n)) == Some(n)
  {
    var s := NatToString(n);
    assert LeadingSpaceDropped(s) == s;
    assert DigitPrefix(s) == s by {
      DigitPrefixOfDigits(s);
    }
    DigitsValueOfNatToString(n);
  }

  lemma {:induction false} DigitPrefixOfDigits(s: string)
    requires forall i :: 0 <= i < |s| ==> IsDigit(s[i])
    ensures DigitPrefix(s) == s
  {
    if s != [] {
      DigitPrefixOfDigits(s[1..]);
    }
  }

  /** A header value as `response.headers.get(name) || '0'` reads it: a
      missing or empty header becomes `"0"`. */
  function HeaderOr0(headers: map<string, string>, name: string): string {
    if name in headers && headers[name] != "" then headers[name] else "0"
  }

  /** `isExpired` at time `now`: older than its stamped maximum age. A
      header that does not parse is `NaN`, and every comparison with `NaN`
      is false, so such a response never expires. */
  predicate IsExpired(headers: map<string, string>, now: int) {
    var cachedAt := ParseInt(HeaderOr0(headers, CachedAtHeader));
    var maxAge := ParseInt(HeaderOr0(headers, MaxAgeHeader));
    cachedAt.Some? && maxAge.Some? && now - cachedAt.value > maxAge.value
  }

  /** The headers `cacheWithExpiration` stores: the response's own with the
      time of caching and the maximum age added. */
  function StampedHeaders(headers: map<string, string>, now: nat, maxAge: nat): (h: map<string, string>)
    ensures h.Keys == headers.Keys + {CachedAtHeader, MaxAgeHeader}
    ensures forall k :: k in headers && k != CachedAtHeader && k != MaxAgeHeader ==> h[k] == headers[k]
  {
    headers[CachedAtHeader := NatToString(now)][MaxAgeHeader := NatToString(maxAge)]
  }

  /** An entry stamped at time `t` with maximum age `m` is fresh exactly
      while `now - t <= m`. */
  lemma StampedFreshness(headers: map<string, string>, t: nat, m: nat, now: int)
    ensures IsExpired(StampedHeaders(headers, t, m), now) <==> now - t > m
  {
    var h := StampedHeaders(headers, t, m);
    assert HeaderOr0(h, CachedAtHeader) == NatToString(t);
    assert HeaderOr0(h, MaxAgeHeader) == NatToString(m);
    ParseIntOfNatToString(t);
    ParseIntOfNatToString(m);
  }

  /** A response without stamps (headers missing) reads as cached at 0
      with maximum age 0, so it is expired at any positive time. */
  lemma UnstampedExpires(now: int)
    requires now > 0
    ensures IsExpired(map[], now)
  {
    assert "0" == NatToString(0);
    ParseIntOfNatToString(0);
  }

  /** A response body: text, or the JSON report `networkFirst` builds when
      offline (`error: 'Offline'`, its message, and the time). */
  datatype Body = Text(text: string) | OfflineReport(timestamp: nat)

  /** A response: status, headers and body. */
  datatype Response = Response(status: int, headers: map<string, string>, body: Body) {
    predicate Ok() { 200 <= status <= 299 }
  }

  /** A cached entry, keyed by the request URL. */
  datatype Entry = Entry(url: string, response: Response)

  datatype NamedCache = NamedCache(name: string, entries: seq<Entry>)

  /** `caches.match(url)`: the first entry for `url`, searching the caches
      in the order they were created. */
  function Match(caches: seq<NamedCache>, url: string): (r: Option<Response>)
    ensures r.Some? ==> exists c, i :: 0 <= c < |caches| && 0 <= i < |caches[c].entries|
                          && caches[c].entries[i] == Entry(url, r.value)
    ensures r.None? ==> forall c, i :: 0 <= c < |caches| && 0 <= i < |caches[c].entries|
                          ==> caches[c].entries[i].url != url
    ensures r.Some? ==> exists c :: 0 <= c < |caches| && MatchIn(caches[c].entries, url) == r
                          && forall j :: 0 <= j < c ==> MatchIn(caches[j].entries, url).None?
  {
    var c := FirstHolding(caches, url);
    if c < |caches| then
      var r := MatchIn(caches[c].entries, url);
      var i :| 0 <= i < |caches[c].entries| && caches[c].entries[i] == Entry(url, r.value)
               && forall j :: 0 <= j < i ==> caches[c].entries[j].url != url;
      r
    else None
  }

  /** The position of the first cache holding an entry for `url`, or
      `|caches|`. */
  function FirstHolding(caches: seq<NamedCache>, url: string): (c: nat)
    ensures c <= |caches|
    ensures c < |caches| ==> MatchIn(caches[c].entries, url).Some?
    ensures forall j :: 0 <= j < c ==> MatchIn(caches[j].entries, url).None?
  {
    if caches == [] then 0
    else if MatchIn(caches[0].entries, url).Some? then 0
    else
      assert forall j :: 1 <= j < |caches| ==> caches[j] == caches[1..][j - 1];
      1 + FirstHolding(caches[1..], url)
  }

  /** `cache.match(url)` on one cache: the response of its first entry for
      `url`. */
  function MatchIn(entries: seq<Entry>, url: string): (r: Option<Response>)
    ensures r.Some? ==> Entry(url, r.value) in entries
    ensures r.Some? ==> exists i :: 0 <= i < |entries| && entries[i] == Entry(url, r.value)
                          && forall j :: 0 <= j < i ==> entries[j].url != url
    ensures r.None? ==> forall i :: 0 <= i < |entries| ==> entries[i].url != url
  {
    if entries == [] then None
    else if entries[0].url == url then Some(entries[0].response)
    else
      assert forall i :: 1 <= i < |entries| ==> entries[i] == entries[1..][i - 1];
      var r := MatchIn(entries[1..], url);
      if r.Some? then
        var i :| 0 <= i < |entries[1..]| && entries[1..][i] == Entry(url, r.value)
                 && forall j :: 0 <= j < i ==> entries[1..][j].url != url;
        assert entries[i + 1] == Entry(url, r.value);
        r
      else r
  }

  /** The entries of `entries` for other URLs, in order. */
  function Without(entries: seq<Entry>, url: string): (r: seq<Entry>)
    ensures forall i :: 0 <= i < |r| ==> r[i].url != url && r[i] in entries
    ensures forall e :: e in entries && e.url != url ==> e in r
  {
    if entries == [] then []
    else if entries[0].url == url then Without(entries[1..], url)
    else [entries[0]] + Without(entries[1..], url)
  }

  /** The position of the cache called `name`, or `|caches|`. */
  function CacheIndex(caches: seq<NamedCache>, name: string): (i: nat)
    ensures i <= |caches|
    ensures i < |caches| ==> caches[i].name == name
    ensures forall j :: 0 <= j < i ==> caches[j].name != name
  {
    if caches == [] then 0
    else if caches[0].name == name then 0
    else 1 + CacheIndex(caches[1..], name)
  }

  /** The fallback `networkFirst` returns when neither the network nor the
      cache can answer. */
  function OfflineResponse(now: nat): Response {
    Response(503, map["Content-Type" := "application/json"], OfflineReport(now))
  }

  /** The worker's state: the API rate-limit log (`API_RATE_LIMIT.current`)
      and Cache Storage, caches in creation order. */
  class Worker {
    var rateLimitLog: seq<int>
    var caches: seq<NamedCache>
    const selfOrigin: string

    ghost predicate Valid()
      reads this
    {
      |rateLimitLog| <= RateLimitRequests
    }

    constructor (origin: string, caches0: seq<NamedCache>)
      ensures Valid() && rateLimitLog == [] && caches == caches0 && selfOrigin == origin
    {
      rateLimitLog := [];
      caches := caches0;
      selfOrigin := origin;
    }

    /** `isRateLimited` at time `now`: the log keeps only stamps under a
        minute old; with 10 or more left the call is limited, otherwise
        `now` is logged. The log never holds more than 10 stamps. */
    method IsRateLimited(now: int) returns (limited: bool)
      requires Valid()
      modifies this`rateLimitLog
      ensures Valid()
      ensures limited <==> |RecentStamps(old(rateLimitLog), now)| >= RateLimitRequests
      ensures rateLimitLog == if limited then RecentStamps(old(rateLimitLog), now)
                              else RecentStamps(old(rateLimitLog), now) + [now]
    {
      rateLimitLog := RecentStamps(rateLimitLog, now);
      if |rateLimitLog| >= RateLimitRequests {
        return true;
      }
      rateLimitLog := rateLimitLog + [now];
      return false;
    }

    /** `caches.open(name)`: the cache's position, the cache being created
        (empty, last) when there is none by that name. */
    method Open(name: string) returns (index: nat)
      modifies this`caches
      ensures caches == Opened(old(caches), name)
      ensures index == CacheIndex(caches, name) && index < |caches|
    {
      index := CacheIndex(caches, name);
      if index == |caches| {
        caches := caches + [NamedCache(name, [])];
        CacheIndexIsFirst(caches, name, index);
      }
    }

    /** `cleanupCache(name, maxEntries)` */
    method CleanupCache(name: string, maxEntries: nat)
      modifies this`caches
      ensures caches == Cleaned(old(caches), name, maxEntries)
    {
      var index := Open(name);
      var keys := caches[index].entries;
      if |keys| > maxEntries {
        var kept := keys[|keys| - maxEntries..];
        caches := caches[index := NamedCache(name, kept)];
      }
    }

    /** `cacheWithExpiration(name, request, response, maxAge)` at `now`:
        the named cache is opened first, so it exists afterwards; for a URL
        without a cache key nothing more happens; otherwise the response
        with its headers stamped is put in it under the request URL. */
    method CacheWithExpiration(name: string, urlText: string, url: Option<ParsedUrl>,
                               response: Response, now: nat, maxAge: nat)
      modifies this`caches
      ensures SanitizeCacheKey(url).None? ==> caches == Opened(old(caches), name)
      ensures SanitizeCacheKey(url).Some? ==>
                caches == Stored(old(caches), name, urlText,
                                 response.(headers := StampedHeaders(response.headers, now, maxAge)))
    {
      var index := Open(name);
      var cacheKey := SanitizeCacheKey(url);
      if cacheKey.None? {
        return;
      }
      var stamped := response.(headers := StampedHeaders(response.headers, now, maxAge));
      var entries := Without(caches[index].entries, urlText) + [Entry(urlText, stamped)];
      caches := caches[index := NamedCache(name, entries)];
    }

    /** `networkFirst` for the request `urlText` (parsed as `url`) when the
        network would answer `network` (`None`: the fetch throws). The
        network response is used only when not rate limited, the URL is
        valid and the response is ok; then it is cached in the API cache.
        Otherwise a present, unexpired cached response, else the offline
        503. */
    method NetworkFirstFetch(urlText: string, url: Option<ParsedUrl>, network: Option<Response>, now: nat)
      returns (response: Response)
      requires Valid()
      modifies this`rateLimitLog, this`caches
      ensures Valid()
      ensures var limited := |RecentStamps(old(rateLimitLog), now)| >= RateLimitRequests;
              var live := !limited && IsValidUrl(url, selfOrigin) && network.Some? && network.value.Ok();
              var cached := Match(old(caches), urlText);
              (live ==> response == network.value
                        && caches == Stored(old(caches), ApiCache, urlText,
                                            network.value.(headers := StampedHeaders(network.value.headers, now, ApiMaxAge))))
              && (!live ==> caches == old(caches))
              && rateLimitLog == (if limited then RecentStamps(old(rateLimitLog), now)
                                  else RecentStamps(old(rateLimitLog), now) + [now])
              && (!live && cached.Some? && !IsExpired(cached.value.headers, now) ==> response == cached.value)
              && (!live && !(cached.Some? && !IsExpired(cached.value.headers, now)) ==> response == OfflineResponse(now))
    {
      var limited := IsRateLimited(now);
      if !limited && IsValidUrl(url, selfOrigin) && network.Some? && network.value.Ok() {
        CacheWithExpiration(ApiCache, urlText, url, network.value, now, ApiMaxAge);
        return network.value;
      }
      response := CachedOrOffline(urlText, now);
    }

    /** The catch branch of `networkFirst`: a present, unexpired cached
        response, else the offline 503. */
    method CachedOrOffline(urlText: string, now: nat) returns (response: Response)
      ensures var cached := Match(caches, urlText);
              response == if cached.Some? && !IsExpired(cached.value.headers, now) then cached.value
                          else OfflineResponse(now)
    {
      var cached := Match(caches, urlText);
      if cached.Some? && !IsExpired(cached.value.headers, now) {
        return cached.value;
      }
      return OfflineResponse(now);
    }

    /** `cacheFirst`: a present, unexpired cached response is returned
        without touching the network. Otherwise an invalid URL or a failed
        fetch falls back to the (expired) cached response or a 503; an ok
        network response is cached in the static cache and returned; any
        other response gives way to the expired cached one if there is
        one. */
    method CacheFirstFetch(urlText: string, url: Option<ParsedUrl>, network: Option<Response>, now: nat)
      returns (response: Response)
      modifies this`caches
      ensures var cached := Match(old(caches), urlText);
              var usable := cached.Some? && !IsExpired(cached.value.headers, now);
              var fallback := if cached.Some? then cached.value else Response(503, map[], Text("Resource not available offline"));
              (usable ==> response == cached.value && caches == old(caches))
              && (!usable && (!IsValidUrl(url, selfOrigin) || network.None?) ==> response == fallback && caches == old(caches))
              && (!usable && IsValidUrl(url, selfOrigin) && network.Some? && network.value.Ok() ==>
                    response == network.value
                    && caches == Stored(old(caches), StaticCache, urlText,
                                        network.value.(headers := StampedHeaders(network.value.headers, now, StaticMaxAge))))
              && (!usable && IsValidUrl(url, selfOrigin) && network.Some? && !network.value.Ok() ==>
                    response == (if cached.Some? then cached.value else network.value) && caches == old(caches))
    {
      var cached := Match(caches, urlText);
      if cached.Some? && !IsExpired(cached.value.headers, now) {
        return cached.value;
      }
      if !IsValidUrl(url, selfOrigin) || network.None? {
        return if cached.Some? then cached.value else Response(503, map[], Text("Resource not available offline"));
      }
      var networkResponse := network.value;
      if networkResponse.Ok() {
        CacheWithExpiration(StaticCache, urlText, url, networkResponse, now, StaticMaxAge);
        return networkResponse;
      }
      return if cached.Some? then cached.value else networkResponse;
    }

    /** `staleWhileRevalidate`: an invalid URL is answered from the cache or
        with a 400. Otherwise the network is asked in any case, an ok answer
        refreshing the dynamic cache; a cached response is returned at once
        if there is one, else the network's answer, else (`None`, the fetch
        having failed with nothing cached) no response at all. */
    method StaleWhileRevalidateFetch(urlText: string, url: Option<ParsedUrl>, network: Option<Response>, now: nat)
      returns (response: Option<Response>)
      modifies this`caches
      ensures var cached := Match(old(caches), urlText);
              (!IsValidUrl(url, selfOrigin) ==>
                 response == Some(if cached.Some? then cached.value else Response(400, map[], Text("Invalid request")))
                 && caches == old(caches))
              && (IsValidUrl(url, selfOrigin) ==>
                    response == (if cached.Some? then cached else network))
              && (IsValidUrl(url, selfOrigin) && network.Some? && network.value.Ok() ==>
                    caches == Stored(old(caches), DynamicCache, urlText,
                                     network.value.(headers := StampedHeaders(network.value.headers, now, DynamicMaxAge))))
              && (IsValidUrl(url, selfOrigin) && !(network.Some? && network.value.Ok()) ==> caches == old(caches))
    {
      var cached := Match(caches, urlText);
      if !IsValidUrl(url, selfOrigin) {
        return Some(if cached.Some? then cached.value else Response(400, map[], Text("Invalid request")));
      }
      if network.Some? && network.value.Ok() {
        CacheWithExpiration(DynamicCache, urlText, url, network.value, now, DynamicMaxAge);
      }
      response := if cached.Some? then cached else network;
    }

    /** The activate handler: every cache other than the static, dynamic
        and API caches is deleted, and each of those three is then cut to
        its entry limit (being created if it was absent). */
    method Activate()
      modifies this`caches
      ensures caches == Cleaned(Cleaned(Cleaned(KeptCaches(old(caches)), StaticCache, StaticMaxEntries),
                                        DynamicCache, DynamicMaxEntries), ApiCache, ApiMaxEntries)
    {
      caches := KeptCaches(caches);
      CleanupCache(StaticCache, StaticMaxEntries);
      CleanupCache(DynamicCache, DynamicMaxEntries);
      CleanupCache(ApiCache, ApiMaxEntries);
    }
  }

  /** The three caches the worker uses. */
  const KnownCaches: set<string> := {StaticCache, DynamicCache, ApiCache}

  /** After activation only the three known caches exist, all three exist,
      and each holds no more than its entry limit. */
  lemma ActivationOutcome(caches: seq<NamedCache>)
    ensures var r := Cleaned(Cleaned(Cleaned(KeptCaches(caches), StaticCache, StaticMaxEntries),
                                     DynamicCache, DynamicMaxEntries), ApiCache, ApiMaxEntries);
            (forall c :: 0 <= c < |r| ==> r[c].name in KnownCaches)
            && CacheIndex(r, StaticCache) < |r| && CacheIndex(r, DynamicCache) < |r|
            && CacheIndex(r, ApiCache) < |r|
            && BelowLimit(r, StaticCache, StaticMaxEntries)
            && BelowLimit(r, DynamicCache, DynamicMaxEntries)
            && BelowLimit(r, ApiCache, ApiMaxEntries)
  {
    var k := KeptCaches(caches);
    var r1 := Cleaned(k, StaticCache, StaticMaxEntries);
    CleanedFacts(k, StaticCache, StaticMaxEntries, KnownCaches);
    var r2 := Cleaned(r1, DynamicCache, DynamicMaxEntries);
    CleanedFacts(r1, DynamicCache, DynamicMaxEntries, KnownCaches);
    var r3 := Cleaned(r2, ApiCache, ApiMaxEntries);
    CleanedFacts(r2, ApiCache, ApiMaxEntries, KnownCaches);
    assert StaticCache != DynamicCache && StaticCache != ApiCache && DynamicCache != ApiCache;
    assert CacheIndex(r1, StaticCache) < |r1|;
    assert CacheIndex(r2, StaticCache) < |r2| && CacheIndex(r2, DynamicCache) < |r2|;
    assert BelowLimit(r2, StaticCache, StaticMaxEntries);
  }

  /** `CacheIndex` is the first position holding `name`. */
  lemma CacheIndexIsFirst(caches: seq<NamedCache>, name: string, k: nat)
    requires k <= |caches| && (k < |caches| ==> caches[k].name == name)
    requires forall j :: 0 <= j < k ==> caches[j].name != name
    ensures CacheIndex(caches, name) == k
  {
  }

  /** Cache Storage with the cache called `name` present: appended, empty,
      when it was absent. */
  function Opened(caches: seq<NamedCache>, name: string): (r: seq<NamedCache>)
    ensures CacheIndex(r, name) < |r|
    ensures |caches| <= |r| && r[..|caches|] == caches
    ensures CacheIndex(caches, name) < |caches| ==> r == caches
    ensures CacheIndex(caches, name) == |caches| ==> r == caches + [NamedCache(name, [])]
  {
    if CacheIndex(caches, name) < |caches| then caches
    else
      var r := caches + [NamedCache(name, [])];
      CacheIndexIsFirst(r, name, |caches|);
      r
  }

  /** `cleanupCache` as a function of Cache Storage: the cache called
      `name` (opened if absent) keeps only its last `limit` entries, in
      order; nothing else changes. */
  function Cleaned(caches: seq<NamedCache>, name: string, limit: nat): (r: seq<NamedCache>)
    ensures var o := Opened(caches, name);
            var i := CacheIndex(o, name);
            |r| == |o| && r[i] == NamedCache(name, KeepLast(o[i].entries, limit))
            && forall j :: 0 <= j < |r| && j != i ==> r[j] == o[j]
  {
    var o := Opened(caches, name);
    var i := CacheIndex(o, name);
    o[i := NamedCache(name, KeepLast(o[i].entries, limit))]
  }

  /** `cache.put(url, response)` on the cache called `name` (opened if
      absent): any entry for `url` is replaced, the new one going last. */
  function Stored(caches: seq<NamedCache>, name: string, url: string, response: Response): (r: seq<NamedCache>)
    ensures var o := Opened(caches, name);
            var i := CacheIndex(o, name);
            |r| == |o| && r[i] == NamedCache(name, Without(o[i].entries, url) + [Entry(url, response)])
            && forall j :: 0 <= j < |r| && j != i ==> r[j] == o[j]
  {
    var o := Opened(caches, name);
    var i := CacheIndex(o, name);
    o[i := NamedCache(name, Without(o[i].entries, url) + [Entry(url, response)])]
  }

  /** After a put, the cache it went into answers `url` with the new
      response. */
  lemma {:induction false} StoredIsFound(entries: seq<Entry>, url: string, response: Response)
    ensures MatchIn(Without(entries, url) + [Entry(url, response)], url) == Some(response)
  {
    if entries == [] {
      assert Without(entries, url) + [Entry(url, response)] == [Entry(url, response)];
    } else {
      StoredIsFound(entries[1..], url, response);
      if entries[0].url != url {
        assert Without(entries, url) + [Entry(url, response)]
            == [entries[0]] + (Without(entries[1..], url) + [Entry(url, response)]);
      }
    }
  }

  /** What one cleanup keeps true about Cache Storage: names stay within
      `names`, the cleaned cache exists and is within its limit, caches that
      existed still exist, and other caches keep their limits. */
  lemma CleanedFacts(caches: seq<NamedCache>, name: string, limit: nat, names: set<string>)
    requires name in names
    requires forall c :: 0 <= c < |caches| ==> caches[c].name in names
    ensures var r := Cleaned(caches, name, limit);
            (forall c :: 0 <= c < |r| ==> r[c].name in names)
            && CacheIndex(r, name) < |r| && BelowLimit(r, name, limit)
            && (forall n :: CacheIndex(caches, n) < |caches| ==> CacheIndex(r, n) < |r|)
            && (forall n, l :: n != name && BelowLimit(caches, n, l) ==> BelowLimit(r, n, l))
  {
    var o := Opened(caches, name);
    var i := CacheIndex(o, name);
    var r := Cleaned(caches, name, limit);
    forall n
      ensures CacheIndex(r, n) == CacheIndex(o, n)
    {
      var k := CacheIndex(o, n);
      CacheIndexIsFirst(r, n, k);
    }
    forall n | n != name && CacheIndex(caches, n) < |caches|
      ensures CacheIndex(o, n) == CacheIndex(caches, n)
    {
      var k := CacheIndex(caches, n);
      assert o[k] == caches[k];
      CacheIndexIsFirst(o, n, k);
    }
    forall n | n != name && CacheIndex(caches, n) == |caches|
      ensures CacheIndex(o, n) == |o|
    {
      CacheIndexIsFirst(o, n, |o|);
    }
  }

  /** The cache called `name` holds at most `limit` entries. */
  predicate BelowLimit(caches: seq<NamedCache>, name: string, limit: nat) {
    var i := CacheIndex(caches, name);
    i < |caches| ==> |caches[i].entries| <= limit
  }

  /** The caches the activate handler keeps, in order. */
  function KeptCaches(caches: seq<NamedCache>): (r: seq<NamedCache>)
    ensures forall c :: 0 <= c < |r| ==> r[c].name in {StaticCache, DynamicCache, ApiCache} && r[c] in caches
    ensures forall c :: 0 <= c < |caches| && caches[c].name in {StaticCache, DynamicCache, ApiCache} ==> caches[c] in r
  {
    if caches == [] then []
    else
      var rest := KeptCaches(caches[1..]);
      assert forall c :: 1 <= c < |caches| ==> caches[c] == caches[1..][c - 1];
      if caches[0].name in {StaticCache, DynamicCache, ApiCache} then [caches[0]] + rest else rest
  }

  /** The stamps of `log` under a minute old at `now`, in order: the
      `filter` of `isRateLimited`. */
  function RecentStamps(log: seq<int>, now: int): (r: seq<int>)
    ensures |r| <= |log|
    ensures forall i :: 0 <= i < |r| ==> now - r[i] < RateLimitWindow
    ensures forall i :: 0 <= i < |log| && now - log[i] < RateLimitWindow ==> log[i] in r
    ensures forall x :: x in r <==> x in log && now - x < RateLimitWindow
  {
    if log == [] then []
    else
      var rest := RecentStamps(log[1..], now);
      assert forall i :: 1 <= i < |log| ==> log[i] == log[1..][i - 1];
      if now - log[0] < RateLimitWindow then [log[0]] + rest else rest
  }
}
