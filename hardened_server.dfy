/** The hardened local server (`server.hardened.py`): a per-client
    sliding-window rate limiter, a bounded response cache, the request-path
    screen, and the order of checks a GET request passes through. Times are
    seconds, passed in where the source reads `time.time()`. */
module HardenedServer {
  import opened Wrappers
  import opened Strings

  type Bytes = seq<bv8>

  const RateLimitRequests: nat := 100
  const RateLimitWindow: real := 60.0
  const MaxFileSize: nat := 10 * 1024 * 1024
  const MaxCacheSize: nat := 100
  const CacheTimeout: real := 3600.0

  const AllowedExtensions: set<string> := {
    ".html", ".css", ".js", ".json", ".png", ".jpg", ".jpeg",
    ".gif", ".svg", ".ico", ".woff", ".woff2", ".ttf", ".eot"}

  const BlockedPaths: set<string> := {
    "..", ".htaccess", ".env", "config.py", "server.log",
    "__pycache__", ".git", ".DS_Store", "Thumbs.db"}

  const CompressibleTypes: set<string> := {
    "text/html", "text/css", "text/javascript", "application/javascript",
    "application/json", "text/xml", "application/xml"}

  /** The timestamps of `times` that are less than a window old at `now`,
      in order: the list comprehension of `is_allowed`. */
  function InWindow(times: seq<real>, now: real): (r: seq<real>)
    ensures |r| <= |times|
    ensures forall i :: 0 <= i < |r| ==> now - r[i] < RateLimitWindow
    ensures forall i :: 0 <= i < |times| && now - times[i] < RateLimitWindow ==> times[i] in r
    ensures forall x :: x in r <==> x in times && now - x < RateLimitWindow
  {
    if times == [] then []
    else
      var rest := InWindow(times[1..], now);
      assert forall i :: 1 <= i < |times| ==> times[i] == times[1..][i - 1];
      if now - times[0] < RateLimitWindow then [times[0]] + rest else rest
  }

  /** The client's list before a call: its stored list, or `[]`. */
  function History(requests: map<string, seq<real>>, client: string): seq<real> {
    if client in requests then requests[client] else []
  }

  class RateLimiter {
    var requests: map<string, seq<real>>

    /** No client ever holds more than `RATE_LIMIT_REQUESTS` timestamps. */
    ghost predicate Valid()
      reads this
    {
      forall c :: c in requests ==> |requests[c]| <= RateLimitRequests
    }

    constructor ()
      ensures Valid() && requests == map[]
    {
      requests := map[];
    }

    /** `is_allowed(client_ip)` at time `now`: the client's list is pruned to
        the window; the call is refused iff 100 or more remain, and only an
        accepted call records `now`. Every list stays within bound, this
        client's within the window, and no other client's list changes. */
    method IsAllowed(client: string, now: real) returns (allowed: bool)
      requires Valid()
      modifies this
      ensures Valid()
      ensures var recent := InWindow(History(old(requests), client), now);
              allowed == (|recent| < RateLimitRequests)
              && requests == old(requests)[client := if allowed then recent + [now] else recent]
      ensures forall i :: 0 <= i < |requests[client]| ==> now - requests[client][i] < RateLimitWindow
    {
      if client in requests {
        requests := requests[client := InWindow(requests[client], now)];
      } else {
        requests := requests[client := []];
      }
      if |requests[client]| >= RateLimitRequests {
        return false;
      }
      requests := requests[client := requests[client] + [now]];
      return true;
    }
  }

  /** `should_compress`: the content type contains one of the seven
      compressible types as a substring. */
  predicate ShouldCompress(contentType: string) {
    exists ct | ct in CompressibleTypes :: Contains(contentType, ct)
  }

  /** A type with parameters still compresses, and an image type does not
      (no compressible type is a substring of `image/png`). */
  lemma ShouldCompressExamples()
    ensures ShouldCompress("text/html; charset=utf-8")
    ensures !ShouldCompress("image/png")
  {
    assert OccursAt("text/html; charset=utf-8", "text/html", 0);
    forall ct | ct in CompressibleTypes
      ensures !Contains("image/png", ct)
    {
      if |ct| <= 9 {
        FirstCharAbsent("image/png", ct);
      }
    }
  }

  /** Every compressible type compresses, whatever surrounds it: with
      parameters after it, or anything before it. */
  lemma ShouldCompressInContext(u: string, ct: string, v: string)
    requires ct in CompressibleTypes
    ensures ShouldCompress(u + ct + v)
  {
    var t := u + ct + v;
    assert t[|u|..|u| + |ct|] == ct;
    assert OccursAt(t, ct, |u|);
  }

  /** Conversely, a type that compresses is some compressible type with
      text around it. */
  lemma ShouldCompressSplits(t: string)
    requires ShouldCompress(t)
    ensures exists ct, i | ct in CompressibleTypes && 0 <= i <= |t| - |ct| :: t == t[..i] + ct + t[i + |ct|..]
  {
    var ct :| ct in CompressibleTypes && Contains(t, ct);
    var i :| 0 <= i <= |t| - |ct| && OccursAt(t, ct, i);
    assert t == t[..i] + t[i..i + |ct|] + t[i + |ct|..];
  }

  /** A type shorter than the shortest compressible type (`text/css`,
      `text/xml`, eight characters) never compresses. */
  lemma ShortTypesNotCompressed(t: string)
    requires |t| < 8
    ensures !ShouldCompress(t)
  {
    forall ct | ct in CompressibleTypes
      ensures |ct| >= 8
    {
    }
  }

  /** A cache entry. */
  datatype CacheItem = CacheItem(content: Bytes, contentType: string, etag: string,
                                 timestamp: real, compressed: bool)

  /** `get` as a function of the cache: the entry while it is younger than
      the timeout. */
  function Lookup(cache: map<string, CacheItem>, key: string, now: real): (r: Option<CacheItem>)
    ensures r.Some? <==> key in cache && now - cache[key].timestamp < CacheTimeout
    ensures r.Some? ==> r.value == cache[key]
  {
    if key in cache && now - cache[key].timestamp < CacheTimeout then Some(cache[key]) else None
  }

  /** The item `set` stores at `now`: the given etag, or else the content
      hash (`md5`, the hash `generate_etag` would produce; hashing is not
      modelled), and the compression flag of the type. */
  function NewItem(content: Bytes, contentType: string, etag: Option<string>, md5: string, now: real): (item: CacheItem)
    ensures item.content == content && item.contentType == contentType && item.timestamp == now
    ensures item.etag == (if etag.Some? && etag.value != "" then etag.value else md5)
    ensures item.compressed <==> ShouldCompress(contentType)
  {
    CacheItem(content, contentType, if etag.Some? && etag.value != "" then etag.value else md5,
              now, ShouldCompress(contentType))
  }

  /** A key whose entry has the least timestamp. */
  predicate Oldest(cache: map<string, CacheItem>, key: string) {
    key in cache && forall k :: k in cache ==> cache[key].timestamp <= cache[k].timestamp
  }

  lemma {:induction false} OldestExists(cache: map<string, CacheItem>)
    requires cache != map[]
    ensures exists key :: Oldest(cache, key)
    decreases |cache.Keys|
  {
    var k :| k in cache;
    var rest := map k' | k' in cache && k' != k :: cache[k'];
    assert forall k' :: k' in cache ==> k' == k || (k' in rest && rest[k'] == cache[k']);
    if rest == map[] {
      assert Oldest(cache, k);
    } else {
      assert rest.Keys == cache.Keys - {k};
      OldestExists(rest);
      var m :| Oldest(rest, m);
      if cache[k].timestamp < cache[m].timestamp {
        assert Oldest(cache, k);
      } else {
        assert Oldest(cache, m);
      }
    }
  }

  /** `after` is what `set` leaves of `before` when it stores `item` under
      `key`: below the bound the item is simply added; a full cache first
      loses one entry of least timestamp. */
  predicate SetFrom(before: map<string, CacheItem>, after: map<string, CacheItem>, key: string, item: CacheItem) {
    (|before| < MaxCacheSize ==> after == before[key := item])
    && (|before| >= MaxCacheSize ==>
          exists evicted | evicted in before :: Oldest(before, evicted) && after == (before - {evicted})[key := item])
  }

  class CacheManager {
    var cache: map<string, CacheItem>

    ghost predicate Valid()
      reads this
    {
      |cache| <= MaxCacheSize
    }

    constructor ()
      ensures Valid() && cache == map[]
    {
      cache := map[];
    }

    /** `get(key)` at time `now`: the fresh entry; a stale one is deleted,
        and no other key is touched. */
    method Get(key: string, now: real) returns (item: Option<CacheItem>)
      requires Valid()
      modifies this
      ensures Valid()
      ensures item == Lookup(old(cache), key, now)
      ensures cache == if key in old(cache) && item.None? then old(cache) - {key} else old(cache)
    {
      if key in cache {
        var it := cache[key];
        if now - it.timestamp < CacheTimeout {
          return Some(it);
        }
        cache := cache - {key};
      }
      return None;
    }

    /** `set(key, content, content_type, etag)` at time `now`: a full cache
        first loses an entry of least timestamp; then `key` maps to the new
        item. The cache never holds more than 100 entries. */
    method Set(key: string, content: Bytes, contentType: string, etag: Option<string>, md5: string, now: real)
      requires Valid()
      modifies this
      ensures Valid()
      ensures key in cache && cache[key] == NewItem(content, contentType, etag, md5, now)
      ensures SetFrom(old(cache), cache, key, NewItem(content, contentType, etag, md5, now))
    {
      if |cache| >= MaxCacheSize {
        OldestExists(cache);
        var oldestKey :| Oldest(cache, oldestKey);
        cache := cache - {oldestKey};
      }
      cache := cache[key := NewItem(content, contentType, etag, md5, now)];
    }
  }

  /** A stored entry is found again exactly while it is younger than the
      timeout. */
  lemma SetThenGet(cache: map<string, CacheItem>, key: string, item: CacheItem, now: real)
    ensures Lookup(cache[key := item], key, now) == (if now - item.timestamp < CacheTimeout then Some(item) else None)
  {
  }

  /** `is_path_safe` AS WRITTEN, on the result of unquoting and normalising
      the request path (`None` when that raised). Besides the blocked names,
      `..`, and the extension list, it refuses every path that starts with
      `/`, and a request path always does. */
  predicate IsPathSafeAsWritten(normalized: Option<string>) {
    normalized.Some?
    && var p := normalized.value;
    !(exists b | b in BlockedPaths :: Contains(p, b))
    && !Contains(p, "..") && !StartsWith(p, "/")
    && !(p != "/" && !(exists ext | ext in AllowedExtensions :: EndsWith(p, ext)))
  }

  /** Every rooted path is refused, `/` itself included, so `do_GET` answers
      403 to every request that passes the rate limit. */
  lemma EveryRootedPathRefused(p: string)
    requires StartsWith(p, "/")
    ensures !IsPathSafeAsWritten(Some(p))
  {
  }

  /** `/index.html`, which `normpath` leaves as it is, is refused. */
  lemma IndexPageRefused()
    ensures !IsPathSafeAsWritten(Some("/index.html"))
  {
    EveryRootedPathRefused("/index.html");
  }

  /** `is_path_safe` as evidently intended: the leading `/` every request
      path carries is not itself a reason to refuse; a second one (a path
      that stays absolute once the first is stripped) still is. */
  predicate IsPathSafe(normalized: Option<string>) {
    normalized.Some?
    && var p := normalized.value;
    !(exists b | b in BlockedPaths :: Contains(p, b))
    && !Contains(p, "..") && !StartsWith(p, "//")
    && !(p != "/" && !(exists ext | ext in AllowedExtensions :: EndsWith(p, ext)))
  }

  /** The corrected screen serves the site's own pages and still refuses a
      traversal, a blocked name and a doubled slash. */
  lemma IsPathSafeServesPages()
    ensures IsPathSafe(Some("/"))
    ensures IsPathSafe(Some("/index.html"))
    ensures !IsPathSafe(Some("/../secret.html"))
    ensures !IsPathSafe(Some("/.env"))
    ensures !IsPathSafe(Some("//etc/passwd.html"))
  {
    assert EndsWith("/index.html", ".html");
    assert "/index.html"[..2] == "/i";
    assert "//etc/passwd.html"[..2] == "//";
    assert OccursAt("/../secret.html", "..", 1);
    assert OccursAt("/.env", ".env", 1);
    RootHasNoBlockedName();
    IndexHasNoBlockedName();
  }

  /** `/` is too short to contain any blocked name. */
  lemma RootHasNoBlockedName()
    ensures !(exists b | b in BlockedPaths :: Contains("/", b))
    ensures !Contains("/", "..")
  {
    forall b | b in BlockedPaths + {".."}
      ensures !Contains("/", b)
    {
      assert |b| >= 2;
    }
  }

  /** `/index.html` has its only `.` before `html`, and none of the first
      characters of the other blocked names. */
  lemma IndexHasNoBlockedName()
    ensures !(exists b | b in BlockedPaths :: Contains("/index.html", b))
    ensures !Contains("/index.html", "..")
  {
    var p := "/index.html";
    var dot := 6;
    assert forall i :: 0 <= i < |p| && p[i] == '.' ==> i == dot;
    assert !OccursAt(p, "..", dot) by { assert p[dot..dot + 2][1] == 'h'; }
    assert !OccursAt(p, ".env", dot) by { assert p[dot..dot + 4][1] == 'h'; }
    assert !OccursAt(p, ".git", dot) by { assert p[dot..dot + 4][1] == 'h'; }
    assert !OccursAt(p, ".htaccess", dot);
    assert !OccursAt(p, ".DS_Store", dot);
    FirstCharOnlyAt(p, "..", dot);
    FirstCharOnlyAt(p, ".env", dot);
    FirstCharOnlyAt(p, ".git", dot);
    FirstCharOnlyAt(p, ".htaccess", dot);
    FirstCharOnlyAt(p, ".DS_Store", dot);
    FirstCharAbsent(p, "config.py");
    FirstCharAbsent(p, "server.log");
    FirstCharAbsent(p, "__pycache__");
    FirstCharAbsent(p, "Thumbs.db");
  }

  /** The outcome of resolving the request path against the served
      directory: outside it, absent (or not a file), a file whose `stat` or
      `read_bytes` raises, or a file with its size, bytes and guessed
      content type. */
  datatype FileLookup = Outside | Missing | Unreadable | Found(size: nat, content: Bytes, contentType: string)

  /** What `do_GET` sends: a status, and for a 200 the content type, the
      etag, whether the body is gzipped, and whether it came from the cache. */
  datatype Reply = Error(status: nat) | Ok(contentType: string, etag: string, gzip: bool, fromCache: bool)

  /** The status a reply is sent with. */
  function ReplyStatus(reply: Reply): nat {
    if reply.Error? then reply.status else 200
  }

  /** The status `serve_file_safe` sends for a resolved lookup once the
      file path has been built: 403, 404 and 413 in that order, 500 from
      the method's own `except` when reading the file raises, else 200. */
  function LookupStatus(lookup: FileLookup): (status: nat)
    ensures status == 200 <==> lookup.Found? && lookup.size <= MaxFileSize
    ensures status == 500 <==> lookup.Unreadable?
    ensures status in {200, 403, 404, 413, 500}
  {
    match lookup
    case Outside => 403
    case Missing => 404
    case Unreadable => 500
    case Found(size, _, _) => if size > MaxFileSize then 413 else 200
  }

  /** What a handler's `self.directory` holds. `SimpleHTTPRequestHandler`
      stores `os.fspath(directory)`, a `str`, whatever it was given; the
      file-serving code treats it as a `pathlib.Path`. */
  datatype Directory = Text(path: string) | PathObject(path: string)

  /** `directory / part`: the joined path, or `None` for the `TypeError`
      that `/` raises on two strings. */
  function JoinPath(directory: Directory, part: string): (r: Option<string>)
    ensures r.None? <==> directory.Text?
    ensures r.Some? ==> StartsWith(r.value, directory.path) && EndsWith(r.value, part)
  {
    match directory
    case Text(_) => None
    case PathObject(d) => Some(d + "/" + part)
  }

  /** The status `serve_file_safe` sends AS WRITTEN, for `path` and the
      handler's directory `directory`: building the file path is its first
      step, and when that raises, its own `except` answers 500. */
  function ServeFileSafeStatusAsWritten(directory: Directory, path: string, lookup: FileLookup): (status: nat)
    ensures directory.PathObject? ==> status == LookupStatus(lookup)
  {
    var part := if path == "/" then "index.html" else LStrip(path, '/');
    match JoinPath(directory, part)
    case None => 500
    case Some(_) => LookupStatus(lookup)
  }

  /** Since the handler's directory is always a `str`, every request that
      reaches `serve_file_safe` is answered 500, whatever file it names. */
  lemma EveryFileRequestFailsAsWritten(directory: string, path: string, lookup: FileLookup)
    ensures ServeFileSafeStatusAsWritten(Text(directory), path, lookup) == 500
  {
  }

  class RequestHandler {
    const rateLimiter: RateLimiter
    const cacheManager: CacheManager

    ghost predicate Valid()
      reads this, rateLimiter, cacheManager
    {
      rateLimiter.Valid() && cacheManager.Valid()
    }

    constructor (limiter: RateLimiter, manager: CacheManager)
      ensures rateLimiter == limiter && cacheManager == manager
    {
      rateLimiter := limiter;
      cacheManager := manager;
    }

    /** `serve_file_safe` as evidently intended, with the directory a
        `pathlib.Path`: outside the directory 403, missing 404, over 10 MB
        413, in that order, and 500 when reading it raises; otherwise the
        file is cached under `key` with its content hash as etag and
        served, gzipped iff its type is compressible. */
    method ServeFileSafe(key: string, lookup: FileLookup, md5: string, now: real) returns (reply: Reply)
      requires Valid()
      modifies cacheManager
      ensures Valid()
      ensures ReplyStatus(reply) == LookupStatus(lookup)
      ensures lookup.Outside? ==> reply == Error(403) && cacheManager.cache == old(cacheManager.cache)
      ensures lookup.Missing? ==> reply == Error(404) && cacheManager.cache == old(cacheManager.cache)
      ensures lookup.Unreadable? ==> reply == Error(500) && cacheManager.cache == old(cacheManager.cache)
      ensures lookup.Found? && lookup.size > MaxFileSize ==>
                reply == Error(413) && cacheManager.cache == old(cacheManager.cache)
      ensures lookup.Found? && lookup.size <= MaxFileSize ==>
                reply == Ok(lookup.contentType, md5, ShouldCompress(lookup.contentType), false)
                && key in cacheManager.cache && cacheManager.cache[key] == NewItem(lookup.content, lookup.contentType, Some(md5), md5, now)
                && SetFrom(old(cacheManager.cache), cacheManager.cache, key,
                           NewItem(lookup.content, lookup.contentType, Some(md5), md5, now))
    {
      match lookup
      case Outside => return Error(403);
      case Missing => return Error(404);
      case Unreadable => return Error(500);
      case Found(size, content, contentType) =>
        if size > MaxFileSize {
          return Error(413);
        }
        cacheManager.Set(key, content, contentType, Some(md5), md5, now);
        reply := Ok(contentType, md5, ShouldCompress(contentType), false);
    }

    /** `do_GET` from `client` for `path` (normalised to `normalized`) at
        `now`, as evidently intended: rate limit (429), then the path
        screen (403), then the cache under `"ip:path"`, then the file. A
        refused request touches neither the cache nor the file system. The
        screen is the corrected `IsPathSafe` and the file is served by the
        corrected `ServeFileSafe`; as written every admitted request is
        refused (`EveryRootedPathRefused`). */
    method DoGet(client: string, path: string, normalized: Option<string>, lookup: FileLookup,
                 md5: string, now: real) returns (reply: Reply)
      requires Valid()
      modifies rateLimiter, cacheManager
      ensures Valid()
      ensures var recent := InWindow(History(old(rateLimiter.requests), client), now);
              var admitted := |recent| < RateLimitRequests;
              rateLimiter.requests == old(rateLimiter.requests)[client := if admitted then recent + [now] else recent]
      ensures var admitted := |InWindow(History(old(rateLimiter.requests), client), now)| < RateLimitRequests;
              var key := client + ":" + path;
              var hit := Lookup(old(cacheManager.cache), key, now);
              var afterGet := if key in old(cacheManager.cache) then old(cacheManager.cache) - {key} else old(cacheManager.cache);
              (!admitted ==> reply == Error(429) && cacheManager.cache == old(cacheManager.cache))
              && (admitted && !IsPathSafe(normalized) ==>
                    reply == Error(403) && cacheManager.cache == old(cacheManager.cache))
              && (admitted && IsPathSafe(normalized) && hit.Some? ==>
                    reply == Ok(hit.value.contentType, hit.value.etag, hit.value.compressed, true)
                    && cacheManager.cache == old(cacheManager.cache))
              && (admitted && IsPathSafe(normalized) && hit.None? && lookup.Found? && lookup.size <= MaxFileSize ==>
                    reply == Ok(lookup.contentType, md5, ShouldCompress(lookup.contentType), false)
                    && key in cacheManager.cache && cacheManager.cache[key] == NewItem(lookup.content, lookup.contentType, Some(md5), md5, now)
                    && SetFrom(afterGet, cacheManager.cache, key, NewItem(lookup.content, lookup.contentType, Some(md5), md5, now)))
              && (admitted && IsPathSafe(normalized) && hit.None? && !(lookup.Found? && lookup.size <= MaxFileSize) ==>
                    reply == Error(LookupStatus(lookup)) && cacheManager.cache == afterGet)
    {
      var allowed := rateLimiter.IsAllowed(client, now);
      if !allowed {
        return Error(429);
      }
      if !IsPathSafe(normalized) {
        return Error(403);
      }
      var key := client + ":" + path;
      var cached := cacheManager.Get(key, now);
      if cached.Some? {
        var item := cached.value;
        return Ok(item.contentType, item.etag, item.compressed, true);
      }
      reply := ServeFileSafe(key, lookup, md5, now);
    }
  }
}
