/** The optimized local server (`server.optimized.py`): the request-path
    check of `do_GET`, the file cache keyed by path and validated against the
    file's modification time, the decision whether to serve gzip, and the
    headers of `serve_cached_content`. The file system, `mimetypes` and gzip
    are inputs. */
module OptimizedServer {
  import opened Wrappers
  import opened Strings

  type Bytes = seq<bv8>

  /** `enable_compression`, fixed by the handler's constructor. */
  const EnableCompression: bool := true
  /** `cache_max_age`, in seconds. */
  const CacheMaxAge: nat := 3600
  /** Compression is tried only on bodies longer than this many bytes. */
  const CompressionThreshold: nat := 1024
  const DefaultContentType: string := "application/octet-stream"

  /** `/` is served as the index page. */
  function RewriteRoot(path: string): string {
    if path == "/" then "/index.html" else path
  }

  /** The 403 test of `do_GET` as written: a path containing `..` or
      starting with `/` is refused. */
  predicate ForbiddenAsWritten(path: string) {
    var p := RewriteRoot(path);
    Contains(p, "..") || StartsWith(p, "/")
  }

  /** An HTTP request path always starts with `/`, so as written every
      request is refused, the index page included. */
  lemma EveryRequestForbiddenAsWritten(path: string)
    requires StartsWith(path, "/")
    ensures ForbiddenAsWritten(path)
  {
  }

  lemma IndexForbiddenAsWritten()
    ensures ForbiddenAsWritten("/")
    ensures ForbiddenAsWritten("/index.html")
  {
    assert "/index.html"[..1] == "/";
  }

  /** The evidently intended test: refuse traversal, and refuse a path that
      is still absolute once the request's own leading `/` is dropped. */
  predicate Forbidden(path: string) {
    var p := RewriteRoot(path);
    Contains(p, "..") || StartsWith(p, "//")
  }

  lemma ForbiddenServesPages()
    ensures !Forbidden("/")
    ensures !Forbidden("/index.html")
    ensures !Forbidden("/style.css")
    ensures Forbidden("/../server.py")
    ensures Forbidden("//etc/passwd")
  {
    var index := "/index.html";
    assert forall i :: 0 <= i < |index| && index[i] == '.' ==> i == 6;
    assert index[6..8][1] == index[7];
    FirstCharOnlyAt(index, "..", 6);
    assert index[..2] == "/i";
    var style := "/style.css";
    assert forall i :: 0 <= i < |style| && style[i] == '.' ==> i == 6;
    assert style[6..8][1] == style[7];
    FirstCharOnlyAt(style, "..", 6);
    assert style[..2] == "/s";
    assert OccursAt("/../server.py", "..", 1);
    assert "//etc/passwd"[..2] == "//";
  }

  /** `filepath`, which is also the cache key. */
  function CacheKey(path: string): string {
    LStrip(RewriteRoot(path), '/')
  }

  /** What `os.path.exists`, `os.stat` and reading the file give: the file
      is missing, or present with a modification time and either its bytes
      or `None` when opening or reading it raises. */
  datatype FileLookup = Missing | Present(mtime: real, content: Option<Bytes>)

  /** A `file_cache` value: the bytes to send, the content type and whether
      the bytes are gzip output. */
  datatype CachedFile = CachedFile(content: Bytes, contentType: string, compressed: bool)

  /** The `mimetypes.guess_type` result, or the octet-stream default. */
  function ContentTypeOf(guess: Option<string>): (r: string)
    ensures guess.None? ==> r == DefaultContentType
    ensures guess.Some? ==> r == guess.value
  {
    guess.GetOr(DefaultContentType)
  }

  /** Compression is attempted for enabled, `text/` bodies over the
      threshold and kept only when it saves more than a tenth of the size
      (`g < 0.9 * n`, written without the float). */
  predicate UseCompression(contentType: string, size: nat, compressedSize: nat) {
    EnableCompression && StartsWith(contentType, "text/") && size > CompressionThreshold
      && 10 * compressedSize < 9 * size
  }

  /** The entry the miss path stores: `gzipped` is what `compress_content`
      returns for `content`. */
  function Prepare(content: Bytes, guess: Option<string>, gzipped: Bytes): (r: CachedFile)
    ensures r.contentType == ContentTypeOf(guess)
    ensures r.compressed <==> EnableCompression && StartsWith(r.contentType, "text/")
                              && |content| > CompressionThreshold && 10 * |gzipped| < 9 * |content|
    ensures r.compressed ==> r.content == gzipped && |r.content| < |content|
    ensures !r.compressed ==> r.content == content
  {
    var contentType := ContentTypeOf(guess);
    if UseCompression(contentType, |content|, |gzipped|) then CachedFile(gzipped, contentType, true)
    else CachedFile(content, contentType, false)
  }

  /** The headers `serve_cached_content` sends that depend on the entry;
      the constant security and CORS headers are not modelled. */
  datatype Headers = Headers(contentType: string, contentLength: nat, maxAge: nat,
                             lastModified: real, contentEncoding: Option<string>)

  datatype Reply = Error(status: nat) | Sent(status: nat, headers: Headers, body: Bytes)

  function ServeCachedContent(entry: CachedFile, mtime: real): (r: Reply)
    ensures r.Sent? && r.status == 200 && r.body == entry.content
    ensures r.headers.contentLength == |r.body|
    ensures r.headers.contentEncoding == Some("gzip") <==> entry.compressed
    ensures r.headers.contentEncoding.None? <==> !entry.compressed
    ensures r.headers.contentType == entry.contentType && r.headers.lastModified == mtime
    ensures r.headers.maxAge == CacheMaxAge
  {
    Sent(200, Headers(entry.contentType, |entry.content|, CacheMaxAge, mtime,
                      if entry.compressed then Some("gzip") else None),
         entry.content)
  }

  /** A freshly read file is sent either as it is, uncompressed, or as its
      gzip form with `Content-Encoding: gzip`, and the length header always
      matches what is sent. */
  lemma ServedFreshFile(content: Bytes, guess: Option<string>, gzipped: Bytes, mtime: real)
    ensures var r := ServeCachedContent(Prepare(content, guess, gzipped), mtime);
      r.headers.contentLength == |r.body|
      && (r.headers.contentEncoding == Some("gzip") ==> r.body == gzipped && |r.body| < |content|)
      && (r.headers.contentEncoding.None? ==> r.body == content)
      && r.headers.contentType == ContentTypeOf(guess)
  {
  }

  /** `cache_timestamps.get(key, 0)` */
  function StoredTime(timestamps: map<string, real>, key: string): real {
    if key in timestamps then timestamps[key] else 0.0
  }

  /** The cache-hit test of `do_GET`. */
  predicate Hit(files: map<string, CachedFile>, timestamps: map<string, real>, key: string, mtime: real) {
    key in files && StoredTime(timestamps, key) >= mtime
  }

  /** Once a miss has stored a file, it is reused until the file is
      modified after the stored time, and a later modification misses. */
  lemma StoredEntryHitsUntilModified(files: map<string, CachedFile>, timestamps: map<string, real>,
                                     key: string, entry: CachedFile, stored: real, mtime: real)
    ensures Hit(files[key := entry], timestamps[key := stored], key, mtime) <==> mtime <= stored
  {
  }

  /** The module-level `file_cache` and `cache_timestamps`, shared by every
      request. */
  class FileCache {
    var files: map<string, CachedFile>
    var timestamps: map<string, real>

    /** The two maps are only ever written together. */
    ghost predicate Valid()
      reads this
    {
      files.Keys == timestamps.Keys
    }

    constructor()
      ensures Valid() && files == map[] && timestamps == map[]
    {
      files := map[];
      timestamps := map[];
    }

    /** `do_GET` for one request as evidently intended: 403, then 404,
        then a cache hit, then a read that stores the prepared entry with
        the file's mtime; a read that raises is a 500. The 403 uses the
        corrected test `Forbidden`; as written every request is refused
        (`EveryRequestForbiddenAsWritten`). */
    method DoGet(path: string, lookup: FileLookup, guess: Option<string>, gzipped: Bytes)
      returns (reply: Reply)
      requires Valid()
      modifies this
      ensures Valid()
      ensures Forbidden(path) ==> reply == Error(403) && unchanged(this)
      ensures !Forbidden(path) && lookup.Missing? ==> reply == Error(404) && unchanged(this)
      ensures !Forbidden(path) && lookup.Present? && Hit(old(files), old(timestamps), CacheKey(path), lookup.mtime) ==>
        reply == ServeCachedContent(old(files)[CacheKey(path)], lookup.mtime) && unchanged(this)
      ensures !Forbidden(path) && lookup.Present? && !Hit(old(files), old(timestamps), CacheKey(path), lookup.mtime)
              && lookup.content.None? ==>
        reply == Error(500) && unchanged(this)
      ensures !Forbidden(path) && lookup.Present? && !Hit(old(files), old(timestamps), CacheKey(path), lookup.mtime)
              && lookup.content.Some? ==>
        var entry := Prepare(lookup.content.value, guess, gzipped);
        files == old(files)[CacheKey(path) := entry]
        && timestamps == old(timestamps)[CacheKey(path) := lookup.mtime]
        && reply == ServeCachedContent(entry, lookup.mtime)
    {
      if Forbidden(path) {
        return Error(403);
      }
      var key := CacheKey(path);
      if lookup.Missing? {
        return Error(404);
      }
      var mtime := lookup.mtime;
      if key in files && StoredTime(timestamps, key) >= mtime {
        reply := ServeCachedContent(files[key], mtime);
        return;
      }
      if lookup.content.None? {
        return Error(500);
      }
      var entry := Prepare(lookup.content.value, guess, gzipped);
      files := files[key := entry];
      timestamps := timestamps[key := mtime];
      reply := ServeCachedContent(entry, mtime);
    }
  }
}
