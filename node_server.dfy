/** The Node.js local server (`server.js`): extension-based content types
    and the routing of a request URL to a file, an endpoint or an error. The
    file system is an input: a map from the paths that exist to what reading
    them gives. */
module NodeServer {
  import opened Wrappers
  import opened Strings

  type Bytes = seq<bv8>

  const MimeTypes: map<string, string> := map[
    ".html" := "text/html",
    ".js" := "text/javascript",
    ".css" := "text/css",
    ".json" := "application/json",
    ".png" := "image/png",
    ".jpg" := "image/jpg",
    ".gif" := "image/gif",
    ".svg" := "image/svg+xml",
    ".wav" := "audio/wav",
    ".mp4" := "video/mp4",
    ".woff" := "application/font-woff",
    ".ttf" := "application/font-ttf",
    ".eot" := "application/vnd.ms-fontobject",
    ".otf" := "application/font-otf",
    ".wasm" := "application/wasm"]

  const DefaultContentType: string := "application/octet-stream"
  const NetworkStatusUrl: string := "/network-status"

  /** `s` without its trailing `c` characters. */
  function DropTrailing(s: string, c: char): string {
    if s != [] && s[|s| - 1] == c then DropTrailing(s[..|s| - 1], c) else s
  }

  /** The part of `s` after its last `c`, or all of `s` when it has none. */
  function AfterLast(s: string, c: char): (r: string)
    ensures c !in r
  {
    if s == [] || s[|s| - 1] == c then []
    else AfterLast(s[..|s| - 1], c) + [s[|s| - 1]]
  }

  /** The position of the last `c` in `s`. */
  function LastIndex(s: string, c: char): (r: Option<nat>)
    ensures r.None? <==> c !in s
    ensures r.Some? ==> r.value < |s| && s[r.value] == c && c !in s[r.value + 1..]
  {
    if s == [] then None
    else if s[|s| - 1] == c then Some(|s| - 1)
    else
      var r := LastIndex(s[..|s| - 1], c);
      assert r.Some? ==> s[r.value + 1..] == s[..|s| - 1][r.value + 1..] + [s[|s| - 1]];
      r
  }

  /** The last path segment, trailing slashes ignored, as `path.posix`
      reads it. */
  function Basename(p: string): (r: string)
    ensures '/' !in r
  {
    AfterLast(DropTrailing(p, '/'), '/')
  }

  /** `path.extname`: from the last `.` of the last segment to its end;
      empty when the segment has no `.`, starts with its last `.`, or is
      `..`. */
  function ExtName(p: string): string {
    var b := Basename(p);
    match LastIndex(b, '.')
    case None => []
    case Some(d) => if d == 0 || b == ".." then [] else b[d..]
  }

  /** The extension is a `.` and what follows it to the end of the last
      segment, with no further `.` or `/`; it is empty exactly in the three
      cases `path.extname` names. */
  lemma ExtNameShape(p: string)
    ensures var r := ExtName(p);
      (r != [] ==> r[0] == '.' && '.' !in r[1..] && '/' !in r)
      && (r != [] ==> EndsWith(Basename(p), r) && |r| < |Basename(p)|)
      && (r == [] <==> '.' !in Basename(p) || (Basename(p)[0] == '.' && '.' !in Basename(p)[1..])
                       || Basename(p) == "..")
  {
    var b := Basename(p);
    match LastIndex(b, '.')
    case None =>
    case Some(d) =>
      if d != 0 && b != ".." {
        assert b[d..][1..] == b[d + 1..];
        if b[0] == '.' {
          assert b[1..][d - 1] == '.';
        }
      }
  }

  /** The `mimeTypes` entry of the lower-cased extension, else
      octet-stream. */
  function ContentTypeOfExt(ext: string): (r: string)
    ensures Lower(ext) in MimeTypes ==> r == MimeTypes[Lower(ext)]
    ensures Lower(ext) !in MimeTypes ==> r == DefaultContentType
    ensures r == DefaultContentType || r in MimeTypes.Values
  {
    var key := Lower(ext);
    if key in MimeTypes then MimeTypes[key] else DefaultContentType
  }

  /** `getContentType` */
  function GetContentType(filePath: string): string {
    ContentTypeOfExt(ExtName(filePath))
  }

  /** `.html` pages are HTML. */
  lemma HtmlExtension()
    ensures ContentTypeOfExt(".html") == "text/html"
  {
    assert Lower(".html") == ".html";
  }

  /** Extensions are matched without regard to case. */
  lemma UpperCaseHtmlExtension()
    ensures ContentTypeOfExt(".HTML") == "text/html"
  {
    assert Lower(".HTML") == ".html";
  }

  /** No extension, no entry. */
  lemma NoExtension()
    ensures ContentTypeOfExt("") == DefaultContentType
  {
    assert Lower("") == "";
  }

  /** Appending a string without `c` extends the part after the last `c`. */
  lemma {:induction false} AfterLastAppend(s: string, e: string, c: char)
    requires c !in e
    ensures AfterLast(s + e, c) == AfterLast(s, c) + e
    decreases |e|
  {
    if e == [] {
      assert s + e == s;
    } else {
      var e' := e[..|e| - 1];
      var last := e[|e| - 1];
      assert last in e;
      assert (s + e)[|s + e| - 1] == last;
      assert (s + e)[..|s + e| - 1] == s + e';
      assert c !in e' by {
        forall x | x in e' ensures x in e { }
      }
      assert AfterLast(s + e, c) == AfterLast(s + e', c) + [last];
      AfterLastAppend(s, e', c);
      assert AfterLast(s, c) + e' + [e[|e| - 1]] == AfterLast(s, c) + e;
    }
  }

  /** The last `c` of `b + e` is the first character of `e` when `e` has
      no other. */
  lemma {:induction false} LastIndexAppend(b: string, e: string, c: char)
    requires e != [] && e[0] == c && c !in e[1..]
    ensures LastIndex(b + e, c) == Some(|b|)
    decreases |e|
  {
    if |e| > 1 {
      var e' := e[..|e| - 1];
      assert (b + e)[..|b + e| - 1] == b + e';
      assert e'[1..] == e[1..|e| - 1];
      assert e[|e| - 1] == e[1..][|e| - 2];
      LastIndexAppend(b, e', c);
    }
  }

  /** A path whose last character is not `/`, followed by an extension, has
      that extension. */
  lemma ExtNameAppend(p: string, e: string)
    requires p != [] && p[|p| - 1] != '/'
    requires |e| >= 2 && e[0] == '.' && '.' !in e[1..] && '/' !in e
    ensures ExtName(p + e) == e
  {
    var a := AfterLast(p, '/');
    assert Basename(p + e) == a + e by {
      assert e[|e| - 1] in e;
      assert DropTrailing(p + e, '/') == p + e;
      AfterLastAppend(p, e, '/');
    }
    assert a != [];
    LastIndexAppend(a, e, '.');
    assert (a + e)[|a|..] == e;
  }

  /** A path whose last segment has no `.` has no extension. */
  lemma ExtNameOfPlainName(dir: string, name: string)
    requires dir == [] || dir[|dir| - 1] == '/'
    requires name != [] && '.' !in name && '/' !in name
    ensures ExtName(dir + name) == ""
  {
    assert Basename(dir + name) == name by {
      assert name[|name| - 1] in name;
      assert DropTrailing(dir + name, '/') == dir + name;
      AfterLastAppend(dir, name, '/');
      assert AfterLast(dir, '/') == [];
    }
    assert LastIndex(name, '.') == None;
  }

  /** The index page is HTML. */
  lemma IndexIsHtml()
    ensures GetContentType("./index.html") == "text/html"
  {
    assert "./index.html" == "./index" + ".html";
    ExtNameAppend("./index", ".html");
    HtmlExtension();
  }

  /** The extension is looked up lower-cased. */
  lemma UpperCaseExtensionIsHtml()
    ensures GetContentType("./INDEX.HTML") == "text/html"
  {
    assert "./INDEX.HTML" == "./INDEX" + ".HTML";
    ExtNameAppend("./INDEX", ".HTML");
    UpperCaseHtmlExtension();
  }

  /** A path without an extension is served as octet-stream. */
  lemma PlainNameIsOctetStream()
    ensures GetContentType("./README") == DefaultContentType
  {
    assert "./README" == "./" + "README";
    ExtNameOfPlainName("./", "README");
    NoExtension();
  }

  /** A string with no two adjacent dots does not contain `..`. */
  lemma NoDotDot(s: string)
    requires forall i :: 0 <= i < |s| - 1 ==> !(s[i] == '.' && s[i + 1] == '.')
    ensures !Contains(s, "..")
  {
    forall i | 0 <= i <= |s| - 2
      ensures !OccursAt(s, "..", i)
    {
      assert s[i..i + 2][0] == s[i];
      assert s[i..i + 2][1] == s[i + 1];
    }
  }

  /** The URL-to-path rule: `/` is the index page, anything else is taken
      relative to the working directory. */
  function FilePathOf(url: string): (r: string)
    ensures url == "/" ==> r == "./index.html"
    ensures url != "/" ==> r == "." + url
  {
    assert "." + url == "./" <==> url == "/" by {
      if "." + url == "./" {
        assert url == ("." + url)[1..];
      }
    }
    if "." + url == "./" then "./index.html" else "." + url
  }

  /** What `fs.readFile` gives for a path that exists. */
  datatype Node = Readable(content: Bytes) | Unreadable

  /** The response the request callback sends. */
  datatype Answer =
    | NetworkStatus
    | Refused(status: nat)
    | File(path: string, contentType: string, content: Bytes)

  /** `serveFile`: 404 for a missing path, 500 for another read error,
      else the bytes with the path's content type. */
  function ServeFile(filePath: string, fs: map<string, Node>): (r: Answer)
    ensures filePath !in fs ==> r == Refused(404)
    ensures filePath in fs && fs[filePath].Unreadable? ==> r == Refused(500)
    ensures filePath in fs && fs[filePath].Readable? ==>
      r == File(filePath, GetContentType(filePath), fs[filePath].content)
  {
    if filePath !in fs then Refused(404)
    else match fs[filePath]
      case Unreadable => Refused(500)
      case Readable(content) => File(filePath, GetContentType(filePath), content)
  }

  /** The request callback of `startServer`. */
  function HandleRequest(url: string, fs: map<string, Node>): (r: Answer)
    ensures url == NetworkStatusUrl <==> r == NetworkStatus
    ensures url != NetworkStatusUrl && Contains(FilePathOf(url), "..") ==> r == Refused(400)
    ensures r.File? ==> r.path in fs && fs[r.path] == Readable(r.content)
                        && r.contentType == GetContentType(r.path)
    ensures r.File? ==> r.path == FilePathOf(url)
                        || (r.path == FilePathOf(url) + ".html" && FilePathOf(url) !in fs
                            && ExtName(FilePathOf(url)) == "")
    ensures r == Refused(404) <==>
      url != NetworkStatusUrl && !Contains(FilePathOf(url), "..") && FilePathOf(url) !in fs
      && (ExtName(FilePathOf(url)) != "" || FilePathOf(url) + ".html" !in fs)
    ensures r == Refused(500) <==>
      url != NetworkStatusUrl && !Contains(FilePathOf(url), "..")
      && ((FilePathOf(url) in fs && fs[FilePathOf(url)].Unreadable?)
          || (FilePathOf(url) !in fs && ExtName(FilePathOf(url)) == ""
              && FilePathOf(url) + ".html" in fs && fs[FilePathOf(url) + ".html"].Unreadable?))
  {
    var filePath := FilePathOf(url);
    if url == NetworkStatusUrl then NetworkStatus
    else if Contains(filePath, "..") then Refused(400)
    else if filePath in fs then ServeFile(filePath, fs)
    else if ExtName(filePath) == "" then ServeFile(filePath + ".html", fs)
    else Refused(404)
  }

  /** A traversal attempt is refused whatever the file system holds: no
      file is consulted. */
  lemma TraversalReadsNothing(url: string, fs1: map<string, Node>, fs2: map<string, Node>)
    requires url != NetworkStatusUrl && Contains(FilePathOf(url), "..")
    ensures HandleRequest(url, fs1) == HandleRequest(url, fs2) == Refused(400)
  {
  }

  /** The status endpoint is answered whatever the file system holds. */
  lemma NetworkStatusNeedsNoFile(fs: map<string, Node>)
    ensures HandleRequest(NetworkStatusUrl, fs) == NetworkStatus
  {
  }

  /** An existing readable file is served as it is. */
  lemma ServesExistingFile(url: string, fs: map<string, Node>)
    requires url != NetworkStatusUrl && !Contains(FilePathOf(url), "..")
    requires FilePathOf(url) in fs && fs[FilePathOf(url)].Readable?
    ensures HandleRequest(url, fs) ==
      File(FilePathOf(url), GetContentType(FilePathOf(url)), fs[FilePathOf(url)].content)
  {
  }

  /** A missing path without an extension is answered as its `.html`
      sibling would be. */
  lemma RetriesAsHtml(url: string, fs: map<string, Node>)
    requires url != NetworkStatusUrl && !Contains(FilePathOf(url), "..")
    requires FilePathOf(url) !in fs && ExtName(FilePathOf(url)) == ""
    ensures HandleRequest(url, fs) == ServeFile(FilePathOf(url) + ".html", fs)
  {
  }

  lemma IndexPathFacts()
    ensures FilePathOf("/") == "./index.html"
    ensures !Contains("./index.html", "..")
    ensures GetContentType("./index.html") == "text/html"
  {
    NoDotDot("./index.html");
    IndexIsHtml();
  }

  /** `/` serves `./index.html` as HTML. */
  lemma RootServesIndex(fs: map<string, Node>, page: Bytes)
    requires "./index.html" in fs && fs["./index.html"] == Readable(page)
    ensures HandleRequest("/", fs) == File("./index.html", "text/html", page)
  {
    IndexPathFacts();
    ServesExistingFile("/", fs);
  }

  lemma AboutPathFacts()
    ensures FilePathOf("/about") == "./about"
    ensures !Contains("./about", "..")
    ensures ExtName("./about") == ""
    ensures "./about" + ".html" == "./about.html"
    ensures GetContentType("./about.html") == "text/html"
  {
    var p := "./about";
    assert "." + "/about" == p;
    assert p + ".html" == "./about.html";
    NoDotDot(p);
    assert ExtName(p) == "" by {
      assert p == "./" + "about";
      ExtNameOfPlainName("./", "about");
    }
    AboutPageIsHtml();
  }

  lemma AboutPageIsHtml()
    ensures GetContentType("./about.html") == "text/html"
  {
    assert "./about.html" == "./about" + ".html";
    ExtNameAppend("./about", ".html");
    HtmlExtension();
  }

  /** A URL without an extension is retried as an HTML page. */
  lemma ExtensionlessUrlServesHtml(fs: map<string, Node>, page: Bytes)
    requires "./about" !in fs
    requires "./about.html" in fs && fs["./about.html"] == Readable(page)
    ensures HandleRequest("/about", fs) == File("./about.html", "text/html", page)
  {
    AboutPathFacts();
    RetriesAsHtml("/about", fs);
  }

  /** A missing file that has an extension is a 404, with no retry. */
  lemma MissingFileWithExtensionIsNotFound(fs: map<string, Node>)
    requires "./logo.png" !in fs
    ensures HandleRequest("/logo.png", fs) == Refused(404)
  {
    var p := "./logo.png";
    assert FilePathOf("/logo.png") == p;
    assert !Contains(p, "..") by {
      NoDotDot(p);
    }
    assert ExtName(p) == ".png" by {
      assert p == "./logo" + ".png";
      ExtNameAppend("./logo", ".png");
    }
  }
}
