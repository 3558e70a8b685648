/**
 * The path and content-type decision of the static file server in server.js:
 * a request URL becomes a file path under the current directory, the root
 * becomes the index page, and the lower-cased extension of the path is looked
 * up in a fixed table of MIME types. Reading the file is not modelled.
 */
module StaticFiles {
  import opened Wrappers

  const IndexPath: string := "./index.html"
  const DefaultType: string := "application/octet-stream"

  /** The extension table of server.js; every value is a non-empty string. */
  const MimeTypes: map<string, string> := map[
    ".html" := "text/html",
    ".js" := "text/javascript",
    ".css" := "text/css",
    ".json" := "application/json",
    ".png" := "image/png",
    ".jpg" := "image/jpg",
    ".gif" := "image/gif",
    ".wav" := "audio/wav",
    ".mp4" := "video/mp4",
    ".woff" := "application/font-woff",
    ".ttf" := "application/font-ttf",
    ".eot" := "application/vnd.ms-fontobject",
    ".otf" := "application/font-otf",
    ".svg" := "application/image/svg+xml"
  ]

  /** The file a request URL is served from: the URL below the current directory, the root as the index page. */
  function ResolvePath(url: string): (p: string)
    ensures url == "/" ==> p == IndexPath
    ensures url != "/" ==> p == "." + url
  {
    var filePath := "." + url;
    assert url == filePath[1..];
    if filePath == "./" then
      assert url == "/";
      IndexPath
    else
      filePath
  }

  /** The path with all trailing '/' removed. */
  function TrimTrailingSlashes(s: string): (r: string)
    ensures |r| <= |s| && r == s[..|r|]
    ensures r == [] || r[|r| - 1] != '/'
  {
    if s != [] && s[|s| - 1] == '/' then TrimTrailingSlashes(s[..|s| - 1]) else s
  }

  /** The last path segment: everything after the last '/'. */
  function LastSegment(s: string): (r: string)
    ensures |r| <= |s| && r == s[|s| - |r|..]
    ensures '/' !in r
  {
    if s == [] || s[|s| - 1] == '/' then [] else LastSegment(s[..|s| - 1]) + [s[|s| - 1]]
  }

  /** The index of the last '.' of s, if s has one. */
  function LastDot(s: string): (r: Option<nat>)
    ensures r.None? <==> '.' !in s
    ensures r.Some? ==> r.value < |s| && s[r.value] == '.' && '.' !in s[r.value + 1..]
  {
    if s == [] then None
    else if s[|s| - 1] == '.' then Some(|s| - 1)
    else LastDot(s[..|s| - 1])
  }

  /**
   * Node's posix `path.extname`: the part of the last segment (trailing '/'
   * ignored) from its last '.' on; empty when the segment has no '.', when
   * its only leading '.' is that last one (a dot file), or when it is "..".
   */
  function ExtName(path: string): (ext: string)
    ensures ext == [] || (ext[0] == '.' && '.' !in ext[1..] && '/' !in ext)
    ensures IsSuffix(ext, TrimTrailingSlashes(path))
  {
    var t := TrimTrailingSlashes(path);
    var base := LastSegment(t);
    match LastDot(base)
    case None => ""
    case Some(d) =>
      if d == 0 || IsDotDot(base) then ""
      else
        SuffixOfSuffix(base[d..], base, t);
        base[d..]
  }

  /** The segment "..", which names the parent directory and has no extension. */
  predicate IsDotDot(s: string)
  {
    |s| == 2 && s[0] == '.' && s[1] == '.'
  }

  predicate IsSuffix(a: string, b: string)
  {
    |a| <= |b| && b[|b| - |a|..] == a
  }

  lemma SuffixOfSuffix(a: string, b: string, c: string)
    requires IsSuffix(a, b) && IsSuffix(b, c)
    ensures IsSuffix(a, c)
  {
    assert c[|c| - |a|..] == c[|c| - |b|..][|b| - |a|..];
  }

  /** ASCII upper-case letters to lower case; every other character is kept. */
  function LowerChar(c: char): (l: char)
    ensures 'A' <= c <= 'Z' ==> l as int == c as int + 32
    ensures !('A' <= c <= 'Z') ==> l == c
  {
    if 'A' <= c <= 'Z' then (c as int + 32) as char else c
  }

  function AsciiLower(s: string): (r: string)
    ensures |r| == |s| && forall i :: 0 <= i < |s| ==> r[i] == LowerChar(s[i])
  {
    if s == [] then [] else [LowerChar(s[0])] + AsciiLower(s[1..])
  }

  /** The table entry for an extension, or the default when the table has none. */
  function TypeOfExtension(ext: string): (t: string)
    ensures ext in MimeTypes ==> t == MimeTypes[ext]
    ensures ext !in MimeTypes ==> t == DefaultType
    ensures t != ""
  {
    if ext in MimeTypes then MimeTypes[ext] else DefaultType
  }

  /**
   * The Content-Type header sent with a successfully read file for a request
   * URL: the table's type for a known extension, the default otherwise.
   */
  function ContentType(url: string): (t: string)
    ensures t == DefaultType || t in MimeTypes.Values
    ensures t != ""
  {
    TypeOfExtension(AsciiLower(ExtName(ResolvePath(url))))
  }

  lemma {:induction false} LastSegmentAfterSlash(dir: string, name: string)
    requires '/' !in name
    ensures LastSegment(dir + "/" + name) == name
    decreases |name|
  {
    var s := dir + "/" + name;
    if name == [] {
      assert s[|s| - 1] == '/';
    } else {
      var init := name[..|name| - 1];
      assert s[..|s| - 1] == dir + "/" + init;
      assert '/' !in init by {
        forall k | 0 <= k < |init| ensures init[k] != '/' { assert init[k] == name[k]; }
      }
      LastSegmentAfterSlash(dir, init);
      assert init + [name[|name| - 1]] == name;
    }
  }

  lemma {:induction false} LastDotAfterStem(stem: string, ext: string)
    requires '.' !in ext
    ensures LastDot(stem + "." + ext) == Some(|stem|)
    decreases |ext|
  {
    var s := stem + "." + ext;
    if ext == [] {
      assert s[|s| - 1] == '.';
    } else {
      var init := ext[..|ext| - 1];
      assert s[..|s| - 1] == stem + "." + init;
      assert s[|s| - 1] == ext[|ext| - 1];
      assert '.' !in init by {
        forall k | 0 <= k < |init| ensures init[k] != '.' { assert init[k] == ext[k]; }
      }
      LastDotAfterStem(stem, init);
    }
  }

  /**
   * A file name made of a non-empty stem and an extension without '.', in any
   * directory, has exactly that extension: the stem may itself hold dots
   * (`jquery.min.js`), and an empty extension leaves just the dot (`a.`).
   */
  lemma ExtNameOfFile(dir: string, stem: string, ext: string)
    requires stem != [] && '/' !in stem
    requires '/' !in ext && '.' !in ext
    requires stem + "." + ext != ".."
    ensures ExtName(dir + "/" + (stem + "." + ext)) == "." + ext
  {
    var name := stem + "." + ext;
    FileNameFacts(stem, ext);
    SegmentOfPath(dir, name);
    ExtNameFromSegment(dir + "/" + name, name, |stem|);
  }

  /** ExtNameOfFile, for a path and an extension given as values. */
  lemma ExtNameOfFileIs(path: string, dir: string, stem: string, ext: string, e: string)
    requires path == dir + "/" + (stem + "." + ext) && e == "." + ext
    requires stem != [] && '/' !in stem
    requires '/' !in ext && '.' !in ext
    requires stem + "." + ext != ".."
    ensures ExtName(path) == e
  {
    ExtNameOfFile(dir, stem, ext);
  }

  lemma FileNameFacts(stem: string, ext: string)
    requires stem != [] && '/' !in stem
    requires '/' !in ext && '.' !in ext
    requires stem + "." + ext != ".."
    ensures var name := stem + "." + ext;
      && '/' !in name && name != []
      && LastDot(name) == Some(|stem|) && !IsDotDot(name)
      && name[|stem|..] == "." + ext
  {
    var name := stem + "." + ext;
    forall k | 0 <= k < |name| ensures name[k] != '/' {
      if k < |stem| { assert name[k] == stem[k]; }
      else if k > |stem| { assert name[k] == ext[k - |stem| - 1]; }
    }
    LastDotAfterStem(stem, ext);
    DotDotIs(name);
  }

  /** The only segment that IsDotDot holds of is "..". */
  lemma DotDotIs(s: string)
    ensures IsDotDot(s) ==> s == ".."
  {
  }

  /** A segment without any '.' has no extension. */
  lemma NoDotNoExtension(dir: string, name: string)
    requires name != [] && '/' !in name && '.' !in name
    ensures ExtName(dir + "/" + name) == ""
  {
    SegmentOfPath(dir, name);
  }

  /** A dot file, whose only '.' is its first character, has no extension. */
  lemma DotFileHasNoExtension(dir: string, name: string)
    requires name != [] && '/' !in name && name[0] == '.' && '.' !in name[1..]
    ensures ExtName(dir + "/" + name) == ""
  {
    SegmentOfPath(dir, name);
    forall k | 1 <= k < |name| ensures name[k] != '.' {
      assert name[k] == name[1..][k - 1];
    }
    assert LastDot(name) == Some(0);
  }

  /** The parent-directory segment ".." has no extension. */
  lemma ParentDirHasNoExtension(dir: string, name: string)
    requires name == ".."
    ensures ExtName(dir + "/" + name) == ""
  {
    SegmentOfPath(dir, name);
    assert IsDotDot(name);
  }

  /** Trailing slashes are ignored: `a/b.js/` has the extension of `a/b.js`. */
  lemma TrailingSlashIgnored(path: string)
    ensures ExtName(path + "/") == ExtName(path)
  {
    var s := path + "/";
    assert s[..|s| - 1] == path;
  }

  lemma SegmentOfPath(dir: string, name: string)
    requires name != [] && '/' !in name
    ensures LastSegment(TrimTrailingSlashes(dir + "/" + name)) == name
  {
    var path := dir + "/" + name;
    assert path[|path| - 1] == name[|name| - 1];
    TrimNoTrailingSlash(path);
    LastSegmentAfterSlash(dir, name);
  }

  lemma ExtNameFromSegment(path: string, name: string, d: nat)
    requires LastSegment(TrimTrailingSlashes(path)) == name
    requires LastDot(name) == Some(d) && d != 0 && !IsDotDot(name)
    ensures ExtName(path) == name[d..]
  {
  }

  lemma TrimNoTrailingSlash(s: string)
    requires s != [] && s[|s| - 1] != '/'
    ensures TrimTrailingSlashes(s) == s
  {
  }


  /** The root URL is served as the index page with type text/html. */
  lemma RootIsHtml(url: string)
    requires url == "/"
    ensures ResolvePath(url) == IndexPath
    ensures ContentType(url) == "text/html"
  {
    LoweredType(".html", ".html", "text/html");
    RootExtension(url);
  }

  lemma RootExtension(url: string)
    requires url == "/"
    ensures ExtName(ResolvePath(url)) == ".html"
  {
    ExtNameOfFileIs(ResolvePath(url), ".", "index", "html", ".html");
  }

  /**
   * The type looked up for an extension is the type of its lower-cased form,
   * given here character by character.
   */
  lemma LoweredType(ext: string, lowered: string, t: string)
    requires |lowered| == |ext| && forall i :: 0 <= i < |ext| ==> lowered[i] == LowerChar(ext[i])
    requires t == TypeOfExtension(lowered)
    ensures TypeOfExtension(AsciiLower(ext)) == t
  {
    assert AsciiLower(ext) == lowered;
  }

  /** An extension that is in the table after lower-casing yields the table's type. */
  lemma KnownExtensionType(url: string)
    requires AsciiLower(ExtName(ResolvePath(url))) in MimeTypes
    ensures ContentType(url) == MimeTypes[AsciiLower(ExtName(ResolvePath(url)))]
  {
  }

  /** An extension that is not in the table, or no extension at all, yields the default type. */
  lemma UnknownExtensionIsOctetStream(url: string)
    requires AsciiLower(ExtName(ResolvePath(url))) !in MimeTypes
    ensures ContentType(url) == DefaultType
  {
  }

  /** Upper-case extensions are found in the table: the lookup is on the lower-cased extension. */
  lemma UpperCaseExtension(url: string)
    requires url == "/img/Logo.PNG"
    ensures ContentType(url) == "image/png"
  {
    LoweredType(".PNG", ".png", "image/png");
    UpperCaseExtensionName(url);
  }

  lemma UpperCaseExtensionName(url: string)
    requires url == "/img/Logo.PNG"
    ensures ExtName(ResolvePath(url)) == ".PNG"
  {
    ExtNameOfFileIs(ResolvePath(url), "./img", "Logo", "PNG", ".PNG");
  }

  /** A minified script keeps only its last extension: `/js/jquery.min.js` is JavaScript. */
  lemma MinifiedScriptIsJavaScript(url: string)
    requires url == "/js/jquery.min.js"
    ensures ContentType(url) == "text/javascript"
  {
    LoweredType(".js", ".js", "text/javascript");
    MinifiedScriptExtension(url);
  }

  lemma MinifiedScriptExtension(url: string)
    requires url == "/js/jquery.min.js"
    ensures ExtName(ResolvePath(url)) == ".js"
  {
    ExtNameOfFileIs(ResolvePath(url), "./js", "jquery.min", "js", ".js");
  }

  /**
   * The query string is part of the path, so the Content-Type computed for a
   * versioned asset is the default type. Reading that path fails, so the
   * request itself gets the 404 page.
   */
  lemma QueryStringHidesExtension(url: string)
    requires url == "/js/Option.js?v=2"
    ensures ContentType(url) == DefaultType
  {
    LoweredType(".js?v=2", ".js?v=2", DefaultType);
    QueryExtension(url);
  }

  lemma QueryExtension(url: string)
    requires url == "/js/Option.js?v=2"
    ensures ExtName(ResolvePath(url)) == ".js?v=2"
  {
    ExtNameOfFileIs(ResolvePath(url), "./js", "Option", "js?v=2", ".js?v=2");
  }
}
