/**
 * The part of CPython 3.11's `urllib.parse` that the MVT provider relies on:
 * `urlsplit`, `urlparse` (with `;params`), `urlunparse` and `urljoin`.
 * Reference resolution follows section 5.2 of RFC 3986 as Python writes it.
 */
module Urls {
  import opened Wrappers
  import opened Strings

  /** `urllib.parse.uses_relative`: schemes whose URLs may be resolved against. */
  const UsesRelative: set<string> := {"", "ftp", "http", "gopher", "nntp", "imap", "wais", "file",
    "https", "shttp", "mms", "prospero", "rtsp", "rtspu", "sftp", "svn", "svn+ssh", "ws", "wss"}

  /** `urllib.parse.uses_netloc`: schemes whose URLs carry a `//netloc`. */
  const UsesNetloc: set<string> := {"", "ftp", "http", "gopher", "nntp", "telnet", "imap", "wais",
    "file", "mms", "https", "shttp", "snews", "prospero", "rtsp", "rtspu", "rsync", "svn",
    "svn+ssh", "sftp", "nfs", "git", "git+ssh", "ws", "wss"}

  /** `urllib.parse.uses_params`: schemes whose last path segment may carry `;params`. */
  const UsesParams: set<string> := {"", "ftp", "hdl", "prospero", "http", "imap", "https", "shttp",
    "rtsp", "rtspu", "sip", "sips", "mms", "sftp", "tel"}

  /** The six components `urlparse` returns. */
  datatype ParseResult = ParseResult(scheme: string, netloc: string, path: string,
                                     params: string, query: string, fragment: string)

  predicate IsAsciiLetter(c: char) { 'a' <= c <= 'z' || 'A' <= c <= 'Z' }

  /** `urllib.parse.scheme_chars`. */
  predicate IsSchemeChar(c: char)
  {
    IsAsciiLetter(c) || '0' <= c <= '9' || c == '+' || c == '-' || c == '.'
  }

  /** `str.lower()` on scheme characters, which are all ASCII. */
  function Lower(s: string): (r: string)
    ensures |r| == |s|
    ensures forall k :: 0 <= k < |s| ==> (if 'A' <= s[k] <= 'Z' then r[k] as int == s[k] as int + 32 else r[k] == s[k])
  {
    if |s| == 0 then ""
    else [if 'A' <= s[0] <= 'Z' then (s[0] as int + 32) as char else s[0]] + Lower(s[1..])
  }

  /** A scheme as `urlsplit` recognises it before the first colon. */
  predicate IsScheme(s: string)
  {
    |s| > 0 && IsAsciiLetter(s[0]) && forall k :: 0 <= k < |s| ==> IsSchemeChar(s[k])
  }

  /** The end of the netloc in `_splitnetloc`: the first '/', '?' or '#' at or after `start`, else `|s|`. */
  function NetlocEnd(s: string, start: nat): (r: nat)
    requires start <= |s|
    ensures start <= r <= |s|
    ensures forall k :: start <= k < r ==> s[k] !in "/?#"
    ensures r < |s| ==> s[r] in "/?#"
    decreases |s| - start
  {
    if start == |s| || s[start] in "/?#" then start else NetlocEnd(s, start + 1)
  }

  /** The scheme and the remainder after `urlsplit`'s scheme detection. */
  function SplitScheme(url: string, default: string): (r: (string, string))
    ensures |r.1| <= |url| && r.1 == url[|url| - |r.1|..]
  {
    match Find(url, ":")
    case Some(i) =>
      if i > 0 && IsScheme(url[..i]) then (Lower(url[..i]), url[i + 1..]) else (default, url)
    case None => (default, url)
  }

  /** `_splitnetloc(url, 2)` when `url` starts with `//`: the netloc and what follows it. */
  function SplitNetloc(rest: string): (r: (string, string))
  {
    if |rest| >= 2 && rest[..2] == "//" then
      var e := NetlocEnd(rest, 2); (rest[2..e], rest[e..])
    else ("", rest)
  }

  /** `urlsplit(url, default)`, returned with empty params. */
  function UrlSplit(url: string, default: string): (r: ParseResult)
    ensures r.params == ""
    ensures '#' !in r.path && '?' !in r.path
  {
    var sr := SplitScheme(url, default);
    var nr := SplitNetloc(sr.1);
    var fr := CutChar(nr.1, '#');
    var qr := CutChar(fr.0, '?');
    ParseResult(sr.0, nr.0, qr.0, "", qr.1, fr.1)
  }

  /** The index of the last occurrence of `c` in `s`, if any (`str.rfind`). */
  function LastIndex(s: string, c: char): (r: Option<nat>)
    ensures r.Some? ==> r.value < |s| && s[r.value] == c && c !in s[r.value + 1..]
    ensures r.None? ==> c !in s
  {
    if |s| == 0 then None
    else if s[|s| - 1] == c then Some(|s| - 1)
    else match LastIndex(s[..|s| - 1], c)
      case Some(i) => assert s[i + 1..] == s[..|s| - 1][i + 1..] + [s[|s| - 1]]; Some(i)
      case None => assert s == s[..|s| - 1] + [s[|s| - 1]]; None
  }

  /** `_splitparams`: cut `;params` off the last path segment (off the first `;` when there is no '/'). */
  function SplitParams(path: string): (r: (string, string))
    ensures r.0 + (if r.0 == path then "" else ";" + r.1) == path
  {
    var from := match LastIndex(path, '/') case Some(i) => i case None => 0;
    match FindFrom(path, ";", from)
    case Some(i) =>
      assert path == path[..i] + ";" + path[i + 1..] by {
        assert path[i..i + 1] == ";";
        assert path == path[..i] + path[i..i + 1] + path[i + 1..];
      }
      (path[..i], path[i + 1..])
    case None => (path, "")
  }

  /** `urlparse(url, default)`. */
  function UrlParse(url: string, default: string): (r: ParseResult)
    ensures '#' !in r.path && '?' !in r.path
  {
    var s := UrlSplit(url, default);
    if s.scheme in UsesParams && ';' in s.path then
      var (path, params) := SplitParams(s.path);
      assert path <= s.path;
      ParseResult(s.scheme, s.netloc, path, params, s.query, s.fragment)
    else s
  }

  /** `urlunsplit` after `urlunparse` has put `;params` back on the path. */
  function UrlUnparse(p: ParseResult): (r: string)
    ensures p.scheme != "" ==> |r| > |p.scheme| && r[..|p.scheme| + 1] == p.scheme + ":"
  {
    var url := if p.params != "" then p.path + ";" + p.params else p.path;
    var url :=
      if p.netloc != "" || (p.scheme != "" && p.scheme in UsesNetloc && !(|url| >= 2 && url[..2] == "//")) then
        "//" + p.netloc + (if url != "" && url[0] != '/' then "/" + url else url)
      else url;
    var url := if p.scheme != "" then p.scheme + ":" + url else url;
    var withQuery := if p.query != "" then url + "?" + p.query else url;
    PrefixKept(url, "?" + p.query, |p.scheme| + 1);
    Regroup(url, "?", p.query);
    PrefixKept(withQuery, "#" + p.fragment, |p.scheme| + 1);
    Regroup(withQuery, "#", p.fragment);
    if p.fragment != "" then withQuery + "#" + p.fragment else withQuery
  }

  /** Appending keeps a prefix. */
  lemma PrefixKept(s: string, t: string, n: nat)
    ensures n <= |s| ==> (s + t)[..n] == s[..n]
  {
  }

  /** Python's `filter(None, segs)`: the non-empty segments, in order. */
  function NonEmpty(segs: seq<string>): (r: seq<string>)
    ensures |r| <= |segs|
    ensures forall k :: 0 <= k < |r| ==> r[k] != ""
  {
    if |segs| == 0 then []
    else (if segs[0] == "" then [] else [segs[0]]) + NonEmpty(segs[1..])
  }

  /** The dot-segment loop of `urljoin`, one segment at a time onto `acc`. */
  function Resolve(segs: seq<string>, acc: seq<string>): seq<string>
  {
    if |segs| == 0 then acc
    else if segs[0] == ".." then Resolve(segs[1..], if |acc| == 0 then [] else acc[..|acc| - 1])
    else if segs[0] == "." then Resolve(segs[1..], acc)
    else Resolve(segs[1..], acc + [segs[0]])
  }

  /** `bpath.split('/')` without its last segment unless that segment is empty. */
  function BaseParts(bpath: string): seq<string>
  {
    var parts := Split(bpath, '/');
    if parts[|parts| - 1] != "" then parts[..|parts| - 1] else parts
  }

  /** `segments[1:-1] = filter(None, segments[1:-1])`: drop empty segments strictly inside. */
  function DropInnerEmpty(all: seq<string>): seq<string>
  {
    if |all| < 2 then all else [all[0]] + NonEmpty(all[1..|all| - 1]) + [all[|all| - 1]]
  }

  /** The segments `urljoin` resolves: the reference's alone when it is absolute, else merged onto the base's. */
  function MergeSegments(bpath: string, path: string): seq<string>
  {
    if |path| > 0 && path[0] == '/' then Split(path, '/')
    else DropInnerEmpty(BaseParts(bpath) + Split(path, '/'))
  }

  /** The path `urljoin` builds from the base path and a non-empty reference path. */
  function MergePaths(bpath: string, path: string): string
  {
    var segments := MergeSegments(bpath, path);
    var resolved := Resolve(segments, []);
    var resolved := if |segments| > 0 && segments[|segments| - 1] in {".", ".."} then resolved + [""] else resolved;
    var joined := Join(resolved, '/');
    if joined == "" then "/" else joined
  }

  /** `urljoin(base, url)`. */
  function UrlJoin(base: string, url: string): (r: string)
    ensures base == "" ==> r == url
    ensures base != "" && url == "" ==> r == base
  {
    if base == "" then url
    else if url == "" then base
    else
      var b := UrlParse(base, "");
      var r := UrlParse(url, b.scheme);
      if r.scheme != b.scheme || r.scheme !in UsesRelative then url
      else if r.scheme in UsesNetloc && r.netloc != "" then UrlUnparse(r)
      else
        var netloc := if r.scheme in UsesNetloc then b.netloc else r.netloc;
        if r.path == "" && r.params == "" then
          UrlUnparse(ParseResult(r.scheme, netloc, b.path, b.params,
                                 if r.query == "" then b.query else r.query, r.fragment))
        else
          UrlUnparse(ParseResult(r.scheme, netloc, MergePaths(b.path, r.path), r.params, r.query, r.fragment))
  }

  // ---------------------------------------------------------------------------
  // The `scheme://netloc/path` shape and the two reference shapes the provider
  // resolves: an absolute path and a single relative segment.

  /** A path made only of `/`-separated segments: no query, fragment or params. */
  predicate PlainPath(path: string)
  {
    '?' !in path && '#' !in path && ';' !in path
  }

  /** No segment of `path` is `.` or `..`. */
  predicate NoDotSegments(path: string)
  {
    forall k :: 0 <= k < |Split(path, '/')| ==> Split(path, '/')[k] != "." && Split(path, '/')[k] != ".."
  }

  /** `scheme://netloc` followed by `path`, with a lower-case scheme and a netloc that stops at the path. */
  predicate SimpleUrl(scheme: string, netloc: string, path: string)
  {
    && IsScheme(scheme)
    && (forall k :: 0 <= k < |scheme| ==> !('A' <= scheme[k] <= 'Z'))
    && '/' !in netloc && '?' !in netloc && '#' !in netloc
    && (path == "" || path[0] == '/')
    && PlainPath(path)
    && NoStrippedChars(netloc) && NoStrippedChars(path)
  }

  /** Free of the tab, CR and LF that `urlsplit` deletes before parsing. */
  predicate NoStrippedChars(s: string)
  {
    '\t' !in s && '\r' !in s && '\n' !in s
  }

  lemma NoStrippedJoined(a: string, b: string)
    requires NoStrippedChars(a) && NoStrippedChars(b)
    ensures NoStrippedChars(a + b)
  {
  }

  /** The first colon of `scheme://...` is the one after the scheme. */
  lemma SchemeColon(scheme: string, rest: string)
    requires IsScheme(scheme)
    ensures Find(scheme + ":" + rest, ":") == Some(|scheme|)
  {
    var url := scheme + ":" + rest;
    assert OccursAt(url, ":", |scheme|);
    forall j | 0 <= j < |scheme| ensures !OccursAt(url, ":", j) {
      assert url[j] == scheme[j] && IsSchemeChar(scheme[j]);
    }
  }

  /** `urlparse` takes `scheme://netloc/path` apart into exactly those components. */
  lemma ParseSimpleUrl(scheme: string, netloc: string, path: string, default: string)
    requires SimpleUrl(scheme, netloc, path)
    ensures UrlParse(scheme + "://" + netloc + path, default) == ParseResult(scheme, netloc, path, "", "", "")
  {
    var url := scheme + "://" + netloc + path;
    var rest := "//" + netloc + path;
    assert url == scheme + ":" + rest;
    SchemeColon(scheme, rest);
    assert url[..|scheme|] == scheme && url[|scheme| + 1..] == rest;
    LowerUnchanged(scheme);
    assert SplitScheme(url, default) == (scheme, rest);
    NetlocOfSimpleUrl(netloc, path);
    assert CutChar(path, '#') == (path, "");
    assert CutChar(path, '?') == (path, "");
    assert UrlSplit(url, default) == ParseResult(scheme, netloc, path, "", "", "");
  }

  lemma LowerUnchanged(s: string)
    requires forall k :: 0 <= k < |s| ==> !('A' <= s[k] <= 'Z')
    ensures Lower(s) == s
  {
  }

  lemma NetlocOfSimpleUrl(netloc: string, path: string)
    requires '/' !in netloc && '?' !in netloc && '#' !in netloc
    requires path == "" || path[0] == '/'
    ensures SplitNetloc("//" + netloc + path) == (netloc, path)
  {
    var rest := "//" + netloc + path;
    assert rest[..2] == "//";
    var e := NetlocEnd(rest, 2);
    assert forall k :: 2 <= k < 2 + |netloc| ==> rest[k] == netloc[k - 2];
    assert 2 + |netloc| < |rest| ==> rest[2 + |netloc|] == '/';
    assert e == 2 + |netloc|;
    assert rest[2..e] == netloc && rest[e..] == path;
  }

  /** `urlunparse` puts those components back together: the partner of `ParseSimpleUrl`. */
  lemma UnparseSimpleUrl(scheme: string, netloc: string, path: string)
    requires scheme != "" && scheme in UsesNetloc
    requires path == "" || path[0] == '/'
    requires netloc == "" ==> !(|path| >= 2 && path[..2] == "//")
    ensures UrlUnparse(ParseResult(scheme, netloc, path, "", "", "")) == scheme + "://" + netloc + path
  {
    var mid := "//" + netloc + path;
    assert UrlUnparse(ParseResult(scheme, netloc, path, "", "", "")) == scheme + ":" + mid;
    ColonSlashes(scheme, netloc, path);
  }

  lemma ColonSlashes(scheme: string, netloc: string, path: string)
    ensures scheme + ":" + ("//" + netloc + path) == scheme + "://" + netloc + path
  {
    assert ":" + "//" == "://";
    Regroup(scheme + ":", "//" + netloc, path);
    Regroup(scheme + ":", "//", netloc);
    Regroup(scheme, ":", "//");
  }

  /** The dot-segment loop leaves a path without dot segments as it is. */
  lemma {:induction false} ResolvePlain(segs: seq<string>, acc: seq<string>)
    requires forall k :: 0 <= k < |segs| ==> segs[k] != "." && segs[k] != ".."
    ensures Resolve(segs, acc) == acc + segs
  {
    if |segs| > 0 {
      ResolvePlain(segs[1..], acc + [segs[0]]);
      assert acc + [segs[0]] + segs[1..] == acc + segs;
    }
  }

  /** A reference that starts with one '/' has no scheme and no netloc of its own. */
  lemma ParseAbsolutePath(path: string, default: string)
    requires |path| >= 1 && path[0] == '/' && !(|path| >= 2 && path[1] == '/')
    requires PlainPath(path)
    ensures UrlParse(path, default) == ParseResult(default, "", path, "", "", "")
  {
    assert SplitScheme(path, default) == (default, path);
    assert CutChar(path, '#') == (path, "");
    assert CutChar(path, '?') == (path, "");
  }

  /**
   * Resolving an absolute path against `scheme://netloc/...` keeps the
   * scheme and the authority and replaces the whole path (section 5.2.2 of
   * RFC 3986, the case where the reference path starts with '/').
   */
  lemma JoinAbsolutePath(scheme: string, netloc: string, bpath: string, path: string)
    requires SimpleUrl(scheme, netloc, bpath) && scheme in UsesRelative
    requires |path| >= 1 && path[0] == '/' && !(|path| >= 2 && path[1] == '/')
    requires PlainPath(path) && NoDotSegments(path) && NoStrippedChars(path)
    ensures UrlJoin(scheme + "://" + netloc + bpath, path) == scheme + "://" + netloc + path
  {
    var base := scheme + "://" + netloc + bpath;
    ParseSimpleUrl(scheme, netloc, bpath, "");
    ParseAbsolutePath(path, scheme);
    assert scheme in UsesNetloc;
    MergeAbsolutePath(bpath, path);
    UnparseSimpleUrl(scheme, netloc, path);
    assert UrlJoin(base, path)
        == UrlUnparse(ParseResult(scheme, netloc, MergePaths(bpath, path), "", "", ""));
  }

  /** Segments without dot segments are joined as they are. */
  lemma MergePlain(bpath: string, path: string)
    requires forall k :: 0 <= k < |MergeSegments(bpath, path)| ==>
      MergeSegments(bpath, path)[k] != "." && MergeSegments(bpath, path)[k] != ".."
    requires Join(MergeSegments(bpath, path), '/') != ""
    ensures MergePaths(bpath, path) == Join(MergeSegments(bpath, path), '/')
  {
    var segs := MergeSegments(bpath, path);
    ResolvePlain(segs, []);
    assert [] + segs == segs;
  }

  /** An absolute reference path without dot segments replaces the base path unchanged. */
  lemma MergeAbsolutePath(bpath: string, path: string)
    requires |path| >= 1 && path[0] == '/'
    requires NoDotSegments(path)
    ensures MergePaths(bpath, path) == path
  {
    JoinSplit(path, '/');
    MergePlain(bpath, path);
  }

  /**
   * Merging a relative reference path with a base path, as section 5.2.3 of
   * RFC 3986 defines it when the base has an authority: everything of the
   * base path up to and including its last '/', then the reference.
   */
  function RfcMerge(bpath: string, ref: string): string
  {
    match LastIndex(bpath, '/')
    case Some(i) => bpath[..i + 1] + ref
    case None => "/" + ref
  }

  lemma {:induction false} NonEmptyKeeps(segs: seq<string>)
    requires forall k :: 0 <= k < |segs| ==> segs[k] != ""
    ensures NonEmpty(segs) == segs
  {
    if |segs| > 0 {
      NonEmptyKeeps(segs[1..]);
      assert segs == [segs[0]] + segs[1..];
    }
  }

  lemma {:induction false} NonEmptyDropsLast(segs: seq<string>)
    ensures NonEmpty(segs + [""]) == NonEmpty(segs)
  {
    if |segs| == 0 {
      assert NonEmpty([""]) == [] + NonEmpty([]);
    } else {
      NonEmptyDropsLast(segs[1..]);
      assert (segs + [""])[1..] == segs[1..] + [""];
    }
  }

  /** A reference that is a single segment with no colon is a relative path. */
  lemma ParseSegment(seg: string, default: string)
    requires seg != "" && '/' !in seg && ':' !in seg && PlainPath(seg)
    ensures UrlParse(seg, default) == ParseResult(default, "", seg, "", "", "")
  {
    assert forall j :: 0 <= j <= |seg| ==> !OccursAt(seg, ":", j) by {
      forall j | 0 <= j <= |seg| ensures !OccursAt(seg, ":", j) {
        if j < |seg| { assert seg[j] != ':'; }
      }
    }
    assert SplitScheme(seg, default) == (default, seg);
    assert SplitNetloc(seg) == ("", seg);
    assert CutChar(seg, '#') == (seg, "");
    assert CutChar(seg, '?') == (seg, "");
  }

  /**
   * For a base path without doubled '/' and without dot segments, Python's
   * merge of a single relative segment is the merge of RFC 3986.
   */
  lemma MergeRelativeSegment(bpath: string, seg: string)
    requires bpath == "" || bpath[0] == '/'
    requires NoDoubled(bpath, '/') && NoDotSegments(bpath)
    requires seg != "" && seg != "." && seg != ".." && '/' !in seg
    ensures MergePaths(bpath, seg) == RfcMerge(bpath, seg)
  {
    if bpath == "" {
      MergeIntoEmptyPath(seg);
    } else {
      MergeIntoDirectory(bpath, seg, LastIndex(bpath, '/').value);
    }
  }

  /**
   * Resolving a single relative segment against `scheme://netloc/path`
   * keeps the scheme and the authority and merges the paths as section
   * 5.2.3 of RFC 3986 does, for base paths without doubled '/' or dot segments.
   */
  lemma JoinRelativeSegment(scheme: string, netloc: string, bpath: string, seg: string)
    requires SimpleUrl(scheme, netloc, bpath) && scheme in UsesRelative
    requires NoDoubled(bpath, '/') && NoDotSegments(bpath)
    requires seg != "" && seg != "." && seg != ".." && '/' !in seg && ':' !in seg && PlainPath(seg)
    requires NoStrippedChars(seg)
    ensures UrlJoin(scheme + "://" + netloc + bpath, seg) == scheme + "://" + netloc + RfcMerge(bpath, seg)
  {
    var base := scheme + "://" + netloc + bpath;
    ParseSimpleUrl(scheme, netloc, bpath, "");
    ParseSegment(seg, scheme);
    assert scheme in UsesNetloc;
    MergeRelativeSegment(bpath, seg);
    var merged := RfcMerge(bpath, seg);
    RfcMergeShape(bpath, seg);
    NoDoubleSlashStart(merged);
    UnparseSimpleUrl(scheme, netloc, merged);
    assert UrlJoin(base, seg) == UrlUnparse(ParseResult(scheme, netloc, merged, "", "", ""));
  }

  /** The RFC 3986 merge of a non-empty segment starts with exactly one '/'. */
  lemma RfcMergeShape(bpath: string, seg: string)
    requires bpath == "" || bpath[0] == '/'
    requires NoDoubled(bpath, '/') && seg != "" && '/' !in seg
    ensures var m := RfcMerge(bpath, seg); |m| >= 2 && m[0] == '/' && m[1] != '/'
  {
    match LastIndex(bpath, '/')
    case Some(i) =>
      var m := bpath[..i + 1] + seg;
      if i == 0 {
        assert m[1] == seg[0];
      } else {
        assert m[1] == bpath[1];
      }
    case None =>
  }

  lemma NoDoubleSlashStart(p: string)
    requires |p| >= 2 && p[1] != '/'
    ensures p[..2] != "//"
  {
    assert p[..2][1] == p[1];
  }

  lemma MergeIntoEmptyPath(seg: string)
    requires seg != "" && seg != "." && seg != ".." && '/' !in seg
    ensures MergePaths("", seg) == "/" + seg
  {
    SegmentsIntoEmptyPath(seg);
    var segs := ["", seg];
    assert forall k :: 0 <= k < |segs| ==> segs[k] != "." && segs[k] != "..";
    JoinAfterEmpty(seg);
    MergePlain("", seg);
  }

  lemma SegmentsIntoEmptyPath(seg: string)
    requires seg != "" && '/' !in seg
    ensures MergeSegments("", seg) == ["", seg]
  {
    SplitNoSeparator(seg, '/');
    assert Split("", '/') == [""];
    assert BaseParts("") == [""];
    assert DropInnerEmpty(["", seg]) == ["", seg];
  }

  lemma JoinAfterEmpty(seg: string)
    ensures Join(["", seg], '/') == "/" + seg
  {
    assert Join(["", seg], '/') == "" + "/" + Join([seg], '/');
  }

  lemma MergeIntoDirectory(bpath: string, seg: string, i: nat)
    requires bpath != "" && bpath[0] == '/'
    requires NoDoubled(bpath, '/') && NoDotSegments(bpath)
    requires seg != "" && seg != "." && seg != ".." && '/' !in seg
    requires LastIndex(bpath, '/') == Some(i)
    ensures MergePaths(bpath, seg) == bpath[..i + 1] + seg
  {
    var sa := Split(bpath[..i], '/');
    SegmentsOfRelativeSegment(bpath, seg, i);
    NoDotsBeforeLastSlash(bpath, seg, i);
    JoinBeforeLastSlash(bpath, seg, i);
    MergePlain(bpath, seg);
  }

  /** Joining the pieces before the last '/' and the new segment gives the directory, then the segment. */
  lemma JoinBeforeLastSlash(bpath: string, seg: string, i: nat)
    requires i < |bpath| && bpath[i] == '/'
    ensures Join(Split(bpath[..i], '/') + [seg], '/') == bpath[..i + 1] + seg
  {
    JoinAppend(Split(bpath[..i], '/'), seg, '/');
    JoinSplit(bpath[..i], '/');
    assert bpath[..i + 1] == bpath[..i] + "/";
  }

  lemma NoDotsBeforeLastSlash(bpath: string, seg: string, i: nat)
    requires bpath != "" && bpath[0] == '/'
    requires NoDoubled(bpath, '/') && NoDotSegments(bpath)
    requires seg != "." && seg != ".."
    requires LastIndex(bpath, '/') == Some(i)
    ensures forall k :: 0 <= k < |Split(bpath[..i], '/') + [seg]| ==>
      (Split(bpath[..i], '/') + [seg])[k] != "." && (Split(bpath[..i], '/') + [seg])[k] != ".."
  {
    var sa := Split(bpath[..i], '/');
    SplitAtLastSlash(bpath, i);
    var segments := sa + [seg];
    forall k | 0 <= k < |segments| ensures segments[k] != "." && segments[k] != ".." {
      if k < |sa| { assert segments[k] == Split(bpath, '/')[k]; }
    }
  }

  /** Splitting a base path at its last '/': the pieces before it, then the last segment. */
  lemma SplitAtLastSlash(bpath: string, i: nat)
    requires bpath != "" && bpath[0] == '/' && NoDoubled(bpath, '/')
    requires LastIndex(bpath, '/') == Some(i)
    ensures Split(bpath, '/') == Split(bpath[..i], '/') + [bpath[i + 1..]]
    ensures Split(bpath[..i], '/')[0] == ""
    ensures forall k :: 1 <= k < |Split(bpath[..i], '/')| ==> Split(bpath[..i], '/')[k] != ""
  {
    var a, b := bpath[..i], bpath[i + 1..];
    assert bpath == a + ['/'] + b;
    SplitNoSeparator(b, '/');
    SplitAppend(a, b, '/');
    assert a == "" || a[|a| - 1] != '/' by {
      if a != "" { assert bpath[i - 1] == a[|a| - 1]; }
    }
    assert NoDoubled(a, '/') by {
      forall k | 0 <= k < |a| - 1 ensures !(a[k] == '/' && a[k + 1] == '/') {
        assert a[k] == bpath[k] && a[k + 1] == bpath[k + 1];
      }
    }
    SplitPiecesNonEmpty(a, '/');
    if a != "" {
      assert a[0] == '/';
      assert Split(a, '/') == [""] + Split(a[1..], '/');
    }
  }

  /** The segments merged for a single relative segment: the base's up to its last '/', then the segment. */
  lemma SegmentsOfRelativeSegment(bpath: string, seg: string, i: nat)
    requires bpath != "" && bpath[0] == '/' && NoDoubled(bpath, '/')
    requires seg != "" && '/' !in seg
    requires LastIndex(bpath, '/') == Some(i)
    ensures MergeSegments(bpath, seg) == Split(bpath[..i], '/') + [seg]
  {
    var sa, b := Split(bpath[..i], '/'), bpath[i + 1..];
    SplitAtLastSlash(bpath, i);
    SplitNoSeparator(seg, '/');
    assert MergeSegments(bpath, seg) == DropInnerEmpty(BaseParts(bpath) + [seg]);
    if b != "" {
      assert BaseParts(bpath) == sa;
      DropInnerKeeps(sa, seg);
    } else {
      assert BaseParts(bpath) == sa + [""];
      DropInnerDropsLast(sa, seg);
    }
  }

  /** Appending a segment to pieces whose inner ones are non-empty drops nothing. */
  lemma DropInnerKeeps(sa: seq<string>, seg: string)
    requires |sa| >= 1 && forall k :: 1 <= k < |sa| ==> sa[k] != ""
    ensures DropInnerEmpty(sa + [seg]) == sa + [seg]
  {
    var all := sa + [seg];
    assert all[1..|all| - 1] == sa[1..];
    NonEmptyKeeps(sa[1..]);
    assert all == [sa[0]] + sa[1..] + [seg];
  }

  /** The same with an empty piece before the segment: that piece is dropped. */
  lemma DropInnerDropsLast(sa: seq<string>, seg: string)
    requires |sa| >= 1 && forall k :: 1 <= k < |sa| ==> sa[k] != ""
    ensures DropInnerEmpty(sa + [""] + [seg]) == sa + [seg]
  {
    var all := sa + [""] + [seg];
    assert all[1..|all| - 1] == sa[1..] + [""];
    NonEmptyDropsLast(sa[1..]);
    NonEmptyKeeps(sa[1..]);
    assert sa + [seg] == [sa[0]] + sa[1..] + [seg];
  }

  /** A single segment other than `.` and `..` has no dot segment. */
  lemma NoDotsInSegment(x: string)
    requires '/' !in x && x != "." && x != ".."
    ensures NoDotSegments(x)
  {
    SplitNoSeparator(x, '/');
  }

  /** Joining two paths without dot segments at a '/' gives a path without dot segments. */
  lemma NoDotsJoined(a: string, b: string)
    requires NoDotSegments(a) && NoDotSegments(b)
    ensures NoDotSegments(a + "/" + b)
  {
    SplitAppend(a, b, '/');
    assert a + "/" + b == a + ['/'] + b;
  }
}
