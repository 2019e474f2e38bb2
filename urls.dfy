/**
 * The URL toolkit the HTTP client calls: `urlparse`, `urlunparse` and `urljoin` of Python's
 * `urllib.parse`, as current CPython implements them. A URL is split into the components of
 * section 3 of RFC 3986 (scheme, authority or "netloc", path, query, fragment), with `;params`
 * split off the last path segment as `urlparse` does. `None` stands for the `ValueError` the
 * parser raises on a malformed authority.
 */
module Urls {
  import opened Wrappers
  import opened Text

  datatype Url = Url(scheme: string, netloc: string, path: string, params: string, query: string, fragment: string)

  /** Schemes for which `urljoin` resolves a relative reference (`uses_relative`). */
  const UsesRelative: set<string> := {"", "ftp", "http", "gopher", "nntp", "imap", "wais", "file", "https",
    "shttp", "mms", "prospero", "rtsp", "rtsps", "rtspu", "sftp", "svn", "svn+ssh", "ws", "wss"}

  /** Schemes that carry an authority (`uses_netloc`). */
  const UsesNetloc: set<string> := {"", "ftp", "http", "gopher", "nntp", "telnet", "imap", "wais", "file",
    "mms", "https", "shttp", "snews", "prospero", "rtsp", "rtsps", "rtspu", "rsync", "svn", "svn+ssh", "sftp",
    "nfs", "git", "git+ssh", "ws", "wss", "itms-services"}

  /** Schemes whose last path segment may carry `;params` (`uses_params`). */
  const UsesParams: set<string> := {"", "ftp", "hdl", "prospero", "http", "imap", "https", "shttp", "rtsp",
    "rtsps", "rtspu", "sip", "sips", "mms", "sftp", "tel"}

  /** Characters the parser deletes wherever they occur. */
  const Unsafe: set<char> := {'\t', '\r', '\n'}

  /** Characters that end the authority. */
  const NetlocEnd: set<char> := {'/', '?', '#'}

  predicate IsSchemeChar(c: char) {
    IsAsciiAlpha(c) || IsAsciiDigit(c) || c == '+' || c == '-' || c == '.'
  }

  /** A scheme as the parser returns it: a letter, then scheme characters, all lower-case. */
  predicate ValidScheme(s: string) {
    |s| > 0 && IsAsciiAlpha(s[0]) && forall i :: 0 <= i < |s| ==> IsSchemeChar(s[i]) && !IsAsciiUpper(s[i])
  }

  /** Input cleaning: leading C0 controls and spaces are dropped, then every tab, CR and LF. */
  function Sanitize(url: string): (s: string)
    ensures Avoids(s, Unsafe)
  {
    WithoutAvoids(LStripControls(url), Unsafe);
    Without(LStripControls(url), Unsafe)
  }

  /** The text before the first `:` is a scheme: non-empty, starting with a letter, scheme characters only. */
  predicate HasScheme(url: string) {
    var i := IndexOf(url, ':');
    0 < i < |url| && IsAsciiAlpha(url[0]) && forall k :: 0 <= k < i ==> IsSchemeChar(url[k])
  }

  /** The scheme (lower-cased, or `default` when there is none) and the rest of the URL. */
  function SplitScheme(url: string, default: string): (string, string) {
    if HasScheme(url) then
      var i := IndexOf(url, ':');
      (Lower(url[..i]), url[i + 1..])
    else
      (default, url)
  }

  /** For a URL starting with `//`: the authority up to the first `/`, `?` or `#`, and the rest. */
  function SplitNetloc(url: string): (string, string)
    requires StartsWith(url, "//")
  {
    var d := 2 + IndexOfAny(url[2..], NetlocEnd);
    (url[2..d], url[d..])
  }

  /**
   * The structural checks the parser makes on an authority with brackets: brackets come in pairs,
   * the `[` opens the host part, and only a `:port` may follow the `]`.
   */
  predicate NetlocOk(netloc: string) {
    && (('[' in netloc) <==> (']' in netloc))
    && ('[' in netloc ==>
          var hostPort := AfterLast(netloc, '@');
          var j := IndexOf(hostPort, '[');
          j < |hostPort| ==>
            var port := SplitAt(hostPort[j + 1..], ']').1;
            j == 0 && (port == "" || port[0] == ':'))
  }

  /** `;params` of the last path segment, split off the path. */
  function SplitParams(path: string): (string, string) {
    var slash := LastIndexOf(path, '/');
    var start := if slash < 0 then 0 else slash;
    var i := start + IndexOf(path[start..], ';');
    if i < |path| then (path[..i], path[i + 1..]) else (path, "")
  }

  /** The authority, when the URL (after its scheme) starts with `//`, and what follows it. */
  function SplitAuthority(rest: string): (string, string) {
    if StartsWith(rest, "//") then SplitNetloc(rest) else ("", rest)
  }

  /** The path, and the `;params` of its last segment when the scheme has them. */
  function PathParams(scheme: string, path: string): (string, string) {
    if scheme in UsesParams && ';' in path then SplitParams(path) else (path, "")
  }

  /** Path, params, query and fragment of what follows the authority. */
  function SplitTail(scheme: string, afterNetloc: string): (string, string, string, string) {
    var beforeFragment := SplitAt(afterNetloc, '#');
    var beforeQuery := SplitAt(beforeFragment.0, '?');
    var pathParams := PathParams(scheme, beforeQuery.0);
    (pathParams.0, pathParams.1, beforeQuery.1, beforeFragment.1)
  }

  /** `urlparse(url, defaultScheme)`; `None` when the parser raises `ValueError`. */
  function Parse(url: string, defaultScheme: string): Option<Url> {
    var schemeRest := SplitScheme(Sanitize(url), defaultScheme);
    var authority := SplitAuthority(schemeRest.1);
    if !NetlocOk(authority.0) then None
    else
      var tail := SplitTail(schemeRest.0, authority.1);
      Some(Url(schemeRest.0, authority.0, tail.0, tail.1, tail.2, tail.3))
  }

  /** The path with its `;params` put back. */
  function WithParams(path: string, params: string): string {
    if params != "" then path + ";" + params else path
  }

  /** The authority and path part of `urlunsplit`, for a given scheme. */
  function HierPart(scheme: string, netloc: string, url: string): string {
    if netloc != "" then "//" + netloc + (if url != "" && url[0] != '/' then "/" + url else url)
    else if StartsWith(url, "//") then "//" + url
    else if scheme != "" && scheme in UsesNetloc && (url == "" || url[0] == '/') then "//" + url
    else url
  }

  /** `urlunparse`: the components put back together; empty components are omitted. */
  function Unparse(u: Url): string {
    var hier := HierPart(u.scheme, u.netloc, WithParams(u.path, u.params));
    var withScheme := if u.scheme != "" then u.scheme + ":" + hier else hier;
    var withQuery := if u.query != "" then withScheme + "?" + u.query else withScheme;
    if u.fragment != "" then withQuery + "#" + u.fragment else withQuery
  }

  /**
   * The `hostname` attribute of a parse result: the host of the authority without user
   * information and port (the text inside brackets for an IP literal), lower-cased before any
   * `%zone`; `None` when it is empty.
   */
  function Hostname(netloc: string): Option<string> {
    var hostInfo := AfterLast(netloc, '@');
    var j := IndexOf(hostInfo, '[');
    var host := if j < |hostInfo| then Before(hostInfo[j + 1..], ']') else Before(hostInfo, ':');
    if host == "" then None
    else
      var k := IndexOf(host, '%');
      Some(Lower(host[..k]) + host[k..])
  }

  /** `parts` without its empty strings (`filter(None, parts)`). */
  function NonEmpty(parts: seq<string>): seq<string> {
    if parts == [] then []
    else (if parts[0] == "" then [] else [parts[0]]) + NonEmpty(parts[1..])
  }

  /** The base path's directory segments: its last segment is dropped unless the path ends in `/`. */
  function DirParts(basePath: string): seq<string> {
    var parts := Split(basePath, '/');
    if parts[|parts| - 1] != "" then parts[..|parts| - 1] else parts
  }

  /** The segments `urljoin` resolves: an absolute path alone, or the base directory followed by a relative path. */
  function Segments(basePath: string, path: string): (segs: seq<string>)
    ensures |segs| >= 1
  {
    if StartsWith(path, "/") then Split(path, '/')
    else
      var all := DirParts(basePath) + Split(path, '/');
      if |all| < 2 then all else [all[0]] + NonEmpty(all[1..|all| - 1]) + [all[|all| - 1]]
  }

  /** Dot-segment removal: `..` drops the last kept segment, `.` is skipped. */
  function RemoveDots(segs: seq<string>, kept: seq<string>): seq<string> {
    if segs == [] then kept
    else if segs[0] == ".." then RemoveDots(segs[1..], if kept == [] then [] else kept[..|kept| - 1])
    else if segs[0] == "." then RemoveDots(segs[1..], kept)
    else RemoveDots(segs[1..], kept + [segs[0]])
  }

  /** The path `urljoin` gives a reference with a non-empty path, resolved against `basePath`. */
  function MergePath(basePath: string, path: string): string {
    var segs := Segments(basePath, path);
    var last := segs[|segs| - 1];
    var resolved := RemoveDots(segs, []) + (if last == "." || last == ".." then [""] else []);
    var joined := JoinWith(resolved, '/');
    if joined == "" then "/" else joined
  }

  /**
   * The components of a reference without an authority resolved against the base: the base's
   * authority, and the base's path and query when the reference has no path of its own.
   */
  function Resolve(b: Url, u: Url): Url {
    var netloc := if u.scheme in UsesNetloc then b.netloc else u.netloc;
    if u.path == "" && u.params == "" then
      Url(u.scheme, netloc, b.path, b.params, if u.query != "" then u.query else b.query, u.fragment)
    else
      Url(u.scheme, netloc, MergePath(b.path, u.path), u.params, u.query, u.fragment)
  }

  /** `urljoin(base, url)`: `url` resolved as a reference relative to `base`. */
  function Join(base: string, url: string): Option<string> {
    if base == "" then Some(url)
    else if url == "" then Some(base)
    else
      match Parse(base, "")
      case None => None
      case Some(b) =>
        match Parse(url, b.scheme)
        case None => None
        case Some(u) =>
          if u.scheme != b.scheme || u.scheme !in UsesRelative then Some(url)
          else if u.scheme in UsesNetloc && u.netloc != "" then Some(Unparse(u))
          else Some(Unparse(Resolve(b, u)))
  }

  /** What the parser guarantees of the components it returns, apart from the scheme. */
  predicate WellFormed(u: Url) {
    && Avoids(u.netloc, Unsafe + NetlocEnd) && NetlocOk(u.netloc)
    && Avoids(u.path, Unsafe + {'?', '#'}) && Avoids(u.params, Unsafe + {'?', '#'})
    && Avoids(u.query, Unsafe + {'#'}) && Avoids(u.fragment, Unsafe)
  }

  lemma LowerScheme(s: string)
    requires |s| > 0 && IsAsciiAlpha(s[0]) && forall k :: 0 <= k < |s| ==> IsSchemeChar(s[k])
    ensures ValidScheme(Lower(s))
  {
  }

  lemma SplitAtParts(s: string, c: char, cs: set<char>)
    requires Avoids(s, cs)
    ensures c !in SplitAt(s, c).0
    ensures Avoids(SplitAt(s, c).0, cs) && Avoids(SplitAt(s, c).1, cs)
  {
    var i := IndexOf(s, c);
    AvoidsBeforeFirst(s, {c});
    if i < |s| {
      AvoidsSlice(s, 0, i, cs);
      AvoidsSlice(s, i + 1, |s|, cs);
    }
  }

  lemma SplitSchemeParts(s: string, defaultScheme: string)
    requires Avoids(s, Unsafe)
    ensures Avoids(SplitScheme(s, defaultScheme).1, Unsafe)
    ensures HasScheme(s) ==> ValidScheme(SplitScheme(s, defaultScheme).0)
    ensures !HasScheme(s) ==> SplitScheme(s, defaultScheme).0 == defaultScheme
  {
    if HasScheme(s) {
      var i := IndexOf(s, ':');
      LowerScheme(s[..i]);
      AvoidsSlice(s, i + 1, |s|, Unsafe);
    }
  }

  lemma SplitAuthorityParts(rest: string)
    requires Avoids(rest, Unsafe)
    ensures Avoids(SplitAuthority(rest).0, Unsafe + NetlocEnd)
    ensures Avoids(SplitAuthority(rest).1, Unsafe)
  {
    if StartsWith(rest, "//") {
      var d := 2 + IndexOfAny(rest[2..], NetlocEnd);
      AvoidsBeforeFirst(rest[2..], NetlocEnd);
      assert rest[2..][..d - 2] == rest[2..d];
      AvoidsSlice(rest, 2, d, Unsafe);
      AvoidsSlice(rest, d, |rest|, Unsafe);
    }
  }

  lemma SplitTailParts(scheme: string, afterNetloc: string)
    requires Avoids(afterNetloc, Unsafe)
    ensures var t := SplitTail(scheme, afterNetloc);
      && Avoids(t.0, Unsafe + {'?', '#'}) && Avoids(t.1, Unsafe + {'?', '#'})
      && Avoids(t.2, Unsafe + {'#'}) && Avoids(t.3, Unsafe)
  {
    var beforeFragment := SplitAt(afterNetloc, '#');
    SplitAtParts(afterNetloc, '#', Unsafe);
    SplitAtParts(beforeFragment.0, '?', Unsafe + {'#'});
    var path := SplitAt(beforeFragment.0, '?').0;
    assert Avoids(path, Unsafe + {'?', '#'});
    if scheme in UsesParams && ';' in path {
      var slash := LastIndexOf(path, '/');
      var start := if slash < 0 then 0 else slash;
      var i := start + IndexOf(path[start..], ';');
      if i < |path| {
        AvoidsSlice(path, 0, i, Unsafe + {'?', '#'});
        AvoidsSlice(path, i + 1, |path|, Unsafe + {'?', '#'});
      }
    }
  }

  /** Every component the parser returns is free of the characters that delimit it. */
  lemma ParseWellFormed(url: string, defaultScheme: string)
    requires Parse(url, defaultScheme).Some?
    ensures WellFormed(Parse(url, defaultScheme).value)
    ensures var u := Parse(url, defaultScheme).value;
      ValidScheme(u.scheme) || u.scheme == defaultScheme
  {
    var s := Sanitize(url);
    SplitSchemeParts(s, defaultScheme);
    var schemeRest := SplitScheme(s, defaultScheme);
    SplitAuthorityParts(schemeRest.1);
    SplitTailParts(schemeRest.0, SplitAuthority(schemeRest.1).1);
  }

  /** The path text `urlunsplit` writes after an authority: a relative path gets a leading `/`. */
  function PathPart(netloc: string, url: string): string {
    if netloc != "" && url != "" && url[0] != '/' then "/" + url else url
  }

  /** Reading back the authority of a printed URL finds the authority that was printed. */
  lemma AuthorityOfHierPart(scheme: string, netloc: string, url: string, tail: string)
    requires Avoids(netloc, NetlocEnd)
    requires tail == "" || tail[0] == '?' || tail[0] == '#'
    ensures SplitAuthority(HierPart(scheme, netloc, url) + tail) == (netloc, PathPart(netloc, url) + tail)
  {
    var p := PathPart(netloc, url);
    if netloc != "" {
      assert HierPart(scheme, netloc, url) == "//" + netloc + p;
      AuthorityPrinted(netloc, p, tail);
    } else if StartsWith(url, "//") || (scheme != "" && scheme in UsesNetloc && (url == "" || url[0] == '/')) {
      assert HierPart(scheme, netloc, url) == "//" + url;
      AuthorityPrinted("", url, tail);
      assert "//" + "" + url == "//" + url;
    } else {
      assert HierPart(scheme, netloc, url) == url;
      NoAuthorityPrinted(url, tail);
    }
  }

  lemma AuthorityPrinted(netloc: string, p: string, tail: string)
    requires Avoids(netloc, NetlocEnd)
    requires p + tail == [] || (p + tail)[0] in NetlocEnd
    ensures SplitAuthority("//" + netloc + p + tail) == (netloc, p + tail)
  {
    var x := netloc + (p + tail);
    assert "//" + netloc + p + tail == "//" + x;
    SplitAuthorityOfSlashes(x);
    IndexOfAnyAppend(netloc, p + tail, NetlocEnd);
    assert x[..|netloc|] == netloc;
    assert x[|netloc|..] == p + tail;
  }

  lemma SplitAuthorityOfSlashes(x: string)
    ensures var i := IndexOfAny(x, NetlocEnd); SplitAuthority("//" + x) == (x[..i], x[i..])
  {
    var rest := "//" + x;
    assert StartsWith(rest, "//");
    assert rest[2..] == x;
    var i := IndexOfAny(x, NetlocEnd);
    assert rest[2..2 + i] == x[..i];
    assert rest[2 + i..] == x[i..];
  }

  lemma NoAuthorityPrinted(url: string, tail: string)
    requires !StartsWith(url, "//")
    requires tail == "" || tail[0] == '?' || tail[0] == '#'
    ensures SplitAuthority(url + tail) == ("", url + tail)
  {
    var rest := url + tail;
    if |url| >= 2 {
      assert rest[..2] == url[..2];
    } else if |url| == 1 && tail != "" {
      assert rest[1] == tail[0];
    } else if url == "" && tail != "" {
      assert rest[0] == tail[0];
    }
    assert !StartsWith(rest, "//");
  }

  lemma SchemeAvoidsColon(scheme: string)
    requires ValidScheme(scheme)
    ensures Avoids(scheme, {':'})
  {
    forall c | c in scheme ensures c != ':' {
      var i :| 0 <= i < |scheme| && scheme[i] == c;
    }
  }

  /** The query and fragment as `urlunsplit` appends them. */
  function QueryFragment(query: string, fragment: string): string {
    (if query != "" then "?" + query else "") + (if fragment != "" then "#" + fragment else "")
  }

  /** Splitting at the first `c` of `a` followed by an optional `c`-prefixed suffix. */
  lemma SplitAtOptional(a: string, c: char, b: string)
    requires c !in a
    ensures SplitAt(a + (if b != "" then [c] + b else ""), c) == (a, b)
  {
    if b != "" {
      SplitAtFirst(a, c, b);
      assert a + ([c] + b) == a + [c] + b;
    } else {
      assert a + "" == a;
    }
  }

  /** Reading back the tail of a printed URL finds the query and fragment that were printed. */
  lemma TailOfPrinted(scheme: string, p: string, query: string, fragment: string)
    requires Avoids(p, {'?', '#'}) && Avoids(query, {'#'})
    ensures SplitTail(scheme, p + QueryFragment(query, fragment)).2 == query
    ensures SplitTail(scheme, p + QueryFragment(query, fragment)).3 == fragment
  {
    var pq := p + (if query != "" then ['?'] + query else "");
    assert p + QueryFragment(query, fragment) == pq + (if fragment != "" then ['#'] + fragment else "");
    assert '#' !in pq;
    SplitAtOptional(pq, '#', fragment);
    SplitAtOptional(p, '?', query);
  }

  /** The printed form of a URL with a scheme: scheme, `:`, authority and path, query, fragment. */
  lemma UnparseShape(u: Url)
    requires u.scheme != ""
    ensures Unparse(u)
      == u.scheme + ([':'] + (HierPart(u.scheme, u.netloc, WithParams(u.path, u.params)) + QueryFragment(u.query, u.fragment)))
  {
    var hier := HierPart(u.scheme, u.netloc, WithParams(u.path, u.params));
    var tail := QueryFragment(u.query, u.fragment);
    var withScheme := u.scheme + ":" + hier;
    assert withScheme == u.scheme + ([':'] + hier);
    AppendTail(u.scheme, hier, u.query, u.fragment);
  }

  /** `urlunsplit` appends the query and the fragment after what it has printed so far. */
  lemma AppendTail(scheme: string, hier: string, query: string, fragment: string)
    ensures var withScheme := scheme + ([':'] + hier);
      var withQuery := if query != "" then withScheme + "?" + query else withScheme;
      (if fragment != "" then withQuery + "#" + fragment else withQuery)
        == scheme + ([':'] + (hier + QueryFragment(query, fragment)))
  {
    var q := if query != "" then "?" + query else "";
    var f := if fragment != "" then "#" + fragment else "";
    var withScheme := scheme + ([':'] + hier);
    var withQuery := if query != "" then withScheme + "?" + query else withScheme;
    assert withQuery == withScheme + q;
    assert (if fragment != "" then withQuery + "#" + fragment else withQuery) == withQuery + f;
    assert withScheme + q + f == scheme + ([':'] + (hier + (q + f)));
  }

  lemma HierPartAvoids(scheme: string, netloc: string, url: string, cs: set<char>)
    requires Avoids(netloc, cs) && Avoids(url, cs) && '/' !in cs
    ensures Avoids(HierPart(scheme, netloc, url), cs)
  {
  }

  /** A printed URL with a scheme passes the input cleaning unchanged, and its scheme is read back. */
  lemma SchemeOfPrinted(scheme: string, rest: string, defaultScheme: string)
    requires ValidScheme(scheme) && Avoids(rest, Unsafe)
    ensures Sanitize(scheme + ([':'] + rest)) == scheme + ([':'] + rest)
    ensures SplitScheme(scheme + ([':'] + rest), defaultScheme) == (scheme, rest)
  {
    PrintedSchemeClean(scheme, rest);
    PrintedSchemeSplit(scheme, rest, defaultScheme);
  }

  lemma PrintedSchemeClean(scheme: string, rest: string)
    requires ValidScheme(scheme) && Avoids(rest, Unsafe)
    ensures Sanitize(scheme + ([':'] + rest)) == scheme + ([':'] + rest)
  {
    var head := scheme + [':'];
    assert scheme + ([':'] + rest) == head + rest;
    SchemeHeadClean(scheme);
    assert (head + rest)[0] == head[0];
    LStripPrintable(head + rest);
    WithoutAppend(head, rest, Unsafe);
    WithoutClean(rest, Unsafe);
  }

  lemma PrintedSchemeSplit(scheme: string, rest: string, defaultScheme: string)
    requires ValidScheme(scheme)
    ensures SplitScheme(scheme + ([':'] + rest), defaultScheme) == (scheme, rest)
  {
    var s := scheme + ([':'] + rest);
    SchemeAvoidsColon(scheme);
    assert s[0] == scheme[0];
    IndexOfAnyAppend(scheme, [':'] + rest, {':'});
    assert s[..|scheme|] == scheme;
    assert HasScheme(s);
    LowerOfLower(scheme);
    assert s[|scheme| + 1..] == rest;
  }

  /**
   * Printing well-formed components and parsing the text again gives back the scheme, the
   * authority, the query and the fragment: the dispatched text names the host it was built with.
   */
  lemma ParseUnparse(u: Url, defaultScheme: string)
    requires WellFormed(u) && ValidScheme(u.scheme)
    ensures Parse(Unparse(u), defaultScheme).Some?
    ensures var p := Parse(Unparse(u), defaultScheme).value;
      p.scheme == u.scheme && p.netloc == u.netloc && p.query == u.query && p.fragment == u.fragment
  {
    var url := WithParams(u.path, u.params);
    var tail := QueryFragment(u.query, u.fragment);
    var hier := HierPart(u.scheme, u.netloc, url);
    var p := PathPart(u.netloc, url);
    var s := Unparse(u);
    UnparseShape(u);
    assert s == u.scheme + ([':'] + (hier + tail));
    assert Avoids(url, Unsafe + {'?', '#'});
    HierPartAvoids(u.scheme, u.netloc, url, Unsafe);
    assert Avoids(tail, Unsafe);
    SchemeOfPrinted(u.scheme, hier + tail, defaultScheme);
    assert Sanitize(s) == s;
    assert SplitScheme(s, defaultScheme) == (u.scheme, hier + tail);
    AuthorityOfHierPart(u.scheme, u.netloc, url, tail);
    assert SplitAuthority(hier + tail) == (u.netloc, p + tail);
    assert Avoids(p, {'?', '#'});
    TailOfPrinted(u.scheme, p, u.query, u.fragment);
    var t := SplitTail(u.scheme, p + tail);
    assert Parse(s, defaultScheme) == Some(Url(u.scheme, u.netloc, t.0, t.1, t.2, t.3));
  }

  /** Every string of `parts` avoids `cs`. */
  predicate AllAvoid(parts: seq<string>, cs: set<char>) {
    forall i :: 0 <= i < |parts| ==> Avoids(parts[i], cs)
  }

  lemma {:induction false} SplitAvoids(s: string, c: char, cs: set<char>)
    requires Avoids(s, cs)
    ensures AllAvoid(Split(s, c), cs)
    decreases |s|
  {
    var i := IndexOf(s, c);
    if i < |s| {
      AvoidsSlice(s, 0, i, cs);
      AvoidsSlice(s, i + 1, |s|, cs);
      SplitAvoids(s[i + 1..], c, cs);
      AllAvoidCons(s[..i], Split(s[i + 1..], c), cs);
      assert s[0..i] == s[..i];
    }
  }

  lemma AllAvoidCons(x: string, rest: seq<string>, cs: set<char>)
    requires Avoids(x, cs) && AllAvoid(rest, cs)
    ensures AllAvoid([x] + rest, cs)
  {
    forall k | 0 <= k < |[x] + rest| ensures Avoids(([x] + rest)[k], cs) {
      if k > 0 {
        assert ([x] + rest)[k] == rest[k - 1];
      }
    }
  }

  lemma {:induction false} NonEmptyAvoids(parts: seq<string>, cs: set<char>)
    requires AllAvoid(parts, cs)
    ensures AllAvoid(NonEmpty(parts), cs)
  {
    if parts != [] {
      NonEmptyAvoids(parts[1..], cs);
    }
  }

  lemma {:induction false} RemoveDotsAvoids(segs: seq<string>, kept: seq<string>, cs: set<char>)
    requires AllAvoid(segs, cs) && AllAvoid(kept, cs)
    ensures AllAvoid(RemoveDots(segs, kept), cs)
  {
    if segs != [] {
      if segs[0] == ".." {
        RemoveDotsAvoids(segs[1..], if kept == [] then [] else kept[..|kept| - 1], cs);
      } else if segs[0] == "." {
        RemoveDotsAvoids(segs[1..], kept, cs);
      } else {
        RemoveDotsAvoids(segs[1..], kept + [segs[0]], cs);
      }
    }
  }

  lemma {:induction false} JoinWithAvoids(parts: seq<string>, sep: char, cs: set<char>)
    requires AllAvoid(parts, cs) && sep !in cs
    ensures Avoids(JoinWith(parts, sep), cs)
  {
    if |parts| > 1 {
      JoinWithAvoids(parts[1..], sep, cs);
    }
  }

  lemma SegmentsAvoid(basePath: string, path: string, cs: set<char>)
    requires Avoids(basePath, cs) && Avoids(path, cs)
    ensures AllAvoid(Segments(basePath, path), cs)
  {
    SplitAvoids(basePath, '/', cs);
    SplitAvoids(path, '/', cs);
    var all := DirParts(basePath) + Split(path, '/');
    assert AllAvoid(all, cs);
    if |all| >= 2 {
      NonEmptyAvoids(all[1..|all| - 1], cs);
    }
  }

  /** The resolved path uses only characters of the two paths and `/`. */
  lemma MergePathAvoids(basePath: string, path: string, cs: set<char>)
    requires Avoids(basePath, cs) && Avoids(path, cs) && '/' !in cs
    ensures Avoids(MergePath(basePath, path), cs)
  {
    var segs := Segments(basePath, path);
    SegmentsAvoid(basePath, path, cs);
    RemoveDotsAvoids(segs, [], cs);
    var last := segs[|segs| - 1];
    var resolved := RemoveDots(segs, []) + (if last == "." || last == ".." then [""] else []);
    assert AllAvoid(resolved, cs);
    JoinWithAvoids(resolved, '/', cs);
  }

  /** Resolution keeps the components well formed and takes the base's authority. */
  lemma ResolveWellFormed(b: Url, u: Url)
    requires WellFormed(b) && WellFormed(u) && u.scheme in UsesNetloc
    ensures WellFormed(Resolve(b, u))
    ensures Resolve(b, u).netloc == b.netloc && Resolve(b, u).scheme == u.scheme
  {
    if u.path != "" || u.params != "" {
      MergePathAvoids(b.path, u.path, Unsafe + {'?', '#'});
    }
  }

  /** The scheme a parse finds does not depend on the default, when the URL has one of its own. */
  lemma ParseDefaultScheme(url: string, d1: string, d2: string)
    ensures Parse(url, d1).Some? <==> Parse(url, d2).Some?
    ensures Parse(url, d1).Some? ==>
      && Parse(url, d1).value.netloc == Parse(url, d2).value.netloc
      && (HasScheme(Sanitize(url)) ==> Parse(url, d1).value.scheme == Parse(url, d2).value.scheme)
      && (!HasScheme(Sanitize(url)) ==> Parse(url, d1).value.scheme == d1)
  {
  }

  /** `urljoin` raises only when the base or the reference does not parse. */
  lemma JoinDefined(base: string, url: string)
    requires Parse(base, "").Some? && Parse(url, "").Some?
    ensures Join(base, url).Some?
  {
    ParseDefaultScheme(url, Parse(base, "").value.scheme, "");
  }

  /**
   * Resolving a reference that has no authority against a base with a scheme keeps the base's
   * scheme and authority, unless the reference brings a different scheme of its own, in which case
   * it is returned as it is and names no host either.
   */
  lemma JoinKeepsBaseAuthority(base: string, url: string)
    requires Parse(base, "").Some?
    requires ValidScheme(Parse(base, "").value.scheme) && Parse(base, "").value.scheme in UsesRelative
    requires Parse(url, "").Some? && Parse(url, "").value.netloc == ""
    requires Join(base, url).Some?
    ensures Parse(Join(base, url).value, "").Some?
    ensures var b, r := Parse(base, "").value, Parse(Join(base, url).value, "").value;
      && (r.netloc == b.netloc || r.netloc == "")
      && (Parse(url, "").value.scheme in {"", b.scheme} ==> r.netloc == b.netloc && r.scheme == b.scheme)
  {
    var b := Parse(base, "").value;
    ParseWellFormed(base, "");
    if url != "" {
      ParseDefaultScheme(url, b.scheme, "");
      ParseWellFormed(url, b.scheme);
      var u := Parse(url, b.scheme).value;
      if u.scheme == b.scheme {
        assert u.netloc == "";
        ResolveWellFormed(b, u);
        assert Join(base, url) == Some(Unparse(Resolve(b, u)));
        ParseUnparse(Resolve(b, u), "");
      } else {
        assert Join(base, url) == Some(url);
      }
    }
  }

  lemma SanitizeAppendSlash(s: string)
    ensures Sanitize(s + "/") == Sanitize(s) + "/"
  {
    LStripControlsAppend(s, "/");
    WithoutAppend(LStripControls(s), "/", Unsafe);
    assert Avoids("/", Unsafe);
    WithoutClean("/", Unsafe);
  }

  lemma SplitSchemeAppendSlash(t: string)
    ensures SplitScheme(t + "/", "") == (SplitScheme(t, "").0, SplitScheme(t, "").1 + "/")
  {
    var i := IndexOf(t, ':');
    if i < |t| {
      IndexOfAnyPrefix(t, "/", {':'});
      assert (t + "/")[0] == t[0];
      assert forall k :: 0 <= k < i ==> (t + "/")[k] == t[k];
      assert (t + "/")[..i] == t[..i];
      assert (t + "/")[i + 1..] == t[i + 1..] + "/";
    } else {
      assert Avoids(t, {':'});
      IndexOfAnyAppend(t, "/", {':'});
      assert !HasScheme(t + "/");
    }
  }

  lemma SplitAuthorityAppendSlash(rest: string)
    ensures SplitAuthority(rest + "/").0 == SplitAuthority(rest).0
  {
    if StartsWith(rest, "//") {
      var x := rest[2..];
      assert rest == "//" + x;
      assert rest + "/" == "//" + (x + "/");
      SplitAuthorityOfSlashes(x);
      SplitAuthorityOfSlashes(x + "/");
      var i := IndexOfAny(x, NetlocEnd);
      if i < |x| {
        IndexOfAnyPrefix(x, "/", NetlocEnd);
      } else {
        assert Avoids(x, NetlocEnd);
        IndexOfAnyAppend(x, "/", NetlocEnd);
      }
      assert (x + "/")[..i] == x[..i];
    } else if rest == "/" {
      assert rest + "/" == "//";
    } else if |rest| >= 2 {
      assert (rest + "/")[..2] == rest[..2];
    }
  }

  /**
   * Adding a `/` to the end of a URL does not change its scheme or its authority, and it parses
   * whenever the URL does.
   */
  lemma ParseAppendSlash(s: string)
    requires Parse(s, "").Some?
    ensures Parse(s + "/", "").Some?
    ensures Parse(s + "/", "").value.scheme == Parse(s, "").value.scheme
    ensures Parse(s + "/", "").value.netloc == Parse(s, "").value.netloc
  {
    SanitizeAppendSlash(s);
    SplitSchemeAppendSlash(Sanitize(s));
    SplitAuthorityAppendSlash(SplitScheme(Sanitize(s), "").1);
  }

  /** A URL that starts with `//` keeps its leading `//` through the input cleaning. */
  lemma SanitizeKeepsSlashes(url: string)
    requires StartsWith(url, "//")
    ensures StartsWith(Sanitize(url), "//")
  {
    var slashes := url[..2];
    assert slashes == "//";
    assert url == slashes + url[2..];
    assert Avoids(slashes, Unsafe);
    WithoutClean(slashes, Unsafe);
    LStripPrintable(url);
    WithoutAppend(slashes, url[2..], Unsafe);
    assert Sanitize(url) == slashes + Without(url[2..], Unsafe);
  }

  /** Cleaning `scheme:url` cleans only `url` when `url` starts with a printable character. */
  lemma SanitizeAfterScheme(scheme: string, url: string)
    requires ValidScheme(scheme) && url != [] && url[0] > ' '
    ensures Sanitize(scheme + ([':'] + url)) == scheme + ([':'] + Sanitize(url))
  {
    var head := scheme + [':'];
    assert scheme + ([':'] + url) == head + url;
    SchemeHeadClean(scheme);
    SanitizeAfterClean(head, url);
    assert head + Sanitize(url) == scheme + ([':'] + Sanitize(url));
  }

  /** Cleaning leaves a clean, printable prefix alone and cleans what follows it. */
  lemma SanitizeAfterClean(head: string, url: string)
    requires head != [] && head[0] > ' ' && Without(head, Unsafe) == head
    requires url != [] && url[0] > ' '
    ensures Sanitize(head + url) == head + Sanitize(url)
  {
    assert (head + url)[0] == head[0];
    LStripPrintable(head + url);
    LStripPrintable(url);
    WithoutAppend(head, url, Unsafe);
  }

  lemma LStripPrintable(s: string)
    requires s != [] && s[0] > ' '
    ensures LStripControls(s) == s
  {
  }

  lemma SchemeHeadClean(scheme: string)
    requires ValidScheme(scheme)
    ensures (scheme + [':'])[0] > ' '
    ensures Without(scheme + [':'], Unsafe) == scheme + [':']
  {
    var head := scheme + [':'];
    assert head[0] == scheme[0];
    assert Avoids(head, Unsafe) by {
      forall c | c in head ensures c !in Unsafe {
        var k :| 0 <= k < |head| && head[k] == c;
        if k < |scheme| { assert IsSchemeChar(scheme[k]); }
      }
    }
    WithoutClean(head, Unsafe);
  }

  /**
   * Prefixing `scheme:` to a URL that starts with `//` changes only the scheme the parser
   * reports, when the scheme splits params as the default one does: the authority, path, params,
   * query and fragment are those of the URL alone, and it parses exactly when the URL does.
   */
  lemma ParseWithSchemePrefix(scheme: string, url: string)
    requires ValidScheme(scheme) && scheme in UsesParams
    requires StartsWith(url, "//")
    ensures Parse(scheme + ([':'] + url), "").Some? <==> Parse(url, "").Some?
    ensures Parse(url, "").Some? ==> Parse(scheme + ([':'] + url), "").value == Parse(url, "").value.(scheme := scheme)
  {
    var t := scheme + ([':'] + url);
    var s := Sanitize(url);
    SanitizeKeepsSlashes(url);
    NoSchemeBeforeSlashes(s, "");
    SanitizeAfterScheme(scheme, url);
    SchemeOfPrinted(scheme, s, "");
    assert SplitScheme(Sanitize(t), "") == (scheme, s);
    var authority := SplitAuthority(s);
    var tail := SplitTail("", authority.1);
    assert SplitTail(scheme, authority.1) == tail;
    if NetlocOk(authority.0) {
      assert Parse(url, "") == Some(Url("", authority.0, tail.0, tail.1, tail.2, tail.3));
      assert Parse(t, "") == Some(Url(scheme, authority.0, tail.0, tail.1, tail.2, tail.3));
    } else {
      assert Parse(url, "") == None;
      assert Parse(t, "") == None;
    }
  }

  /** What follows an authority is empty or starts with `/`, `?` or `#`. */
  lemma AfterAuthority(rest: string)
    requires StartsWith(rest, "//")
    ensures var a := SplitAuthority(rest).1; a == "" || a[0] in NetlocEnd
  {
    var d := 2 + IndexOfAny(rest[2..], NetlocEnd);
    if d < |rest| {
      assert rest[d] == rest[2..][d - 2];
    }
  }

  /** The path the parser reads from the text after an authority is a prefix of it free of `?` and `#`. */
  lemma SplitTailPathPrefix(scheme: string, after: string)
    ensures var p := SplitTail(scheme, after).0; |p| <= |after| && after[..|p|] == p && '?' !in p && '#' !in p
  {
    var bf := SplitAt(after, '#').0;
    SplitAtPrefix(after, '#');
    var bq := SplitAt(bf, '?').0;
    SplitAtPrefix(bf, '?');
    assert '#' !in bq by {
      PrefixAvoids(bf, |bq|, '#');
    }
    var p := PathParams(scheme, bq).0;
    PathParamsPrefix(scheme, bq);
    PrefixAvoids(bq, |p|, '#');
    PrefixAvoids(bq, |p|, '?');
    assert after[..|p|] == p by {
      assert after[..|bq|] == bq;
    }
  }

  lemma SplitAtPrefix(s: string, c: char)
    ensures var p := SplitAt(s, c).0; |p| <= |s| && s[..|p|] == p && c !in p
  {
  }

  lemma PathParamsPrefix(scheme: string, path: string)
    ensures var p := PathParams(scheme, path).0; |p| <= |path| && path[..|p|] == p
  {
  }

  lemma PrefixAvoids(s: string, n: nat, c: char)
    requires n <= |s| && c !in s
    ensures c !in s[..n]
  {
  }

  /** Text that starts with `//` has no scheme. */
  lemma NoSchemeBeforeSlashes(s: string, defaultScheme: string)
    requires StartsWith(s, "//")
    ensures SplitScheme(s, defaultScheme) == (defaultScheme, s)
  {
    assert s[0] == '/';
  }

  /** The components of a parse result, read off the splitting steps. */
  lemma ParseSteps(url: string, defaultScheme: string)
    requires Parse(url, defaultScheme).Some?
    ensures var schemeRest := SplitScheme(Sanitize(url), defaultScheme);
      var authority := SplitAuthority(schemeRest.1);
      && Parse(url, defaultScheme).value.netloc == authority.0
      && Parse(url, defaultScheme).value.path == SplitTail(schemeRest.0, authority.1).0
  {
  }

  /**
   * A URL with an authority, or one written with a leading `//`, has a path that is empty or
   * starts with `/`.
   */
  lemma ParsePathRooted(url: string, defaultScheme: string)
    requires Parse(url, defaultScheme).Some?
    requires Parse(url, defaultScheme).value.netloc != "" || StartsWith(url, "//")
    ensures var p := Parse(url, defaultScheme).value.path; p == "" || p[0] == '/'
  {
    var schemeRest := SplitScheme(Sanitize(url), defaultScheme);
    ParseSteps(url, defaultScheme);
    if StartsWith(url, "//") {
      SanitizeKeepsSlashes(url);
      NoSchemeBeforeSlashes(Sanitize(url), defaultScheme);
    }
    var rest := schemeRest.1;
    assert StartsWith(rest, "//");
    var a := SplitAuthority(rest).1;
    AfterAuthority(rest);
    SplitTailPathPrefix(schemeRest.0, a);
    var p := SplitTail(schemeRest.0, a).0;
    if p != "" {
      assert p[0] == a[0];
    }
  }
}
