/**
 * `ari.connect(base_url, appname, username, password)`: resolves the
 * discovery URL `ari/api-docs/resources.json` against the base URL (Python's
 * `urljoin`, which follows section 5.2 of RFC 3986: the reference replaces the
 * base path's last segment, dot segments are resolved, the base query and
 * fragment are dropped), builds an HTTP client carrying the Basic
 * credentials, and hands both to the ARI client.
 */
module AriConnect {
  import opened Wrappers
  import Text
  import HttpClient

  /** The base URL the listener connects to when none is configured. */
  const DefaultAriUrl: string := "http://localhost:8088"

  /** The relative reference that `connect` resolves. */
  const DiscoveryPath: string := "ari/api-docs/resources.json"

  /** The five parts `urlsplit` returns. */
  datatype UrlParts = UrlParts(scheme: string, netloc: string, path: string, query: string, fragment: string)

  predicate IsAsciiLetter(c: char) {
    'a' <= c <= 'z' || 'A' <= c <= 'Z'
  }

  /** Characters allowed in a scheme name. */
  predicate IsSchemeChar(c: char) {
    IsAsciiLetter(c) || '0' <= c <= '9' || c == '+' || c == '-' || c == '.'
  }

  /** Schemes for which `urljoin` resolves relative references (`uses_relative`); each of them also has an authority part. */
  const RelativeSchemes: set<string> := {"", "ftp", "http", "gopher", "nntp", "imap", "wais", "file", "https", "shttp", "mms",
    "prospero", "rtsp", "rtsps", "rtspu", "sftp", "svn", "svn+ssh", "ws", "wss"}

  /** Schemes whose URLs have an authority part (`uses_netloc`), so that `urlunsplit` writes `//` before an empty one. */
  const NetlocSchemes: set<string> := {"", "ftp", "http", "gopher", "nntp", "telnet", "imap", "wais", "file", "mms", "https", "shttp",
    "snews", "prospero", "rtsp", "rtsps", "rtspu", "rsync", "svn", "svn+ssh", "sftp", "nfs", "git",
    "git+ssh", "ws", "wss", "itms-services"}

  predicate UsesRelative(scheme: string) {
    scheme in RelativeSchemes
  }

  predicate UsesNetloc(scheme: string) {
    scheme in NetlocSchemes
  }

  /** `urlsplit` first drops leading control characters and spaces, then every tab, CR and LF. */
  function Clean(url: string): (r: string)
    ensures forall k :: 0 <= k < |r| ==> r[k] != '\t' && r[k] != '\r' && r[k] != '\n'
  {
    RemoveBreaks(LStripControl(url))
  }

  function LStripControl(s: string): string
    decreases |s|
  {
    if s != [] && s[0] <= ' ' then LStripControl(s[1..]) else s
  }

  function RemoveBreaks(s: string): (r: string)
    ensures forall k :: 0 <= k < |r| ==> r[k] != '\t' && r[k] != '\r' && r[k] != '\n'
    decreases |s|
  {
    if s == [] then []
    else if s[0] == '\t' || s[0] == '\r' || s[0] == '\n' then RemoveBreaks(s[1..])
    else [s[0]] + RemoveBreaks(s[1..])
  }

  lemma {:induction false} RemoveBreaksKeeps(s: string)
    requires forall k :: 0 <= k < |s| ==> s[k] != '\t' && s[k] != '\r' && s[k] != '\n'
    ensures RemoveBreaks(s) == s
    decreases |s|
  {
    if s != [] {
      RemoveBreaksKeeps(s[1..]);
      assert [s[0]] + s[1..] == s;
    }
  }

  /** The first index at or after `start` holding one of `/`, `?`, `#`, or `|s|`. */
  function AuthorityEnd(s: string, start: nat): (r: nat)
    requires start <= |s|
    ensures start <= r <= |s|
    ensures forall k :: start <= k < r ==> s[k] != '/' && s[k] != '?' && s[k] != '#'
    ensures r < |s| ==> s[r] == '/' || s[r] == '?' || s[r] == '#'
    decreases |s| - start
  {
    if start == |s| || s[start] == '/' || s[start] == '?' || s[start] == '#' then start
    else AuthorityEnd(s, start + 1)
  }

  lemma {:induction false} AuthorityToEnd(s: string, start: nat)
    requires start <= |s|
    requires forall k :: start <= k < |s| ==> s[k] != '/' && s[k] != '?' && s[k] != '#'
    ensures AuthorityEnd(s, start) == |s|
    decreases |s| - start
  {
    if start < |s| {
      AuthorityToEnd(s, start + 1);
    }
  }

  /** A leading `scheme:` when everything before the first `:` is a scheme name starting with a letter. */
  function SchemeEnd(url: string): int {
    var i := Text.FindFirst(url, ':');
    if i > 0 && IsAsciiLetter(url[0]) && forall k :: 0 <= k < i ==> IsSchemeChar(url[k]) then i else -1
  }

  /** The scheme (lower-cased) and what follows its `:`; no scheme leaves the URL whole. */
  function SplitScheme(url: string): (r: (string, string))
    ensures forall k :: 0 <= k < |r.0| ==> IsSchemeChar(r.0[k])
  {
    var i := SchemeEnd(url);
    if i > 0 then
      assert forall k :: 0 <= k < i ==> IsSchemeChar(Text.Lower(url[..i])[k]) by {
        forall k | 0 <= k < i ensures IsSchemeChar(Text.Lower(url[..i])[k]) {
          assert IsSchemeChar(url[k]);
        }
      }
      (Text.Lower(url[..i]), url[i + 1..])
    else ("", url)
  }

  /** After the scheme, a leading `//` introduces the authority, which runs to the first `/`, `?` or `#`. */
  function SplitNetloc(rest: string): (r: (string, string))
    ensures NoDelimiter(r.0)
    ensures r.0 != "" ==> r.1 == "" || r.1[0] in "/?#"
  {
    if Text.StartsWith(rest, "//") then
      var e := AuthorityEnd(rest, 2);
      (rest[2..e], rest[e..])
    else ("", rest)
  }

  predicate NoDelimiter(s: string) {
    forall k :: 0 <= k < |s| ==> s[k] != '/' && s[k] != '?' && s[k] != '#'
  }

  predicate NoQF(s: string) {
    forall k :: 0 <= k < |s| ==> s[k] != '?' && s[k] != '#'
  }

  /** `s.partition(c)` without the separator: what precedes the first `c` (all of `s` when there is none) and what follows it. */
  function CutAt(s: string, c: char): (r: (string, string))
    ensures |r.0| <= |s| && r.0 == s[..|r.0|]
    ensures forall k :: 0 <= k < |r.0| ==> r.0[k] != c
  {
    var i := Text.FindFirst(s, c);
    if i >= 0 then (s[..i], s[i + 1..]) else (s, "")
  }

  /** The fragment is split off at the first `#`, then the query at the first `?`. */
  function SplitQuery(s: string): (r: (string, string, string))
    ensures NoQF(r.0)
    ensures r.0 != "" ==> s != "" && r.0[0] == s[0]
  {
    var (beforeFragment, fragment) := CutAt(s, '#');
    var (path, query) := CutAt(beforeFragment, '?');
    assert forall k :: 0 <= k < |path| ==> path[k] == beforeFragment[k] == s[k];
    (path, query, fragment)
  }

  /** `urlsplit(url)`. */
  function SplitUrl(raw: string): (u: UrlParts)
    ensures NoDelimiter(u.netloc)
    ensures NoQF(u.path)
    ensures forall k :: 0 <= k < |u.scheme| ==> IsSchemeChar(u.scheme[k])
    ensures u.netloc != "" ==> u.path == "" || u.path[0] == '/'
  {
    var (scheme, rest) := SplitScheme(Clean(raw));
    var (netloc, afterNetloc) := SplitNetloc(rest);
    var (path, query, fragment) := SplitQuery(afterNetloc);
    UrlParts(scheme, netloc, path, query, fragment)
  }

  /** Python's `urljoin` resolution loop: `..` drops the previous segment, `.` is skipped. */
  function ResolveDots(segments: seq<string>): seq<string>
    decreases |segments|
  {
    if segments == [] then []
    else
      var before := ResolveDots(segments[..|segments| - 1]);
      var seg := segments[|segments| - 1];
      if seg == ".." then (if before == [] then [] else before[..|before| - 1])
      else if seg == "." then before
      else before + [seg]
  }

  /** The empty strings removed from all but the first and last segments (`segments[1:-1] = filter(None, ...)`). */
  function DropEmptyInner(segments: seq<string>): (r: seq<string>)
    requires |segments| >= 2
    ensures |r| >= 2 && r[0] == segments[0] && r[|r| - 1] == segments[|segments| - 1]
  {
    [segments[0]] + NonEmpty(segments[1..|segments| - 1]) + [segments[|segments| - 1]]
  }

  function NonEmpty(xs: seq<string>): (r: seq<string>)
    ensures forall k :: 0 <= k < |r| ==> r[k] != ""
    decreases |xs|
  {
    if xs == [] then [] else (if xs[0] == "" then [] else [xs[0]]) + NonEmpty(xs[1..])
  }

  /** The base path's directory segments: its `/`-pieces without the last piece unless that piece is empty. */
  function BaseDirectory(path: string): seq<string> {
    DirectoryOf(Text.Split(path, "/"))
  }

  /** A path's pieces without the last one, unless that one is empty. */
  function DirectoryOf(parts: seq<string>): (r: seq<string>)
    requires |parts| >= 1
    ensures |r| >= |parts| - 1
  {
    if Text.Last(parts) != "" then parts[..|parts| - 1] else parts
  }

  /** The path `urljoin` produces for a relative reference with no leading `/` and no dot segments. */
  function MergedPath(basePath: string, ref: string): string {
    MergeDirectory(BaseDirectory(basePath), ref)
  }

  /** The reference's pieces after the directory pieces, inner empty pieces dropped, dot segments resolved, joined. */
  function MergeDirectory(d: seq<string>, ref: string): string {
    var segments := d + Text.Split(ref, "/");
    var resolved := if |segments| >= 2 then ResolveDots(DropEmptyInner(segments)) else ResolveDots(segments);
    var joined := Text.Join(resolved, "/");
    if joined == "" then "/" else joined
  }

  /**
   * `urlunsplit` for a URL with no query or fragment, as CPython 3.12 writes
   * it: an authority part is written when there is an authority, or when the
   * scheme is one that has an authority part and the path does not itself
   * start with `//`; the path after an authority part is made rooted.
   */
  function Unsplit(scheme: string, netloc: string, path: string): (r: string)
    ensures Text.EndsWith(r, path)
    ensures scheme != "" ==> Text.StartsWith(r, scheme + ":")
    ensures var rest := r[if scheme != "" then |scheme| + 1 else 0..];
      (netloc != "" ==> Text.StartsWith(rest, "//" + netloc)) &&
      (netloc == "" && WritesEmptyAuthority(scheme, path) ==> rest == "//" + Rooted(path)) &&
      (netloc == "" && !WritesEmptyAuthority(scheme, path) ==> rest == path)
  {
    var w := WithAuthority(scheme, netloc, path);
    if scheme != "" then
      assert (scheme + ":" + w)[|scheme| + 1..] == w;
      EndsWithTrans(scheme + ":" + w, w, path);
      scheme + ":" + w
    else w
  }

  /** Without an authority, `urlunsplit` still writes `//` for a scheme that has an authority part, unless the path starts with `//`. */
  predicate WritesEmptyAuthority(scheme: string, path: string) {
    scheme != "" && UsesNetloc(scheme) && !Text.StartsWith(path, "//")
  }

  /** The path with a `/` put in front when it is non-empty and does not start with one. */
  function Rooted(path: string): (p: string)
    ensures Text.EndsWith(p, path)
    ensures p == "" <==> path == ""
    ensures p != "" ==> p[0] == '/'
    ensures path != "" && path[0] == '/' ==> p == path
  {
    if path != "" && path[0] != '/' then
      assert ("/" + path)[1..] == path;
      "/" + path
    else
      assert path[|path| - |path|..] == path;
      path
  }

  /** What `urlunsplit` writes after `scheme:`: the authority part, if any, then the path. */
  function WithAuthority(scheme: string, netloc: string, path: string): (w: string)
    ensures Text.EndsWith(w, path)
    ensures netloc != "" ==> w == "//" + netloc + Rooted(path)
    ensures netloc == "" && WritesEmptyAuthority(scheme, path) ==> w == "//" + Rooted(path)
    ensures netloc == "" && !WritesEmptyAuthority(scheme, path) ==> w == path
  {
    if netloc != "" || WritesEmptyAuthority(scheme, path) then
      PrefixKeepsEnd("//" + netloc, Rooted(path), path);
      "//" + netloc + Rooted(path)
    else
      EndsWithSelf(path);
      path
  }

  lemma PrefixKeepsEnd(prefix: string, p: string, path: string)
    requires Text.EndsWith(p, path)
    ensures Text.EndsWith(prefix + p, path)
  {
    assert (prefix + p)[|prefix + p| - |path|..] == p[|p| - |path|..];
  }

  lemma EndsWithSelf(s: string)
    ensures Text.EndsWith(s, s)
  {
    assert s[|s| - |s|..] == s;
  }

  /** Schemes whose paths can carry `;params` (`uses_params`), which `urlparse` cuts off. */
  const ParamsSchemes: set<string> := {"", "ftp", "hdl", "prospero", "http", "imap", "https", "shttp", "rtsp", "rtsps", "rtspu",
    "sip", "sips", "mms", "sftp", "tel"}

  predicate UsesParams(scheme: string) {
    scheme in ParamsSchemes
  }

  /** Everything before the first `;`. */
  function BeforeSemicolon(s: string): (r: string)
    ensures Text.StartsWith(s, r)
    ensures forall k :: 0 <= k < |r| ==> r[k] == s[k]
  {
    var i := Text.FindFirst(s, ';');
    if i < 0 then s else s[..i]
  }

  /**
   * `_splitparams`: the path without its `;params`, which start at the first
   * `;` after the last `/` (or, in a path without `/`, at its first `;`).
   */
  function PathWithoutParams(path: string): string {
    if Text.FindLast(path, '/') < 0 then BeforeSemicolon(path)
    else Text.RSplitHead(path, '/') + "/" + BeforeSemicolon(Text.AfterLast(path, '/'))
  }

  /** The base path `urljoin` resolves against: `urlparse` has removed the `;params` for schemes that have them. */
  function JoinBasePath(b: UrlParts): string {
    if UsesParams(b.scheme) then PathWithoutParams(b.path) else b.path
  }

  /**
   * `urljoin` of a relative-path reference against a non-empty base split into
   * its parts: the bare reference for a scheme it does not resolve against,
   * otherwise the base's scheme and authority before a path ending with the
   * reference.
   */
  function JoinAgainst(b: UrlParts, ref: string): (r: string)
    ensures !UsesRelative(b.scheme) ==> r == ref
    ensures UsesRelative(b.scheme) && b.scheme != "" ==> Text.StartsWith(r, b.scheme + ":")
    ensures UsesRelative(b.scheme) && b.netloc != "" ==>
      Text.StartsWith(r[if b.scheme != "" then |b.scheme| + 1 else 0..], "//" + b.netloc)
    ensures PlainReference(ref) ==> Text.EndsWith(r, ref)
  {
    if !UsesRelative(b.scheme) then
      assert ref[|ref| - |ref|..] == ref;
      ref
    else
      UnsplitMergedEnds(b, ref);
      Unsplit(b.scheme, b.netloc, MergedPath(JoinBasePath(b), ref))
  }

  lemma UnsplitMergedEnds(b: UrlParts, ref: string)
    ensures PlainReference(ref) ==> Text.EndsWith(Unsplit(b.scheme, b.netloc, MergedPath(JoinBasePath(b), ref)), ref)
  {
    if PlainReference(ref) {
      var merged := MergedPath(JoinBasePath(b), ref);
      MergedEndsWithRef(JoinBasePath(b), ref);
      EndsWithTrans(Unsplit(b.scheme, b.netloc, merged), merged, ref);
    }
  }

  /**
   * `urljoin(base_url, "ari/api-docs/resources.json")`: whatever the base,
   * the result ends with the reference; it is the bare reference when the
   * base is empty or its scheme is one `urljoin` does not resolve against.
   */
  function DiscoveryUrl(baseUrl: string): (r: string)
    ensures Text.EndsWith(r, DiscoveryPath)
    ensures baseUrl == "" || !UsesRelative(SplitUrl(baseUrl).scheme) ==> r == DiscoveryPath
    ensures baseUrl != "" && SplitUrl(baseUrl).scheme != "" && UsesRelative(SplitUrl(baseUrl).scheme) ==>
      Text.StartsWith(r, SplitUrl(baseUrl).scheme + ":")
  {
    DiscoveryPathIsPlain();
    if baseUrl == "" then
      assert DiscoveryPath[|DiscoveryPath| - |DiscoveryPath|..] == DiscoveryPath;
      DiscoveryPath
    else JoinAgainst(SplitUrl(baseUrl), DiscoveryPath)
  }

  /** A suffix of a suffix is a suffix. */
  lemma EndsWithTrans(a: string, b: string, c: string)
    requires Text.EndsWith(a, b) && Text.EndsWith(b, c)
    ensures Text.EndsWith(a, c)
  {
    assert a[|a| - |c|..] == b[|b| - |c|..];
  }

  /** The merged path of a plain reference ends with the reference. */
  lemma MergedEndsWithRef(basePath: string, ref: string)
    requires PlainReference(ref)
    ensures Text.EndsWith(MergedPath(basePath, ref), ref)
  {
    var d := BaseDirectory(basePath);
    var refParts := Text.Split(ref, "/");
    var segments := d + refParts;
    ResolveNoDots(refParts);
    if |segments| >= 2 {
      var x := DropEmptyEnds(d, refParts);
      ResolveKeepsPlainTail(x, refParts);
      JoinEndsWithRef(ResolveDots(x), ref);
    } else {
      assert d == [] && segments == refParts;
      JoinEndsWithRef([], ref);
    }
  }

  /** Dropping the inner empty segments keeps a reference of non-empty segments whole at the end. */
  lemma DropEmptyEnds(d: seq<string>, refParts: seq<string>) returns (x: seq<string>)
    requires |d| + |refParts| >= 2 && |refParts| >= 1
    requires forall k :: 0 <= k < |refParts| ==> refParts[k] != ""
    ensures DropEmptyInner(d + refParts) == x + refParts
  {
    if d == [] {
      assert d + refParts == refParts;
      DropEmptyPlain(refParts);
      x := [];
    } else {
      DropEmptyAfterBase(d, refParts);
      x := [d[0]] + NonEmpty(d[1..]);
    }
  }

  /** Segments none of which is empty are kept as they are. */
  lemma DropEmptyPlain(refParts: seq<string>)
    requires |refParts| >= 2
    requires forall k :: 0 <= k < |refParts| ==> refParts[k] != ""
    ensures DropEmptyInner(refParts) == refParts
  {
    var n := |refParts|;
    NonEmptyKeeps(refParts[1..n - 1]);
    assert [refParts[0]] + refParts[1..n - 1] + [refParts[n - 1]] == refParts;
  }

  /** After a non-empty base, only the base's inner empty segments are dropped. */
  lemma DropEmptyAfterBase(d: seq<string>, refParts: seq<string>)
    requires |d| >= 1 && |refParts| >= 1
    requires forall k :: 0 <= k < |refParts| ==> refParts[k] != ""
    ensures DropEmptyInner(d + refParts) == [d[0]] + NonEmpty(d[1..]) + refParts
  {
    var s := d + refParts;
    var n := |refParts|;
    assert s[1..|s| - 1] == d[1..] + refParts[..n - 1];
    NonEmptyAppend(d[1..], refParts[..n - 1]);
    NonEmptyKeeps(refParts[..n - 1]);
    assert s[0] == d[0] && s[|s| - 1] == refParts[n - 1];
    assert refParts[..n - 1] + [refParts[n - 1]] == refParts;
  }

  /** Resolving dot segments leaves a tail without dot segments in place. */
  lemma {:induction false} ResolveKeepsPlainTail(xs: seq<string>, ys: seq<string>)
    requires forall k :: 0 <= k < |ys| ==> !IsDotSegment(ys[k])
    ensures ResolveDots(xs + ys) == ResolveDots(xs) + ys
    decreases |ys|
  {
    if ys == [] {
      assert xs + ys == xs;
    } else {
      var front := ys[..|ys| - 1];
      ResolveKeepsPlainTail(xs, front);
      assert (xs + ys)[..|xs + ys| - 1] == xs + front;
    }
  }

  /** Joining segments that end with a reference's own segments ends with the reference. */
  lemma JoinEndsWithRef(y: seq<string>, ref: string)
    ensures Text.EndsWith(Text.Join(y + Text.Split(ref, "/"), "/"), ref)
  {
    if y == [] {
      assert y + Text.Split(ref, "/") == Text.Split(ref, "/");
      Text.JoinSplit(ref, '/');
    } else {
      JoinMerged(y, ref);
    }
    var j := Text.Join(y + Text.Split(ref, "/"), "/");
    assert j[|j| - |ref|..] == ref;
  }

  lemma SplitThree(a: string, b: string, c: string)
    requires forall k :: 0 <= k < |a| ==> a[k] != '/'
    requires forall k :: 0 <= k < |b| ==> b[k] != '/'
    requires forall k :: 0 <= k < |c| ==> c[k] != '/'
    ensures Text.Split(a + "/" + b + "/" + c, "/") == [a, b, c]
  {
    var bc := b + "/" + c;
    Text.SplitNoSep(c, '/');
    Text.SplitAtFirst(b, c, '/');
    assert Text.Split(bc, "/") == [b, c];
    Text.SplitAtFirst(a, bc, '/');
    assert a + "/" + b + "/" + c == a + "/" + bc;
  }

  /** The reference's three segments. */
  lemma SplitDiscoveryPath()
    ensures Text.Split(DiscoveryPath, "/") == ["ari", "api-docs", "resources.json"]
  {
    assert DiscoveryPath == "ari" + "/" + "api-docs" + "/" + "resources.json";
    SplitThree("ari", "api-docs", "resources.json");
  }

  predicate IsDotSegment(seg: string) {
    seg == "." || seg == ".."
  }

  lemma {:induction false} ResolveNoDots(segments: seq<string>)
    requires forall k :: 0 <= k < |segments| ==> !IsDotSegment(segments[k])
    ensures ResolveDots(segments) == segments
    decreases |segments|
  {
    if segments != [] {
      ResolveNoDots(segments[..|segments| - 1]);
      assert segments[..|segments| - 1] + [segments[|segments| - 1]] == segments;
    }
  }

  lemma {:induction false} NonEmptyAppend(a: seq<string>, b: seq<string>)
    ensures NonEmpty(a + b) == NonEmpty(a) + NonEmpty(b)
    decreases |a|
  {
    if a == [] {
      assert a + b == b;
    } else {
      NonEmptyAppend(a[1..], b);
      assert (a + b)[1..] == a[1..] + b;
    }
  }

  lemma {:induction false} NonEmptyKeeps(a: seq<string>)
    requires forall k :: 0 <= k < |a| ==> a[k] != ""
    ensures NonEmpty(a) == a
    decreases |a|
  {
    if a != [] {
      NonEmptyKeeps(a[1..]);
      assert [a[0]] + a[1..] == a;
    }
  }

  /** Path pieces whose inner pieces are neither empty nor dot segments, and whose ends are not dot segments. */
  predicate PlainSegments(pieces: seq<string>) {
    |pieces| >= 1 &&
    (forall k :: 1 <= k < |pieces| - 1 ==> pieces[k] != "" && !IsDotSegment(pieces[k])) &&
    !IsDotSegment(pieces[0]) && !IsDotSegment(pieces[|pieces| - 1])
  }

  /** A path that starts with `/` has an empty first piece and at least one more. */
  lemma SlashFirstSplits(path: string)
    requires path != "" && path[0] == '/'
    ensures |Text.Split(path, "/")| >= 2 && Text.Split(path, "/")[0] == ""
    ensures Text.FindLast(path, '/') >= 0
  {
    assert path[..1] == "/";
    assert Text.Split(path, "/") == [""] + Text.Split(path[1..], "/");
  }

  /** A relative reference made of non-empty segments that are not dot segments. */
  predicate PlainReference(ref: string) {
    var pieces := Text.Split(ref, "/");
    forall k :: 0 <= k < |pieces| ==> pieces[k] != "" && !IsDotSegment(pieces[k])
  }

  lemma DiscoveryPathIsPlain()
    ensures PlainReference(DiscoveryPath)
  {
    SplitDiscoveryPath();
    ThreePiecesPlain(DiscoveryPath);
  }

  lemma ThreePiecesPlain(ref: string)
    requires Text.Split(ref, "/") == ["ari", "api-docs", "resources.json"]
    ensures PlainReference(ref)
  {
    var pieces := Text.Split(ref, "/");
    assert pieces[0] == "ari" && pieces[1] == "api-docs" && pieces[2] == "resources.json";
  }

  lemma NonEmptyAcrossGap(tail: seq<string>, gap: seq<string>, front: seq<string>)
    requires forall k :: 0 <= k < |tail| ==> tail[k] != ""
    requires forall k :: 0 <= k < |front| ==> front[k] != ""
    requires gap == [] || gap == [""]
    ensures NonEmpty(tail + gap + front) == tail + front
  {
    var tg := tail + gap;
    NonEmptyKeeps(tail);
    NonEmptyKeeps(front);
    NonEmptyAppend(tail, gap);
    assert NonEmpty(gap) == [];
    assert NonEmpty(tg) == tail;
    NonEmptyAppend(tg, front);
  }

  /** Dropping the empty inner segments of `d + gap + refParts`, where `gap` is nothing or one empty segment and only `d[0]` may be empty. */
  lemma DropEmptyKeeps(d: seq<string>, gap: seq<string>, refParts: seq<string>)
    requires |d| >= 1 && forall k :: 1 <= k < |d| ==> d[k] != ""
    requires gap == [] || gap == [""]
    requires |refParts| >= 1 && forall k :: 0 <= k < |refParts| ==> refParts[k] != ""
    ensures DropEmptyInner(d + gap + refParts) == d + refParts
  {
    var s := d + gap + refParts;
    var n := |refParts|;
    assert s[1..|s| - 1] == d[1..] + gap + refParts[..n - 1];
    assert forall k :: 0 <= k < |d[1..]| ==> d[1..][k] != "" by {
      forall k | 0 <= k < |d[1..]| ensures d[1..][k] != "" { assert d[1..][k] == d[k + 1]; }
    }
    NonEmptyAcrossGap(d[1..], gap, refParts[..n - 1]);
    assert s[0] == d[0] && s[|s| - 1] == refParts[n - 1];
    Reassembled(d, refParts);
  }

  /** A non-empty prefix and a non-empty suffix, taken apart at their outer ends and put back together. */
  lemma Reassembled(d: seq<string>, refParts: seq<string>)
    requires |d| >= 1 && |refParts| >= 1
    ensures [d[0]] + (d[1..] + refParts[..|refParts| - 1]) + [refParts[|refParts| - 1]] == d + refParts
  {
    assert [d[0]] + d[1..] == d;
    assert refParts[..|refParts| - 1] + [refParts[|refParts| - 1]] == refParts;
  }


  /** The directory of pieces whose inner pieces are non-empty, followed by the reference, with empty inner segments dropped. */
  lemma PiecesThenReference(pieces: seq<string>, refParts: seq<string>)
    requires |pieces| >= 2 && forall k :: 1 <= k < |pieces| - 1 ==> pieces[k] != ""
    requires |refParts| >= 1 && forall k :: 0 <= k < |refParts| ==> refParts[k] != ""
    ensures DropEmptyInner(DirectoryOf(pieces) + refParts) == pieces[..|pieces| - 1] + refParts
  {
    var d := pieces[..|pieces| - 1];
    assert forall k :: 1 <= k < |d| ==> d[k] != "" by {
      forall k | 1 <= k < |d| ensures d[k] != "" { assert d[k] == pieces[k]; }
    }
    var gap := if Text.Last(pieces) == "" then [""] else [];
    DropEmptyKeeps(d, gap, refParts);
    assert DirectoryOf(pieces) == d + gap by {
      assert pieces == d + [Text.Last(pieces)];
    }
  }

  /** The base directory followed by the reference, with empty inner segments dropped: the base path's pieces but the last, then the reference's. */
  lemma DirectoryThenReference(path: string, refParts: seq<string>)
    requires path != "" && path[0] == '/'
    requires PlainSegments(Text.Split(path, "/"))
    requires |refParts| >= 1 && forall k :: 0 <= k < |refParts| ==> refParts[k] != ""
    ensures |Text.Split(path, "/")| >= 2
    ensures DropEmptyInner(BaseDirectory(path) + refParts) == Text.Split(path, "/")[..|Text.Split(path, "/")| - 1] + refParts
  {
    SlashFirstSplits(path);
    PiecesThenReference(Text.Split(path, "/"), refParts);
  }

  lemma SameHead(x: string, h: string, a: string, path: string)
    requires path == x + "/" + a
    requires path == h + "/" + a
    ensures x == h
  {
    assert |x| == |h|;
    assert path[..|x|] == x;
    assert path[..|h|] == h;
  }

  /** The pieces of a path before its last `/`, joined again, are the text before that `/`. */
  lemma JoinDirectory(path: string)
    requires path != "" && path[0] == '/'
    ensures |Text.Split(path, "/")| >= 2
    ensures Text.Join(Text.Split(path, "/")[..|Text.Split(path, "/")| - 1], "/") == Text.RSplitHead(path, '/')
  {
    PiecesRejoin(path);
    HeadOfPieces(Text.Split(path, "/"), Text.RSplitHead(path, '/'), Text.AfterLast(path, '/'));
  }

  /** A rooted path joins back from its pieces as the text before its last `/`, `/`, and the rest. */
  lemma PiecesRejoin(path: string)
    requires path != "" && path[0] == '/'
    ensures |Text.Split(path, "/")| >= 2 && Text.Last(Text.Split(path, "/")) == Text.AfterLast(path, '/')
    ensures Text.Join(Text.Split(path, "/"), "/") == Text.RSplitHead(path, '/') + "/" + Text.AfterLast(path, '/')
  {
    SlashFirstSplits(path);
    Text.SplitLastIsAfterLast(path, '/');
    Text.JoinSplit(path, '/');
    Text.RSplitRejoins(path, '/');
  }

  /** When pieces join to `h/a`, with `a` the last piece, the other pieces join to `h`. */
  lemma HeadOfPieces(pieces: seq<string>, h: string, a: string)
    requires |pieces| >= 2 && Text.Last(pieces) == a
    requires Text.Join(pieces, "/") == h + "/" + a
    ensures Text.Join(pieces[..|pieces| - 1], "/") == h
  {
    JoinDropLast(pieces);
    SameHead(Text.Join(pieces[..|pieces| - 1], "/"), h, a, Text.Join(pieces, "/"));
  }

  /** Joining splits off the last piece behind one separator. */
  lemma {:induction false} JoinDropLast(pieces: seq<string>)
    requires |pieces| >= 2
    ensures Text.Join(pieces, "/") == Text.Join(pieces[..|pieces| - 1], "/") + "/" + Text.Last(pieces)
    decreases |pieces|
  {
    var d := pieces[..|pieces| - 1];
    if |pieces| == 2 {
      assert d == [pieces[0]];
    } else {
      var t := pieces[1..];
      JoinDropLast(t);
      assert t[..|t| - 1] == d[1..];
      assert Text.Last(t) == Text.Last(pieces);
    }
  }



  /** Joining the resolved segments: the base directory, `/`, then the reference. */
  lemma JoinMerged(d: seq<string>, ref: string)
    requires |d| >= 1
    ensures Text.Join(d + Text.Split(ref, "/"), "/") == Text.Join(d, "/") + "/" + ref
  {
    Text.JoinAppend(d, Text.Split(ref, "/"), "/");
    Text.JoinSplit(ref, '/');
  }

  /**
   * For a base path `/p1/.../pn` without empty, `.` or `..` inner segments,
   * a plain reference takes the place of the last segment `pn` (which is
   * empty when the path ends with `/`).
   */
  lemma ReferenceReplacesLastSegment(path: string, ref: string)
    requires path != "" && path[0] == '/'
    requires PlainSegments(Text.Split(path, "/"))
    requires PlainReference(ref)
    ensures MergedPath(path, ref) == Text.RSplitHead(path, '/') + "/" + ref
  {
    var pieces := Text.Split(path, "/");
    var refParts := Text.Split(ref, "/");
    DirectoryThenReference(path, refParts);
    var d := pieces[..|pieces| - 1];
    PlainPiecesResolve(pieces, refParts);
    JoinMerged(d, ref);
    JoinDirectory(path);
  }

  /** Plain pieces but the last, then a plain reference, contain no dot segment to resolve. */
  lemma PlainPiecesResolve(pieces: seq<string>, refParts: seq<string>)
    requires PlainSegments(pieces) && |pieces| >= 2
    requires forall k :: 0 <= k < |refParts| ==> !IsDotSegment(refParts[k])
    ensures ResolveDots(pieces[..|pieces| - 1] + refParts) == pieces[..|pieces| - 1] + refParts
  {
    var d := pieces[..|pieces| - 1];
    var all := d + refParts;
    forall k | 0 <= k < |all| ensures !IsDotSegment(all[k]) {
      if k == 0 {
        assert all[0] == pieces[0];
      } else if k < |d| {
        assert all[k] == pieces[k] && 1 <= k < |pieces| - 1;
      } else {
        assert all[k] == refParts[k - |d|];
      }
    }
    ResolveNoDots(all);
  }

  /** An empty base path behaves like `/`: a plain reference hangs off the root. */
  lemma EmptyBaseDirectory()
    ensures BaseDirectory("") == [""]
  {
    assert Text.Split("", "/") == [""];
  }

  /** Below the root, a plain reference's segments are kept as they are. */
  lemma RootThenReference(refParts: seq<string>)
    requires |refParts| >= 1 && forall k :: 0 <= k < |refParts| ==> refParts[k] != "" && !IsDotSegment(refParts[k])
    ensures ResolveDots(DropEmptyInner([""] + refParts)) == [""] + refParts
  {
    DropEmptyKeeps([""], [], refParts);
    assert [""] + [] + refParts == [""] + refParts;
    ResolveNoDots([""] + refParts);
  }

  lemma EmptyPathMergesAtRoot(ref: string)
    requires PlainReference(ref)
    ensures MergedPath("", ref) == "/" + ref
  {
    EmptyBaseDirectory();
    RootThenReference(Text.Split(ref, "/"));
    JoinMerged([""], ref);
  }

  /** `<scheme>://<authority>`, or `//<authority>` when there is no scheme. */
  function Origin(u: UrlParts): string {
    (if u.scheme != "" then u.scheme + ":" else "") + "//" + u.netloc
  }

  /** Against a base with an authority and an empty path, a plain reference resolves to `<origin>/<reference>`; the base query and fragment are dropped. */
  lemma EmptyPathGivesRoot(u: UrlParts, ref: string)
    requires UsesRelative(u.scheme) && u.netloc != "" && u.path == ""
    requires PlainReference(ref)
    ensures JoinAgainst(u, ref) == Origin(u) + "/" + ref
  {
    calc {
      JoinAgainst(u, ref);
      Unsplit(u.scheme, u.netloc, MergedPath(JoinBasePath(u), ref));
      { assert JoinBasePath(u) == ""; EmptyPathMergesAtRoot(ref); }
      Unsplit(u.scheme, u.netloc, "/" + ref);
      { UnsplitRooted(u, "/" + ref); }
      Origin(u) + ("/" + ref);
      Origin(u) + "/" + ref;
    }
  }

  /** A rooted path follows the authority as it is. */
  lemma UnsplitRooted(u: UrlParts, path: string)
    requires u.netloc != "" && path != "" && path[0] == '/'
    ensures Unsplit(u.scheme, u.netloc, path) == Origin(u) + path
  {
    UnsplitParts(u.scheme, u.netloc, path);
    AuthorityThenPath(u.scheme, u.netloc, path);
    var prefix := if u.scheme != "" then u.scheme + ":" else "";
    PrefixThenAuthority(prefix, u.netloc, path);
  }

  lemma PrefixThenAuthority(prefix: string, netloc: string, path: string)
    ensures prefix + ("//" + netloc + path) == prefix + "//" + netloc + path
  {
  }

  /** `urlunsplit` writes `scheme:` (when there is a scheme) and then the authority part and the path. */
  lemma UnsplitParts(scheme: string, netloc: string, path: string)
    ensures Unsplit(scheme, netloc, path) == (if scheme != "" then scheme + ":" else "") + WithAuthority(scheme, netloc, path)
  {
  }

  lemma AuthorityThenPath(scheme: string, netloc: string, path: string)
    requires netloc != "" && path != "" && path[0] == '/'
    ensures WithAuthority(scheme, netloc, path) == "//" + netloc + path
  {
  }

  /** What comes before the last `/` of a rooted path, then `/` and a reference, is rooted again. */
  lemma HeadKeepsRoot(path: string, ref: string)
    requires path != "" && path[0] == '/'
    ensures (Text.RSplitHead(path, '/') + "/" + ref)[0] == '/'
  {
    var h := Text.RSplitHead(path, '/');
    if h != "" {
      SlashFirstSplits(path);
      Text.RSplitRejoins(path, '/');
      assert h[0] == path[0];
    }
  }

  /** Against a base with an authority and a plain path, a plain reference replaces the path's last segment; the base query and fragment are dropped. */
  lemma PathGivesSibling(u: UrlParts, ref: string)
    requires UsesRelative(u.scheme) && u.netloc != "" && u.path != "" && u.path[0] == '/'
    requires PlainSegments(Text.Split(u.path, "/"))
    requires PlainReference(ref)
    ensures JoinAgainst(u, ref) == Origin(u) + (Text.RSplitHead(u.path, '/') + "/" + ref)
  {
    SlashFirstSplits(u.path);
    JoinBaseMerges(u, ref);
    ReferenceReplacesLastSegment(u.path, ref);
    var h := Text.RSplitHead(u.path, '/');
    HeadKeepsRoot(u.path, ref);
    UnsplitRooted(u, h + "/" + ref);
  }

  /**
   * Against a base with a scheme but an empty authority and a plain rooted
   * path (`http:/x`), the result keeps an empty authority: `http:///` and the
   * merged path.
   */
  lemma EmptyAuthorityKept(u: UrlParts, ref: string)
    requires UsesRelative(u.scheme) && u.scheme != "" && u.netloc == "" && u.path != "" && u.path[0] == '/'
    requires PlainSegments(Text.Split(u.path, "/"))
    requires PlainReference(ref)
    ensures JoinAgainst(u, ref) == u.scheme + "://" + (Text.RSplitHead(u.path, '/') + "/" + ref)
  {
    SlashFirstSplits(u.path);
    JoinBaseMerges(u, ref);
    ReferenceReplacesLastSegment(u.path, ref);
    var h := Text.RSplitHead(u.path, '/');
    HeadKeepsRoot(u.path, ref);
    HeadThenReference(u.path, ref);
    RelativeHasNetloc(u.scheme);
    UnsplitEmptyAuthority(u.scheme, h + "/" + ref);
  }

  /** The head of a plain rooted path, `/` and a plain reference do not start with `//`, which `urlunsplit` would take for an authority. */
  lemma HeadThenReference(path: string, ref: string)
    requires path != "" && path[0] == '/'
    requires PlainSegments(Text.Split(path, "/"))
    requires PlainReference(ref)
    ensures !Text.StartsWith(Text.RSplitHead(path, '/') + "/" + ref, "//")
  {
    var h := Text.RSplitHead(path, '/');
    ReferenceStart(ref);
    if h == "" {
      assert (h + "/" + ref)[1] == ref[0];
    } else {
      var i := Text.FindLast(path, '/');
      assert h == path[..i] && path[i] == '/';
      SecondNotSlash(path);
      assert (h + "/" + ref)[1] == path[1];
    }
  }

  /** A plain reference is not empty and does not start with `/`. */
  lemma ReferenceStart(ref: string)
    requires PlainReference(ref)
    ensures ref != "" && ref[0] != '/'
  {
    Text.LeadingPiece(ref, '/');
    assert Text.Split(ref, "/")[0] != "";
  }

  /** A rooted path whose inner pieces are not empty does not start with `//`. */
  lemma SecondNotSlash(path: string)
    requires |path| >= 2 && path[0] == '/'
    requires PlainSegments(Text.Split(path, "/"))
    ensures path[1] != '/'
  {
    DoubleSlashPieces(path);
  }

  lemma DoubleSlashPieces(path: string)
    requires |path| >= 2 && path[0] == '/'
    ensures path[1] == '/' ==> |Text.Split(path, "/")| >= 3 && Text.Split(path, "/")[1] == ""
  {
    if path[1] == '/' {
      assert path[..1] == "/" && path[1..][..1] == "/";
      Text.SplitSepFirst(path, '/');
      Text.SplitSepFirst(path[1..], '/');
    }
  }

  /** A base path's directory pieces: the pieces before its last `/`, and an empty piece when nothing follows that `/`. */
  lemma DirectoryAround(h: string, t: string)
    requires forall k :: 0 <= k < |t| ==> t[k] != '/'
    ensures t == "" ==> BaseDirectory(h + "/" + t) == Text.Split(h, "/") + [""]
    ensures t != "" ==> BaseDirectory(h + "/" + t) == Text.Split(h, "/")
  {
    Text.SplitConcat(h, t, '/');
    Text.SplitNoSep(t, '/');
    var pieces := Text.Split(h, "/");
    assert (pieces + [t])[..|pieces|] == pieces;
  }

  /** An empty piece between a non-empty front and a reference is dropped with the other inner empty pieces. */
  lemma InnerEmptyDropped(a: seq<string>, r: seq<string>)
    requires |a| >= 1 && |r| >= 1
    ensures DropEmptyInner(a + [""] + r) == DropEmptyInner(a + r)
  {
    var s1, s2 := a + [""] + r, a + r;
    var front, back := a[1..], r[..|r| - 1];
    assert s1[1..|s1| - 1] == front + [""] + back;
    assert s2[1..|s2| - 1] == front + back;
    NonEmptyAppend(front + [""], back);
    NonEmptyAppend(front, [""]);
    NonEmptyAppend(front, back);
    assert NonEmpty([""]) == [];
    assert front + [] == front;
  }

  /** Two base paths that differ only after their last `/`, and are empty there together or not, merge alike. */
  lemma MergedAround(h: string, t: string, t2: string, ref: string)
    requires forall k :: 0 <= k < |t| ==> t[k] != '/'
    requires forall k :: 0 <= k < |t2| ==> t2[k] != '/'
    requires t == "" ==> t2 == ""
    ensures MergedPath(h + "/" + t2, ref) == MergedPath(h + "/" + t, ref)
  {
    DirectoryAround(h, t);
    DirectoryAround(h, t2);
    if t2 == "" && t != "" {
      MergeSkipsEmpty(Text.Split(h, "/"), ref);
    } else {
      assert BaseDirectory(h + "/" + t2) == BaseDirectory(h + "/" + t);
    }
  }

  lemma MergeSkipsEmpty(a: seq<string>, ref: string)
    requires |a| >= 1
    ensures MergeDirectory(a + [""], ref) == MergeDirectory(a, ref)
  {
    var r := Text.Split(ref, "/");
    InnerEmptyDropped(a, r);
    assert (a + [""]) + r == a + [""] + r;
  }

  /** Below a `/`, cutting off `;params` changes no merged path: the last piece is dropped anyway, or left empty. */
  lemma MergedIgnoresParams(path: string, ref: string)
    requires Text.FindLast(path, '/') >= 0
    ensures MergedPath(PathWithoutParams(path), ref) == MergedPath(path, ref)
  {
    var h, t := Text.RSplitHead(path, '/'), Text.AfterLast(path, '/');
    Text.RSplitRejoins(path, '/');
    MergedAround(h, t, BeforeSemicolon(t), ref);
  }

  lemma JoinBaseMerges(u: UrlParts, ref: string)
    requires Text.FindLast(u.path, '/') >= 0
    ensures MergedPath(JoinBasePath(u), ref) == MergedPath(u.path, ref)
  {
    if UsesParams(u.scheme) {
      MergedIgnoresParams(u.path, ref);
    }
  }

  /** A base path without `/` (after `;params` are cut) merges to the bare reference, or to `/` and the reference when it is empty. */
  lemma SlashFreeMerge(b: string, ref: string)
    requires forall k :: 0 <= k < |b| ==> b[k] != '/'
    requires PlainReference(ref)
    ensures MergedPath(b, ref) == if b == "" then "/" + ref else ref
  {
    if b == "" {
      EmptyPathMergesAtRoot(ref);
    } else {
      Text.SplitNoSep(b, '/');
      var r := Text.Split(ref, "/");
      assert BaseDirectory(b) == [];
      assert [] + r == r;
      ReferenceStart(ref);
      PlainResolves(r);
      Text.JoinSplit(ref, '/');
    }
  }

  /** The pieces of a plain reference survive the dropping of empty pieces and the resolution of dot segments. */
  lemma PlainResolves(r: seq<string>)
    requires |r| >= 1 && forall k :: 0 <= k < |r| ==> r[k] != "" && !IsDotSegment(r[k])
    ensures |r| >= 2 ==> ResolveDots(DropEmptyInner(r)) == r
    ensures ResolveDots(r) == r
  {
    ResolveNoDots(r);
    if |r| >= 2 {
      DropEmptyPlain(r);
    }
  }

  /**
   * Against a base with a scheme, no authority and a path without `/`
   * (`http:x`, `http:;x`, `http:`), a plain reference hangs off an empty
   * authority: `http:///` and the reference.
   */
  lemma UnrootedBaseGetsRoot(u: UrlParts, ref: string)
    requires UsesRelative(u.scheme) && u.scheme != "" && u.netloc == "" && Text.FindLast(u.path, '/') < 0
    requires PlainReference(ref)
    ensures JoinAgainst(u, ref) == u.scheme + ":///" + ref
  {
    var b := JoinBasePath(u);
    SlashFreeBase(u);
    SlashFreeMerge(b, ref);
    ReferenceStart(ref);
    RelativeHasNetloc(u.scheme);
    EmptyAuthorityBeforeReference(u.scheme, MergedPath(b, ref), ref);
  }

  /** Cutting `;params` off a path without `/` leaves a path without `/`. */
  lemma SlashFreeBase(u: UrlParts)
    requires Text.FindLast(u.path, '/') < 0
    ensures forall k :: 0 <= k < |JoinBasePath(u)| ==> JoinBasePath(u)[k] != '/'
  {
    var b := JoinBasePath(u);
    assert forall k :: 0 <= k < |b| ==> b[k] == u.path[k];
  }

  /** The reference, bare or rooted, after an empty authority: `scheme:///` and the reference. */
  lemma EmptyAuthorityBeforeReference(scheme: string, m: string, ref: string)
    requires scheme != "" && UsesNetloc(scheme)
    requires ref != "" && ref[0] != '/'
    requires m == ref || m == "/" + ref
    ensures Unsplit(scheme, "", m) == scheme + ":///" + ref
  {
    RootedReference(m, ref);
    UnsplitParts(scheme, "", m);
    TripleSlash(scheme, ref);
  }

  lemma RootedReference(m: string, ref: string)
    requires ref != "" && ref[0] != '/'
    requires m == ref || m == "/" + ref
    ensures !Text.StartsWith(m, "//") && Rooted(m) == "/" + ref
  {
    if m == ref {
      assert m[0] == ref[0];
    } else {
      assert m[1] == ref[0];
    }
  }

  lemma TripleSlash(scheme: string, ref: string)
    ensures scheme + ":" + ("//" + ("/" + ref)) == scheme + ":///" + ref
  {
  }

  /** Every scheme `urljoin` resolves against has an authority part. */
  lemma RelativeHasNetloc(scheme: string)
    requires UsesRelative(scheme)
    ensures UsesNetloc(scheme)
  {
  }

  /** An empty authority is written as `//` before a rooted path that does not start with `//` when the scheme has one. */
  lemma UnsplitEmptyAuthority(scheme: string, path: string)
    requires scheme != "" && UsesNetloc(scheme) && path != "" && path[0] == '/' && !Text.StartsWith(path, "//")
    ensures Unsplit(scheme, "", path) == scheme + "://" + path
  {
    assert WithAuthority(scheme, "", path) == "//" + path;
    assert scheme + ":" + ("//" + path) == scheme + "://" + path;
  }

  /** `http:/x` has a scheme and a rooted path but no authority; joining keeps the empty authority: `http:///ari/api-docs/resources.json`. */
  lemma SingleSlashBase()
    ensures DiscoveryUrl("http:/x") == "http:///" + DiscoveryPath
  {
    var u := UrlParts("http", "", "/x", "", "");
    SingleSlashSplits();
    SingleSegmentHead();
    DiscoveryPathIsPlain();
    EmptyAuthorityKept(u, DiscoveryPath);
    EmptyHeadThen(DiscoveryPath);
  }

  /** `http:x` has a scheme and no authority, and no `/` in its path: joining gives `http:///ari/api-docs/resources.json`. */
  lemma UnrootedBase()
    ensures DiscoveryUrl("http:x") == "http:///" + DiscoveryPath
  {
    HttpBareBase("x");
    assert "http:" + "x" == "http:x";
  }

  /** `http:;x` has only `;params` for a path, which `urlparse` cuts off: joining gives `http:///ari/api-docs/resources.json` as well. */
  lemma ParamsOnlyBase()
    ensures DiscoveryUrl("http:;x") == "http:///" + DiscoveryPath
  {
    HttpBareBase(";x");
    assert "http:" + ";x" == "http:;x";
  }

  /** `http:` and a path without `/` resolve the discovery reference below an empty authority. */
  lemma HttpBareBase(path: string)
    requires forall k :: 0 <= k < |path| ==> path[k] > ' ' && path[k] != '/' && path[k] != '?' && path[k] != '#' && path[k] != ':'
    ensures DiscoveryUrl("http:" + path) == "http:///" + DiscoveryPath
  {
    DiscoveryPathIsPlain();
    BarePathSplits(path);
    UnrootedBaseGetsRoot(UrlParts("http", "", path, "", ""), DiscoveryPath);
    HttpTripleSlash(DiscoveryPath);
  }

  lemma HttpTripleSlash(rest: string)
    ensures "http" + ":///" + rest == "http:///" + rest
  {
  }

  /** `urlsplit("http:" + path)` for a path without spaces, control characters or delimiters. */
  lemma BarePathSplits(path: string)
    requires forall k :: 0 <= k < |path| ==> path[k] > ' ' && path[k] != '/' && path[k] != '?' && path[k] != '#' && path[k] != ':'
    ensures SplitUrl("http:" + path) == UrlParts("http", "", path, "", "")
    ensures Text.FindLast(path, '/') < 0
  {
    HttpThenClean(path);
    HttpScheme(path);
    BarePathAlone(path);
  }

  /** A path without `/`, `?` or `#` has no authority, query or fragment. */
  lemma BarePathAlone(path: string)
    requires forall k :: 0 <= k < |path| ==> path[k] != '/' && path[k] != '?' && path[k] != '#'
    ensures SplitNetloc(path) == ("", path)
    ensures SplitQuery(path) == (path, "", "")
  {
    assert !Text.StartsWith(path, "//") by {
      if |path| >= 2 { assert path[0] != '/'; }
    }
    assert Text.FindFirst(path, '#') == -1;
    assert Text.FindFirst(path, '?') == -1;
  }

  lemma HttpThenClean(path: string)
    requires forall k :: 0 <= k < |path| ==> path[k] > ' '
    ensures Clean("http:" + path) == "http:" + path
  {
    var raw := "http:" + path;
    assert forall k :: 0 <= k < |raw| ==> raw[k] > ' ' by {
      forall k | 0 <= k < |raw| ensures raw[k] > ' ' {
        if k >= 5 { assert raw[k] == path[k - 5]; }
      }
    }
    CleanKeeps(raw);
  }

  lemma HttpScheme(path: string)
    requires forall k :: 0 <= k < |path| ==> path[k] != ':'
    ensures SplitScheme("http:" + path) == ("http", path)
  {
    var raw := "http:" + path;
    assert raw == "http" + [':'] + path;
    Text.FindFirstAfter("http", ':', path);
    Text.LowerKeeps("http");
    assert raw[..4] == "http" && raw[5..] == path;
    assert forall k :: 0 <= k < 4 ==> IsSchemeChar(raw[k]);
  }

  /** `urlsplit("http:/x")`: a scheme, no authority and the path `/x`. */
  lemma SingleSlashSplits()
    ensures SplitUrl("http:/x") == UrlParts("http", "", "/x", "", "")
  {
    CleanKeeps("http:/x");
    SingleSlashScheme();
    RootedPathAlone();
  }

  /** After the scheme, `/x` has no authority, query or fragment. */
  lemma RootedPathAlone()
    ensures SplitNetloc("/x") == ("", "/x")
    ensures SplitQuery("/x") == ("/x", "", "")
  {
    assert !Text.StartsWith("/x", "//") by { assert "/x"[1] != '/'; }
    assert Text.FindFirst("/x", '#') == -1 by { assert "/x"[0] == '/' && "/x"[1] == 'x'; }
    assert Text.FindFirst("/x", '?') == -1 by { assert "/x"[0] == '/' && "/x"[1] == 'x'; }
  }

  lemma SingleSlashScheme()
    ensures SplitScheme("http:/x") == ("http", "/x")
  {
    var raw := "http:/x";
    assert Text.FindFirst(raw, ':') == 4;
    Text.LowerKeeps("http");
    assert raw[..4] == "http";
    assert raw[5..] == "/x";
  }

  /** The path `/x` is one plain segment under the root. */
  lemma SingleSegmentHead()
    ensures PlainSegments(Text.Split("/x", "/"))
    ensures Text.RSplitHead("/x", '/') == ""
  {
    Text.SplitNoSep("x", '/');
    Text.SplitAtFirst("", "x", '/');
    assert "" + "/" + "x" == "/x";
    Text.RSplitRejoins("/x", '/');
    assert Text.FindLast("/x", '/') == 0;
  }

  lemma EmptyHeadThen(rest: string)
    ensures "http" + "://" + ("" + "/" + rest) == "http:///" + rest
  {
  }

  /** A scheme name as `urlsplit` recognises it, already in lower case. */
  predicate PlainScheme(scheme: string) {
    scheme != "" && IsAsciiLetter(scheme[0]) &&
    forall k :: 0 <= k < |scheme| ==> IsSchemeChar(scheme[k]) && !('A' <= scheme[k] <= 'Z')
  }

  /** A host (with optional user information and port) without spaces, control characters or URL delimiters. */
  predicate PlainHost(host: string) {
    forall k :: 0 <= k < |host| ==> host[k] > ' ' && host[k] != '/' && host[k] != '?' && host[k] != '#'
  }

  lemma CleanKeeps(url: string)
    requires url != "" && url[0] > ' '
    requires forall k :: 0 <= k < |url| ==> url[k] != '\t' && url[k] != '\r' && url[k] != '\n'
    ensures Clean(url) == url
  {
    RemoveBreaksKeeps(url);
  }

  lemma SchemeOfOrigin(scheme: string, host: string)
    requires PlainScheme(scheme)
    ensures SchemeEnd(scheme + "://" + host) == |scheme|
  {
    var url := scheme + "://" + host;
    assert url == scheme + [':'] + ("//" + host);
    Text.FindFirstAfter(scheme, ':', "//" + host);
    assert forall k :: 0 <= k < |scheme| ==> url[k] == scheme[k];
  }

  lemma CleanOrigin(scheme: string, host: string)
    requires PlainScheme(scheme) && PlainHost(host)
    ensures Clean(scheme + "://" + host) == scheme + "://" + host
  {
    var url := scheme + "://" + host;
    assert forall k :: 0 <= k < |url| ==> url[k] != '\t' && url[k] != '\r' && url[k] != '\n' by {
      forall k | 0 <= k < |url| ensures url[k] != '\t' && url[k] != '\r' && url[k] != '\n' {
        if k >= |scheme| + 3 { assert url[k] == host[k - |scheme| - 3]; }
        else if k < |scheme| { assert url[k] == scheme[k]; assert IsSchemeChar(scheme[k]); }
      }
    }
    CleanKeeps(url);
  }

  lemma SchemeSplitOrigin(scheme: string, host: string)
    requires PlainScheme(scheme)
    ensures SplitScheme(scheme + "://" + host) == (scheme, "//" + host)
  {
    var url := scheme + "://" + host;
    SchemeOfOrigin(scheme, host);
    assert url[..|scheme|] == scheme;
    assert url[|scheme| + 1..] == "//" + host;
    Text.LowerKeeps(scheme);
  }

  lemma NetlocOfOrigin(host: string)
    requires PlainHost(host)
    ensures SplitNetloc("//" + host) == (host, "")
  {
    var r := "//" + host;
    assert forall k :: 2 <= k < |r| ==> r[k] == host[k - 2];
    AuthorityToEnd(r, 2);
    assert Text.StartsWith(r, "//") by { assert r[..2] == "//"; }
    assert r[2..|r|] == host;
    assert r[|r|..] == "";
  }

  /** `urlsplit("<scheme>://<host>")` has the host as its authority and nothing else. */
  lemma SplitOrigin(scheme: string, host: string)
    requires PlainScheme(scheme) && PlainHost(host)
    ensures SplitUrl(scheme + "://" + host) == UrlParts(scheme, host, "", "", "")
  {
    CleanOrigin(scheme, host);
    SchemeSplitOrigin(scheme, host);
    NetlocOfOrigin(host);
    assert SplitQuery("") == ("", "", "");
  }

  /**
   * A base URL `<scheme>://<host>` with no path at all (the shape of the
   * configured `ARI_URL`) gives `<scheme>://<host>/ari/api-docs/resources.json`.
   */
  lemma OriginGivesRootDiscovery(scheme: string, host: string)
    requires PlainScheme(scheme) && UsesRelative(scheme) && PlainHost(host) && host != ""
    ensures DiscoveryUrl(scheme + "://" + host) == scheme + "://" + host + "/" + DiscoveryPath
  {
    var url := scheme + "://" + host;
    var u := UrlParts(scheme, host, "", "", "");
    assert DiscoveryUrl(url) == JoinAgainst(u, DiscoveryPath) by {
      SplitOrigin(scheme, host);
    }
    assert JoinAgainst(u, DiscoveryPath) == Origin(u) + "/" + DiscoveryPath by {
      DiscoveryPathIsPlain();
      EmptyPathGivesRoot(u, DiscoveryPath);
    }
    OriginThen(scheme, host, DiscoveryPath);
  }

  lemma OriginThen(scheme: string, host: string, rest: string)
    requires scheme != ""
    ensures Origin(UrlParts(scheme, host, "", "", "")) + "/" + rest == scheme + "://" + host + "/" + rest
  {
    assert scheme + ":" + "//" == scheme + "://";
  }

  lemma DefaultUrlIsOrigin()
    ensures PlainScheme("http") && UsesRelative("http") && PlainHost("localhost:8088")
    ensures DefaultAriUrl == "http" + "://" + "localhost:8088"
  {
    HttpIsPlain();
    LocalhostIsPlain();
    DefaultUrlSpelled();
  }

  lemma HttpIsPlain()
    ensures PlainScheme("http") && UsesRelative("http")
  {
    assert forall k :: 0 <= k < 4 ==> IsSchemeChar("http"[k]);
  }

  lemma LocalhostIsPlain()
    ensures PlainHost("localhost:8088")
  {
  }

  lemma DefaultUrlSpelled()
    ensures DefaultAriUrl == "http" + "://" + "localhost:8088"
  {
  }

  /** The listener's default base URL resolves to its discovery document at the server root. */
  lemma DefaultDiscoveryUrl()
    ensures DiscoveryUrl(DefaultAriUrl) == DefaultAriUrl + "/" + DiscoveryPath
  {
    DefaultUrlIsOrigin();
    OriginGivesRootDiscovery("http", "localhost:8088");
  }

  /** A base whose scheme `urljoin` does not resolve against (or an empty base) yields the bare reference. */
  lemma OpaqueBaseGivesReference(baseUrl: string)
    requires baseUrl == "" || !UsesRelative(SplitUrl(baseUrl).scheme)
    ensures DiscoveryUrl(baseUrl) == DiscoveryPath
  {
  }

  /**
   * `connect(base_url, appname, username, password)`: the discovery URL and
   * the HTTP client the ARI client is built with. `clientAvailable` says
   * whether constructing `SynchronousHttpClient` succeeded; when it did not,
   * no credentials are set and the client is built without one.
   */
  method Connect(baseUrl: string, appname: string, username: string, password: string, clientAvailable: bool)
    returns (specUrl: string, hc: Option<HttpClient.SynchronousHttpClient>)
    ensures specUrl == DiscoveryUrl(baseUrl)
    ensures hc.Some? <==> clientAvailable
    ensures hc.Some? ==> fresh(hc.value) && hc.value.auth == Some((username, password))
  {
    var parts := SplitUrl(baseUrl);
    if clientAvailable {
      var client := new HttpClient.SynchronousHttpClient();
      client.SetBasicAuth(Hostname(parts.netloc), username, password);
      hc := Some(client);
    } else {
      hc := None;
    }
    specUrl := DiscoveryUrl(baseUrl);
  }

  /** `split.hostname`: the authority without user information and port, lower-cased. */
  function Hostname(netloc: string): string {
    var at := Text.FindLast(netloc, '@');
    var hostPort := if at >= 0 then netloc[at + 1..] else netloc;
    var colon := Text.FindFirst(hostPort, ':');
    Text.Lower(if colon >= 0 then hostPort[..colon] else hostPort)
  }
}
