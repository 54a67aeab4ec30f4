/**
 * The part of a parsed URL that the clients touch: resolving a relative-path
 * reference against a base (the `Url::join` calls) and appending query pairs
 * (the `query_pairs_mut().append_pair` calls), with the serialisation that is
 * handed to the HTTP layer and the parse that reads a path or query back.
 */
module Urls {
  import opened Wrappers
  import opened Decimal
  import opened Text

  /** One `key=value` pair of the query, before form encoding. */
  type Pair = (string, string)

  /** A hierarchical path is a list of segments ("/" is the one empty segment); a
      cannot-be-a-base URL such as `mailto:x` has an opaque path instead. */
  datatype Path = Segments(segments: seq<string>) | Opaque(text: string)

  datatype Url = Url(
    scheme: string,
    userinfo: string,
    host: Option<string>,
    port: Option<U16>,
    path: Path,
    query: Option<seq<Pair>>,
    fragment: Option<string>)

  /** The one way a relative-path join can fail. */
  datatype ParseError = RelativeUrlWithCannotBeABaseBase

  /** No segment of a hierarchical path contains the separator. */
  predicate Valid(u: Url) {
    u.path.Segments? ==> forall k :: 0 <= k < |u.path.segments| ==> '/' !in u.path.segments[k]
  }

  /** Scheme, user information, host and port agree. */
  predicate SameAuthority(a: Url, b: Url) {
    a.scheme == b.scheme && a.userinfo == b.userinfo && a.host == b.host && a.port == b.port
  }

  /** A character of an RFC 3986 `segment-nz-nc` that needs no percent-encoding. */
  predicate SegmentChar(c: char) {
    'a' <= c <= 'z' || 'A' <= c <= 'Z' || '0' <= c <= '9' ||
    c == '-' || c == '.' || c == '_' || c == '~' || c == '!' || c == '$' || c == '&' ||
    c == '\'' || c == '(' || c == ')' || c == '*' || c == '+' || c == ',' || c == ';' ||
    c == '=' || c == '@'
  }

  predicate IsDotSegment(s: string) {
    s == "." || s == ".."
  }

  /** A segment that needs no percent-encoding and is not a dot segment. */
  predicate PlainSegment(s: string) {
    !IsDotSegment(s) && forall i :: 0 <= i < |s| ==> SegmentChar(s[i])
  }

  /** A relative-path reference (RFC 3986, section 4.2) with no scheme, query or
      fragment, no leading '/', and plain segments; or the empty reference. */
  predicate PlainRelativeRef(r: string) {
    r == "" || (r[0] != '/' && forall seg :: seg in Split(r, '/') ==> PlainSegment(seg))
  }

  lemma PlainSegmentHasNoSlash(s: string)
    requires PlainSegment(s)
    ensures '/' !in s
  {
    assert forall i :: 0 <= i < |s| ==> s[i] != '/';
  }

  /** Plain segments joined with '/' form a plain reference that splits back into them. */
  lemma PlainReference(parts: seq<string>)
    requires |parts| > 0 && parts[0] != ""
    requires forall k :: 0 <= k < |parts| ==> PlainSegment(parts[k])
    ensures Split(JoinWith(parts, '/'), '/') == parts
    ensures PlainRelativeRef(JoinWith(parts, '/'))
  {
    forall k | 0 <= k < |parts| ensures '/' !in parts[k] {
      PlainSegmentHasNoSlash(parts[k]);
    }
    SplitJoin(parts, '/');
    JoinWithStart(parts, '/');
    var r := JoinWith(parts, '/');
    assert r[0] == r[..|parts[0]|][0] == parts[0][0];
    assert SegmentChar(parts[0][0]);
  }

  function DropLast(segs: seq<string>): (r: seq<string>)
    ensures |segs| > 0 ==> segs == r + [segs[|segs| - 1]]
    ensures |segs| == 0 ==> r == []
  {
    if segs == [] then [] else segs[..|segs| - 1]
  }

  /** The merge of section 5.2.3 of RFC 3986: the base path without its last segment,
      then the reference's segments. */
  function Merge(base: seq<string>, reference: seq<string>): seq<string> {
    DropLast(base) + reference
  }

  /** The base with its path merged with `segs` and no query or fragment: what
      resolving a non-empty relative-path reference gives. */
  function Resolved(base: Url, segs: seq<string>): Url
    requires base.path.Segments?
  {
    base.(path := Segments(Merge(base.path.segments, segs)), query := None, fragment := None)
  }

  /** `Url::join` for a plain relative-path reference: the reference resolution of
      section 5.2.2 of RFC 3986. An empty reference keeps the base's path and query. */
  function Join(base: Url, reference: string): (r: Result<Url, ParseError>)
    requires PlainRelativeRef(reference)
    ensures r.Failure? <==> base.path.Opaque?
    ensures r.Success? ==> SameAuthority(r.value, base) && r.value.fragment == None
    ensures r.Success? && reference == "" ==> r.value.path == base.path && r.value.query == base.query
    ensures r.Success? && reference != "" ==> r.value == Resolved(base, Split(reference, '/'))
    ensures r.Success? && Valid(base) ==> Valid(r.value)
  {
    match base.path
    case Opaque(_) => Failure(RelativeUrlWithCannotBeABaseBase)
    case Segments(segs) =>
      if reference == "" then Success(base.(fragment := None))
      else Success(base.(path := Segments(Merge(segs, Split(reference, '/'))), query := None, fragment := None))
  }

  /** Joining onto a URL that was resolved to a directory (its last segment empty)
      replaces that empty segment by the reference's segments. */
  lemma JoinUnderDirectory(server: Url, directory: seq<string>, reference: string)
    requires server.path.Segments? && PlainRelativeRef(reference)
    requires |directory| > 0 && directory[|directory| - 1] == ""
    ensures Join(Resolved(server, directory), reference)
            == Success(Resolved(server, DropLast(directory) + Split(reference, '/')))
  {
    var base := Resolved(server, directory);
    if reference == "" {
      assert Split(reference, '/') == [""];
      assert DropLast(directory) + [""] == directory;
    } else {
      var segs := server.path.segments;
      assert DropLast(Merge(segs, directory)) == DropLast(segs) + DropLast(directory);
      assert Merge(Merge(segs, directory), Split(reference, '/'))
          == Merge(segs, DropLast(directory) + Split(reference, '/'));
    }
  }

  /** The query pairs of `u`; none when it has no query. */
  function Pairs(u: Url): seq<Pair> {
    if u.query.Some? then u.query.value else []
  }

  /** `query_pairs_mut().append_pair(key, value)`: a query is created if there was none. */
  function AppendPair(u: Url, key: string, value: string): (r: Url)
    ensures r.(query := u.query) == u
    ensures r.query.Some?
    ensures Pairs(r) == Pairs(u) + [(key, value)]
  {
    u.(query := Some(Pairs(u) + [(key, value)]))
  }

  /** Characters that application/x-www-form-urlencoded serialisation writes unchanged. */
  predicate FormInertChar(c: char) {
    'a' <= c <= 'z' || 'A' <= c <= 'Z' || '0' <= c <= '9' || c == '*' || c == '-' || c == '.' || c == '_'
  }

  predicate FormInert(s: string) {
    forall i :: 0 <= i < |s| ==> FormInertChar(s[i])
  }

  function PairText(p: Pair): string {
    p.0 + "=" + p.1
  }

  function PairTexts(q: seq<Pair>): (r: seq<string>)
    ensures |r| == |q|
  {
    if q == [] then [] else [PairText(q[0])] + PairTexts(q[1..])
  }

  /** The query string: `key=value` pairs separated by '&'. */
  function QueryString(q: seq<Pair>): string {
    JoinWith(PairTexts(q), '&')
  }

  /** A pair split at its first '='; a piece without '=' has an empty value. */
  function ParsePair(piece: string): Pair {
    var i := IndexOf(piece, '=');
    if i == |piece| then (piece, "") else (piece[..i], piece[i + 1..])
  }

  function ParsePairs(pieces: seq<string>): (r: seq<Pair>)
    ensures |r| == |pieces|
  {
    if pieces == [] then [] else [ParsePair(pieces[0])] + ParsePairs(pieces[1..])
  }

  /** How the receiving side reads a query string back into pairs. */
  function ParseQuery(s: string): seq<Pair> {
    if s == "" then [] else ParsePairs(Split(s, '&'))
  }

  lemma {:induction false} ParsePairTexts(q: seq<Pair>)
    requires forall k :: 0 <= k < |q| ==> FormInert(q[k].0) && FormInert(q[k].1)
    ensures ParsePairs(PairTexts(q)) == q
  {
    if q != [] {
      var k := q[0].0;
      FirstSeparator(k, '=', q[0].1);
      assert (k + "=" + q[0].1)[..|k|] == k;
      assert (k + "=" + q[0].1)[|k| + 1..] == q[0].1;
      ParsePairTexts(q[1..]);
    }
  }

  /** Reading back a serialised query gives the appended pairs, in order. */
  lemma QueryRoundTrip(q: seq<Pair>)
    requires forall k :: 0 <= k < |q| ==> FormInert(q[k].0) && FormInert(q[k].1)
    ensures ParseQuery(QueryString(q)) == q
  {
    if q != [] {
      var texts := PairTexts(q);
      forall k | 0 <= k < |texts| ensures '&' !in texts[k] {
        assert texts[k] == PairText(q[k]) by { PairTextsAt(q, k); }
      }
      SplitJoin(texts, '&');
      ParsePairTexts(q);
      assert QueryString(q) != "" by {
        assert |texts| == 1 || |texts| > 1;
        assert '=' in texts[0];
      }
    }
  }

  lemma {:induction false} PairTextsAt(q: seq<Pair>, k: nat)
    requires k < |q|
    ensures PairTexts(q)[k] == PairText(q[k])
  {
    if k > 0 {
      PairTextsAt(q[1..], k - 1);
    }
  }

  /** The path as written in the URL. */
  function PathText(p: Path): string {
    match p
    case Opaque(text) => text
    case Segments(segs) => if segs == [] then "" else "/" + JoinWith(segs, '/')
  }

  /** How the receiving side reads a hierarchical path back into segments. */
  function ParsePath(s: string): seq<string>
    requires s == "" || s[0] == '/'
  {
    if s == "" then [] else Split(s[1..], '/')
  }

  /** Reading back a serialised path gives its segments. */
  /** Resolving '/'-free segments against a valid base reads back as the base's
      directory followed by those segments. */
  lemma ResolvedPathRoundTrip(base: Url, segs: seq<string>)
    requires Valid(base) && base.path.Segments?
    requires forall k :: 0 <= k < |segs| ==> '/' !in segs[k]
    ensures ParsePath(PathText(Resolved(base, segs).path)) == DropLast(base.path.segments) + segs
  {
    var init := DropLast(base.path.segments);
    var all := init + segs;
    assert forall k :: 0 <= k < |all| ==> '/' !in all[k] by {
      assert forall k :: 0 <= k < |init| ==> '/' !in init[k];
    }
    PathRoundTrip(all);
  }

  lemma PathRoundTrip(segs: seq<string>)
    requires forall k :: 0 <= k < |segs| ==> '/' !in segs[k]
    ensures PathText(Segments(segs)) == "" || PathText(Segments(segs))[0] == '/'
    ensures ParsePath(PathText(Segments(segs))) == segs
  {
    if segs != [] {
      var s := PathText(Segments(segs));
      assert s[1..] == JoinWith(segs, '/');
      SplitJoin(segs, '/');
    }
  }

  /** The path and query as the server sees them in the request line. */
  function PathAndQuery(u: Url): string {
    PathText(u.path) + (if u.query.Some? then "?" + QueryString(u.query.value) else "")
  }

  /** A non-empty hierarchical path with a single query pair is sent as
      `/segments?key=value`. */
  lemma SinglePairText(u: Url, key: string, value: string)
    requires u.path.Segments? && u.path.segments != [] && u.query == Some([(key, value)])
    ensures PathAndQuery(u) == "/" + JoinWith(u.path.segments, '/') + "?" + key + "=" + value
  {
    assert PairTexts([(key, value)]) == [key + "=" + value];
  }

  /** The scheme and, when there is a host, the authority: what precedes the path. */
  function Origin(u: Url): string {
    var authority :=
      if u.host.None? then ""
      else "//" + (if u.userinfo == "" then "" else u.userinfo + "@") + u.host.value
           + (if u.port.Some? then ":" + Render(u.port.value) else "");
    u.scheme + ":" + authority
  }

  /** The serialisation (`Url::as_str`) handed to the HTTP layer. */
  function Href(u: Url): string {
    Origin(u) + PathAndQuery(u) + (if u.fragment.Some? then "#" + u.fragment.value else "")
  }

  /** Merging a reference onto segments that end with an empty one appends the
      reference's text to the path text. */
  lemma MergeAfterDirectory(segs: seq<string>, reference: string)
    requires |segs| > 0 && segs[|segs| - 1] == "" && reference != ""
    ensures PathText(Segments(Merge(segs, Split(reference, '/')))) == PathText(Segments(segs)) + reference
  {
    var init := DropLast(segs);
    var refSegs := Split(reference, '/');
    JoinSplit(reference, '/');
    assert segs == init + [""];
    if init == [] {
      assert JoinWith(segs, '/') == "";
      assert Merge(segs, refSegs) == refSegs;
    } else {
      JoinWithAppend(init, [""], '/');
      assert JoinWith(segs, '/') == JoinWith(init, '/') + "/";
      JoinWithAppend(init, refSegs, '/');
      assert JoinWith(Merge(segs, refSegs), '/') == JoinWith(init, '/') + "/" + reference;
    }
  }

  /** Joining onto a base whose path ends in '/' appends the reference's text to the
      base's path text. */
  lemma DirectoryJoinAppends(base: Url, reference: string)
    requires PlainRelativeRef(reference)
    requires base.path.Segments? && |base.path.segments| > 0
    requires base.path.segments[|base.path.segments| - 1] == ""
    ensures Join(base, reference).Success?
    ensures PathText(Join(base, reference).value.path) == PathText(base.path) + reference
  {
    if reference != "" {
      MergeAfterDirectory(base.path.segments, reference);
    }
  }
}
