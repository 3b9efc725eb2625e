/** Request-URI text: the path/query split and the anchored prefix patterns that
    select a gem source (`/private`, `/upstream/<escaped url>`). */
module Uri {

  import opened Wrappers

  /** Index of the first '?' in `s` (where the query string begins), or `|s|` when
      there is no query. */
  function QueryStart(s: string): (i: nat)
    ensures i <= |s|
    ensures '?' !in s[..i]
    ensures i < |s| ==> s[i] == '?'
  {
    if s == [] then 0
    else if s[0] == '?' then 0
    else 1 + QueryStart(s[1..])
  }

  /** The path part of a request URI: everything before the first '?'. */
  function PathPart(s: string): (p: string)
    ensures p <= s && '?' !in p
  {
    s[..QueryStart(s)]
  }

  /** The query part of a request URI including its leading '?', or "" when absent. */
  function QueryPart(s: string): (q: string)
    ensures PathPart(s) + q == s
    ensures q == [] || q[0] == '?'
  {
    s[QueryStart(s)..]
  }

  /** Removing (or adding) a leading piece that holds no '?' leaves the query
      string as it was and only shortens (or lengthens) the path. */
  lemma {:induction false} QueryUnderPrefix(p: string, s: string)
    requires '?' !in p
    ensures QueryPart(p + s) == QueryPart(s)
    ensures PathPart(p + s) == p + PathPart(s)
  {
    if p != [] {
      assert (p + s)[0] == p[0];
      assert (p + s)[1..] == p[1..] + s;
      QueryUnderPrefix(p[1..], s);
    } else {
      assert p + s == s;
    }
  }

  /** The longest leading run of characters of `s` that holds no '/': what the
      pattern `[^/]+` consumes. */
  function Segment(s: string): (seg: string)
    ensures seg <= s
    ensures '/' !in seg
    ensures |seg| == |s| || s[|seg|] == '/'
  {
    if s == [] || s[0] == '/' then []
    else [s[0]] + Segment(s[1..])
  }

  /** A segment followed by a '/' (or by nothing) is exactly what `Segment` takes. */
  lemma {:induction false} SegmentOfJoin(u: string, rest: string)
    requires '/' !in u
    requires rest == [] || rest[0] == '/'
    ensures Segment(u + rest) == u
  {
    if u != [] {
      assert (u + rest)[0] == u[0];
      assert (u + rest)[1..] == u[1..] + rest;
      SegmentOfJoin(u[1..], rest);
    }
  }

  /** The two anchored patterns that select a source: a literal prefix
      (`\A/private`), and a literal prefix followed by one non-empty path
      segment that is captured (`\A/upstream/(?<upstream_url>[^/]+)`). */
  datatype Pattern = Prefix(lit: string) | PrefixSegment(lit: string)

  /** A successful anchored match: how many leading characters it covers and
      what the segment group captured ("" for a plain prefix). */
  datatype PrefixMatch = PrefixMatch(length: nat, capture: string)

  const PrivatePattern: Pattern := Prefix("/private")
  const UpstreamPattern: Pattern := PrefixSegment("/upstream/")

  /** Matches `pat` at the start of `s`; the segment group is greedy. */
  function Match(pat: Pattern, s: string): (m: Option<PrefixMatch>)
    ensures m.Some? ==> m.value.length <= |s| && s[..m.value.length] == pat.lit + m.value.capture
    ensures pat.Prefix? ==> (m.Some? <==> pat.lit <= s)
    ensures pat.Prefix? && m.Some? ==> m.value.capture == []
    ensures pat.PrefixSegment? ==>
      (m.Some? <==> pat.lit <= s && |pat.lit| < |s| && s[|pat.lit|] != '/')
    ensures pat.PrefixSegment? && m.Some? ==>
      m.value.capture != [] && '/' !in m.value.capture &&
      (m.value.length == |s| || s[m.value.length] == '/')
  {
    if !(pat.lit <= s) then None
    else match pat
      case Prefix(lit) => Some(PrefixMatch(|lit|, []))
      case PrefixSegment(lit) =>
        var seg := Segment(s[|lit|..]);
        if seg == [] then None
        else
          assert s[..|lit| + |seg|] == lit + seg by {
            assert s[..|lit|] == lit;
          }
          Some(PrefixMatch(|lit| + |seg|, seg))
  }

  /** The characters that `CGI.escape` can emit: the unreserved characters
      `a-zA-Z0-9_.-~`, '+' for a space, and '%' with hexadecimal digits for
      everything else. */
  predicate EscapedChar(c: char)
  {
    ('a' <= c <= 'z') || ('A' <= c <= 'Z') || ('0' <= c <= '9') ||
    c == '_' || c == '.' || c == '-' || c == '~' || c == '%' || c == '+'
  }

  /** A non-empty `CGI.escape` result, as it appears inside an `/upstream/` path. */
  predicate IsEscaped(u: string)
  {
    u != [] && forall i :: 0 <= i < |u| ==> EscapedChar(u[i])
  }

  /** An escaped URL is a single path segment and carries no query separator. */
  lemma EscapedIsSegment(u: string)
    requires IsEscaped(u)
    ensures u != [] && '/' !in u && '?' !in u
  {
  }

  /** An upstream prefix whose segment is followed by a '/' matches exactly
      that segment, whatever follows it. */
  lemma UpstreamMatchOfJoin(u: string, rest: string)
    requires '/' !in u && u != []
    requires rest == [] || rest[0] == '/'
    ensures Match(UpstreamPattern, UpstreamPattern.lit + u + rest)
         == Some(PrefixMatch(|UpstreamPattern.lit| + |u|, u))
  {
    var lit := UpstreamPattern.lit;
    var s := lit + u + rest;
    assert s[|lit|..] == u + rest;
    assert lit <= s;
    SegmentOfJoin(u, rest);
  }
}
