/** Gem-source resolution: the Rack middleware that decides, per request, whether
    the private store, an explicitly named upstream or the default (rubygems)
    upstream serves it, strips the source-selection prefix from the request,
    logs that rewrite, and hands the request on to the wrapped application. */
module GemSource {

  import opened Wrappers
  import opened Uri

  /** The three gem sources, tried in this order. */
  datatype SourceKind = PrivateSource | UpstreamSource | RubygemsSource

  /** The two configuration entries the middleware consults. */
  datatype Config = Config(ignoreGemfileSource: bool, rubygemsUrl: string)

  const DefaultRubygemsUrl: string := "https://rubygems.org"

  /** The configuration used when nothing is overridden. */
  const DefaultConfig: Config := Config(false, DefaultRubygemsUrl)

  /** What the middleware reads from a Rack environment: `REQUEST_URI`,
      `PATH_INFO`, the optional `HTTP_X_GEMFILE_SOURCE` header, and the
      configuration of the `gemstash.env` entry. */
  datatype Request = Request(
    requestUri: string,
    pathInfo: string,
    gemfileSource: Option<string>,
    config: Config)

  /** The outcome of resolving one request: the chosen source, the value to
      store under `gemstash.upstream` (`None` leaves that entry untouched), the
      rewritten `REQUEST_URI` and `PATH_INFO`, and the log line, if any. */
  datatype Resolution = Resolution(
    source: SourceKind,
    upstream: Option<string>,
    requestUri: string,
    pathInfo: string,
    rewrite: Option<string>)

  /** The log record of a path rewrite: both request URIs can be read back
      from their fixed places in the line. */
  function RewriteLine(from: string, to: string): (line: string)
    ensures |line| == |from| + |to| + 18
    ensures line[..11] == "Rewriting '" && line[11..11 + |from|] == from
    ensures line[11 + |from|..17 + |from|] == "' to '"
    ensures line[17 + |from|..|line| - 1] == to && line[|line| - 1] == '\''
  {
    "Rewriting '" + from + "' to '" + to + "'"
  }

  /** The upstream chosen when no prefix selects a source: the configured
      rubygems URL when the header is to be ignored, otherwise the header's
      value when present and the configured URL when not. */
  function DefaultUpstream(req: Request): (u: string)
    ensures u == req.config.rubygemsUrl || req.gemfileSource == Some(u)
    ensures req.config.ignoreGemfileSource || req.gemfileSource.None? ==> u == req.config.rubygemsUrl
    ensures !req.config.ignoreGemfileSource && req.gemfileSource.Some? ==> u == req.gemfileSource.value
  {
    if req.config.ignoreGemfileSource then req.config.rubygemsUrl
    else match req.gemfileSource
      case Some(header) => header
      case None => req.config.rubygemsUrl
  }

  /** `s` is `whole` with some leading characters removed. */
  predicate IsSuffix(s: string, whole: string)
  {
    |s| <= |whole| && whole[|whole| - |s|..] == s
  }

  /** The decision table of the middleware. A pattern selects its source only
      when it matches both `REQUEST_URI` and `PATH_INFO`; the match is then
      removed from each of them independently. */
  function Resolve(req: Request): (res: Resolution)
    ensures res.rewrite.Some? <==> res.source != RubygemsSource
    ensures res.rewrite.Some? ==> res.rewrite.value == RewriteLine(req.requestUri, res.requestUri)
    ensures IsSuffix(res.requestUri, req.requestUri) && IsSuffix(res.pathInfo, req.pathInfo)
    ensures res.source == PrivateSource <==> res.upstream.None?
  {
    var pu, pp := Match(PrivatePattern, req.requestUri), Match(PrivatePattern, req.pathInfo);
    var uu, up := Match(UpstreamPattern, req.requestUri), Match(UpstreamPattern, req.pathInfo);
    if pu.Some? && pp.Some? then
      var uri := req.requestUri[pu.value.length..];
      Resolution(PrivateSource, None, uri, req.pathInfo[pp.value.length..],
                 Some(RewriteLine(req.requestUri, uri)))
    else if uu.Some? && up.Some? then
      var uri := req.requestUri[uu.value.length..];
      Resolution(UpstreamSource, Some(up.value.capture), uri, req.pathInfo[up.value.length..],
                 Some(RewriteLine(req.requestUri, uri)))
    else
      Resolution(RubygemsSource, Some(DefaultUpstream(req)), req.requestUri, req.pathInfo, None)
  }

  /** A request is served privately exactly when both of its paths start with
      `/private`; that prefix is then cut from both and the rewrite logged. */
  lemma ResolvePrivate(req: Request)
    ensures Resolve(req).source == PrivateSource <==>
            PrivatePattern.lit <= req.requestUri && PrivatePattern.lit <= req.pathInfo
    ensures Resolve(req).source == PrivateSource ==>
              req.requestUri == PrivatePattern.lit + Resolve(req).requestUri &&
              req.pathInfo == PrivatePattern.lit + Resolve(req).pathInfo
  {
    var res := Resolve(req);
    var n := |PrivatePattern.lit|;
    if res.source == PrivateSource {
      assert req.requestUri == req.requestUri[..n] + req.requestUri[n..];
      assert req.pathInfo == req.pathInfo[..n] + req.pathInfo[n..];
    }
  }

  /** A request whose paths are `/private` followed by `rest`s is served
      privately, whatever its header and configuration say: the prefix is cut,
      the query string is kept, `gemstash.upstream` is left alone and one
      rewrite line names the old and the new request URI. */
  lemma ResolvePrivateJoin(uriRest: string, pathRest: string, header: Option<string>, config: Config)
    ensures var req := Request(PrivatePattern.lit + uriRest, PrivatePattern.lit + pathRest, header, config);
            Resolve(req) == Resolution(PrivateSource, None, uriRest, pathRest,
                                       Some(RewriteLine(req.requestUri, uriRest))) &&
            QueryPart(Resolve(req).requestUri) == QueryPart(req.requestUri) &&
            PathPart(req.requestUri) == PrivatePattern.lit + PathPart(Resolve(req).requestUri)
  {
    var lit := PrivatePattern.lit;
    assert (lit + uriRest)[|lit|..] == uriRest;
    assert (lit + pathRest)[|lit|..] == pathRest;
    QueryUnderPrefix(lit, uriRest);
  }

  /** Without the private prefix, a request is served by a named upstream
      exactly when both of its paths start with `/upstream/` and a non-empty
      segment; the upstream recorded is the segment captured from `PATH_INFO`. */
  lemma ResolveUpstream(req: Request)
    ensures Resolve(req).source == UpstreamSource <==>
            !(PrivatePattern.lit <= req.requestUri && PrivatePattern.lit <= req.pathInfo) &&
            Match(UpstreamPattern, req.requestUri).Some? && Match(UpstreamPattern, req.pathInfo).Some?
    ensures Resolve(req).source == UpstreamSource ==>
              var mu, mp := Match(UpstreamPattern, req.requestUri).value, Match(UpstreamPattern, req.pathInfo).value;
              req.requestUri == UpstreamPattern.lit + mu.capture + Resolve(req).requestUri &&
              req.pathInfo == UpstreamPattern.lit + mp.capture + Resolve(req).pathInfo &&
              Resolve(req).upstream == Some(mp.capture)
  {
    var pu, pp := Match(PrivatePattern, req.requestUri), Match(PrivatePattern, req.pathInfo);
    var uu, up := Match(UpstreamPattern, req.requestUri), Match(UpstreamPattern, req.pathInfo);
    var res := Resolve(req);
    if pu.Some? && pp.Some? {
      assert res.source == PrivateSource;
    } else if uu.Some? && up.Some? {
      var mu, mp := uu.value, up.value;
      assert res.requestUri == req.requestUri[mu.length..];
      assert res.pathInfo == req.pathInfo[mp.length..];
      assert req.requestUri == req.requestUri[..mu.length] + req.requestUri[mu.length..];
      assert req.pathInfo == req.pathInfo[..mp.length] + req.pathInfo[mp.length..];
    } else {
      assert res.source == RubygemsSource;
    }
  }

  /** No `/upstream/...` path starts with `/private`. */
  lemma UpstreamIsNotPrivate(s: string)
    requires UpstreamPattern.lit <= s
    ensures !(PrivatePattern.lit <= s)
  {
    assert s[1] == UpstreamPattern.lit[1];
  }

  /** A request whose paths are `/upstream/<u>` followed by `/`-led rests, with
      `u` an escaped URL, is served by upstream `u` whatever its header and
      configuration say: prefix and segment are cut, the query string is
      kept, and one rewrite line names the old and the new request URI. */
  lemma ResolveUpstreamJoin(u: string, uriRest: string, pathRest: string,
                            header: Option<string>, config: Config)
    requires IsEscaped(u)
    requires uriRest == [] || uriRest[0] == '/'
    requires pathRest == [] || pathRest[0] == '/'
    ensures var req := Request(UpstreamPattern.lit + u + uriRest, UpstreamPattern.lit + u + pathRest,
                               header, config);
            Resolve(req) == Resolution(UpstreamSource, Some(u), uriRest, pathRest,
                                       Some(RewriteLine(req.requestUri, uriRest))) &&
            QueryPart(Resolve(req).requestUri) == QueryPart(req.requestUri) &&
            PathPart(req.requestUri) == UpstreamPattern.lit + u + PathPart(Resolve(req).requestUri)
  {
    var lit := UpstreamPattern.lit;
    EscapedIsSegment(u);
    UpstreamMatchOfJoin(u, uriRest);
    UpstreamMatchOfJoin(u, pathRest);
    UpstreamIsNotPrivate(lit + u + uriRest);
    var n := |lit| + |u|;
    assert (lit + u + uriRest)[n..] == uriRest;
    assert (lit + u + pathRest)[n..] == pathRest;
    assert lit + u + uriRest == (lit + u) + uriRest;
    QueryUnderPrefix(lit + u, uriRest);
  }

  /** When the query string follows the escaped URL directly (no '/' between
      them), the greedy segment of `REQUEST_URI` takes the query too: the
      request is still served by upstream `u`, but its `REQUEST_URI` becomes
      empty and the query string is lost. */
  lemma ResolveUpstreamQueryInSegment(u: string, query: string, pathRest: string,
                                      header: Option<string>, config: Config)
    requires IsEscaped(u)
    requires query != [] && query[0] == '?' && '/' !in query
    requires pathRest == [] || pathRest[0] == '/'
    ensures var req := Request(UpstreamPattern.lit + u + query, UpstreamPattern.lit + u + pathRest,
                               header, config);
            Resolve(req) == Resolution(UpstreamSource, Some(u), "", pathRest,
                                       Some(RewriteLine(req.requestUri, ""))) &&
            QueryPart(req.requestUri) == query && QueryPart(Resolve(req).requestUri) == ""
  {
    var lit := UpstreamPattern.lit;
    EscapedIsSegment(u);
    assert '/' !in u + query;
    assert lit + u + query == lit + (u + query) + [];
    UpstreamMatchOfJoin(u + query, []);
    UpstreamMatchOfJoin(u, pathRest);
    UpstreamIsNotPrivate(lit + u + query);
    var n := |lit| + |u|;
    assert (lit + u + pathRest)[n..] == pathRest;
    assert lit + u + query == (lit + u) + query;
    QueryUnderPrefix(lit + u, query);
  }

  /** A request that neither pattern selects for both paths goes to the
      rubygems source: its paths stay as they are, nothing is logged, and the
      upstream is the one `DefaultUpstream` picks. */
  lemma ResolveRubygems(req: Request)
    ensures Resolve(req).source == RubygemsSource <==>
            !(PrivatePattern.lit <= req.requestUri && PrivatePattern.lit <= req.pathInfo) &&
            !(Match(UpstreamPattern, req.requestUri).Some? && Match(UpstreamPattern, req.pathInfo).Some?)
    ensures Resolve(req).source == RubygemsSource ==>
              Resolve(req) == Resolution(RubygemsSource, Some(DefaultUpstream(req)),
                                         req.requestUri, req.pathInfo, None)
  {
  }

  /** The header names the upstream of an unprefixed request when the
      configuration does not ignore it. */
  lemma ResolveHeaderUpstream(req: Request, url: string)
    requires Match(PrivatePattern, req.requestUri).None? && Match(UpstreamPattern, req.requestUri).None?
    requires req.gemfileSource == Some(url) && !req.config.ignoreGemfileSource
    ensures Resolve(req) == Resolution(RubygemsSource, Some(url), req.requestUri, req.pathInfo, None)
  {
  }

  /** When the configuration ignores the header, an unprefixed request uses
      the configured rubygems URL, whatever the header says. */
  lemma ResolveIgnoredHeader(req: Request)
    requires Match(PrivatePattern, req.requestUri).None? && Match(UpstreamPattern, req.requestUri).None?
    requires req.config.ignoreGemfileSource
    ensures Resolve(req) == Resolution(RubygemsSource, Some(req.config.rubygemsUrl),
                                       req.requestUri, req.pathInfo, None)
  {
  }

  /** Without a header, an unprefixed request uses the configured rubygems URL. */
  lemma ResolveNoHeader(req: Request)
    requires Match(PrivatePattern, req.requestUri).None? && Match(UpstreamPattern, req.requestUri).None?
    requires req.gemfileSource.None?
    ensures Resolve(req) == Resolution(RubygemsSource, Some(req.config.rubygemsUrl),
                                       req.requestUri, req.pathInfo, None)
  {
  }

  /** A Rack response triple, as returned by the wrapped application. */
  datatype Response = Response(status: nat, headers: map<string, string>, body: seq<string>)

  /** What the wrapped application can observe of an environment. */
  datatype EnvState = EnvState(
    request: Request,
    gemSource: Option<SourceKind>,
    upstream: Option<string>)

  /** The Rack environment of one request: the entries the middleware reads
      and writes, and the log it appends to. */
  class Env {
    var requestUri: string
    var pathInfo: string
    const gemfileSource: Option<string>
    const config: Config
    var gemSource: Option<SourceKind>   // `gemstash.gem_source`
    var upstream: Option<string>        // `gemstash.upstream`
    var log: seq<string>

    constructor (requestUri: string, pathInfo: string, gemfileSource: Option<string>, config: Config)
      ensures this.requestUri == requestUri && this.pathInfo == pathInfo
      ensures this.gemfileSource == gemfileSource && this.config == config
      ensures gemSource == None && upstream == None && log == []
    {
      this.requestUri := requestUri;
      this.pathInfo := pathInfo;
      this.gemfileSource := gemfileSource;
      this.config := config;
      gemSource := None;
      upstream := None;
      log := [];
    }

    /** The request as the middleware reads it. */
    function AsRequest(): (req: Request)
      reads this
    {
      Request(requestUri, pathInfo, gemfileSource, config)
    }

    /** What the wrapped application sees of this environment. */
    function State(): (st: EnvState)
      reads this
    {
      EnvState(AsRequest(), gemSource, upstream)
    }

    /** Cuts the matched prefixes from `REQUEST_URI` and `PATH_INFO` and logs
        the rewrite of the request URI. */
    method Rewrite(uriLength: nat, pathLength: nat)
      requires uriLength <= |requestUri| && pathLength <= |pathInfo|
      modifies this
      ensures requestUri == old(requestUri)[uriLength..] && pathInfo == old(pathInfo)[pathLength..]
      ensures log == old(log) + [RewriteLine(old(requestUri), requestUri)]
      ensures gemSource == old(gemSource) && upstream == old(upstream)
    {
      var logStart := requestUri;
      requestUri := requestUri[uriLength..];
      pathInfo := pathInfo[pathLength..];
      log := log + [RewriteLine(logStart, requestUri)];
    }
  }

  /** The wrapped application, as the test double it is: it answers every
      call with the same response and remembers the environment it saw. */
  class App {
    const result: Response
    var received: seq<EnvState>

    constructor (result: Response)
      ensures this.result == result && received == []
    {
      this.result := result;
      received := [];
    }

    method Call(env: Env) returns (r: Response)
      modifies this
      ensures received == old(received) + [env.State()]
      ensures r == result
    {
      received := received + [env.State()];
      r := result;
    }
  }

  class RackMiddleware {
    const app: App

    constructor (app: App)
      ensures this.app == app
    {
      this.app := app;
    }

    /** Resolves the source of `env` in place (private, then upstream, then
        rubygems), then calls the wrapped application once with the updated
        environment and returns its response unchanged. */
    method Call(env: Env) returns (r: Response)
      modifies env, app
      ensures var res := Resolve(old(env.AsRequest()));
              env.gemSource == Some(res.source) &&
              env.requestUri == res.requestUri && env.pathInfo == res.pathInfo &&
              env.upstream == (if res.upstream.Some? then res.upstream else old(env.upstream)) &&
              env.log == old(env.log) + (if res.rewrite.Some? then [res.rewrite.value] else [])
      ensures app.received == old(app.received) + [env.State()]
      ensures r == app.result
    {
      var pu, pp := Match(PrivatePattern, env.requestUri), Match(PrivatePattern, env.pathInfo);
      var uu, up := Match(UpstreamPattern, env.requestUri), Match(UpstreamPattern, env.pathInfo);
      if pu.Some? && pp.Some? {
        env.Rewrite(pu.value.length, pp.value.length);
        env.gemSource := Some(PrivateSource);
      } else if uu.Some? && up.Some? {
        env.Rewrite(uu.value.length, up.value.length);
        env.upstream := Some(up.value.capture);
        env.gemSource := Some(UpstreamSource);
      } else {
        env.upstream := Some(DefaultUpstream(env.AsRequest()));
        env.gemSource := Some(RubygemsSource);
      }
      r := app.Call(env);
    }
  }
}
