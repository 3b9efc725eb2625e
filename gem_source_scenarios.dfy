/** The five request scenarios of the gem-source tests. Each method builds the
    scenario's environment, passes it to the middleware in front of an
    application double, and its ensures restate what the test expects of the
    environment, the log and the returned response. */
module GemSourceScenarios {

  import opened Wrappers
  import opened Uri
  import opened GemSource

  const SomeGemsite: string := "https://some.gemsite.com"

  /** `CGI.escape` of `SomeGemsite`. */
  const EscapedGemsite: string := "https%3A%2F%2Fsome.gemsite.com"

  lemma EscapedGemsiteIsEscaped()
    ensures IsEscaped(EscapedGemsite)
  {
  }

  /** A fresh middleware in front of a fresh application double. */
  method Stack(result: Response) returns (app: App, middleware: RackMiddleware)
    ensures fresh(app) && app.result == result && app.received == [] && middleware.app == app
  {
    app := new App(result);
    middleware := new RackMiddleware(app);
  }

  method PrivateScenario(result: Response) returns (env: Env, r: Response, app: App)
    ensures r == result && app.received == [env.State()]
    ensures env.gemSource == Some(PrivateSource)
    ensures env.requestUri == "/some/path?arg=abc" && env.pathInfo == "/some/path"
    ensures env.log == [RewriteLine("/private/some/path?arg=abc", "/some/path?arg=abc")]
  {
    var middleware;
    app, middleware := Stack(result);
    var uriRest, pathRest := "/some/path?arg=abc", "/some/path";
    env := new Env("/private/some/path?arg=abc", "/private/some/path", None, DefaultConfig);
    ghost var req := env.AsRequest();
    assert req.requestUri == PrivatePattern.lit + uriRest;
    assert req.pathInfo == PrivatePattern.lit + pathRest;
    ResolvePrivateJoin(uriRest, pathRest, None, DefaultConfig);
    assert Resolve(req) == Resolution(PrivateSource, None, uriRest, pathRest,
                                      Some(RewriteLine(req.requestUri, uriRest)));
    r := middleware.Call(env);
  }

  method UpstreamScenario(result: Response) returns (env: Env, r: Response, app: App)
    ensures r == result && app.received == [env.State()]
    ensures env.gemSource == Some(UpstreamSource)
    ensures env.upstream == Some(EscapedGemsite)
    ensures env.requestUri == "/some/path?arg=abc" && env.pathInfo == "/some/path"
    ensures env.log == [RewriteLine("/upstream/" + EscapedGemsite + "/some/path?arg=abc", "/some/path?arg=abc")]
  {
    var middleware;
    app, middleware := Stack(result);
    var uriRest, pathRest := "/some/path?arg=abc", "/some/path";
    env := new Env(UpstreamPattern.lit + EscapedGemsite + uriRest,
                   UpstreamPattern.lit + EscapedGemsite + pathRest, None, DefaultConfig);
    ghost var req := env.AsRequest();
    EscapedGemsiteIsEscaped();
    ResolveUpstreamJoin(EscapedGemsite, uriRest, pathRest, None, DefaultConfig);
    assert Resolve(req) == Resolution(UpstreamSource, Some(EscapedGemsite), uriRest, pathRest,
                                      Some(RewriteLine(req.requestUri, uriRest)));
    r := middleware.Call(env);
  }

  /** Neither test path of the unprefixed scenarios selects the private or an
      upstream source. */
  lemma UnprefixedPath()
    ensures Match(PrivatePattern, "/some/path?arg=abc").None?
    ensures Match(UpstreamPattern, "/some/path?arg=abc").None?
  {
    assert "/some/path?arg=abc"[1] != PrivatePattern.lit[1];
    assert "/some/path?arg=abc"[1] != UpstreamPattern.lit[1];
  }

  method HeaderScenario(result: Response) returns (env: Env, r: Response, app: App)
    ensures r == result && app.received == [env.State()]
    ensures env.gemSource == Some(RubygemsSource)
    ensures env.upstream == Some(SomeGemsite)
    ensures env.requestUri == "/some/path?arg=abc" && env.pathInfo == "/some/path"
    ensures env.log == []
  {
    var middleware;
    app, middleware := Stack(result);
    env := new Env("/some/path?arg=abc", "/some/path", Some(SomeGemsite), DefaultConfig);
    UnprefixedPath();
    ResolveHeaderUpstream(env.AsRequest(), SomeGemsite);
    r := middleware.Call(env);
  }

  method IgnoredHeaderScenario(result: Response) returns (env: Env, r: Response, app: App)
    ensures r == result && app.received == [env.State()]
    ensures env.gemSource == Some(RubygemsSource)
    ensures env.upstream == Some(DefaultRubygemsUrl)
    ensures env.requestUri == "/some/path?arg=abc" && env.pathInfo == "/some/path"
    ensures env.log == []
  {
    var middleware;
    app, middleware := Stack(result);
    var config := Config(true, DefaultRubygemsUrl);
    env := new Env("/some/path?arg=abc", "/some/path", Some(SomeGemsite), config);
    UnprefixedPath();
    ResolveIgnoredHeader(env.AsRequest());
    r := middleware.Call(env);
  }

  method DefaultUpstreamScenario(result: Response) returns (env: Env, r: Response, app: App)
    ensures r == result && app.received == [env.State()]
    ensures env.gemSource == Some(RubygemsSource)
    ensures env.upstream == Some(DefaultRubygemsUrl)
    ensures env.requestUri == "/some/path?arg=abc" && env.pathInfo == "/some/path"
    ensures env.log == []
  {
    var middleware;
    app, middleware := Stack(result);
    env := new Env("/some/path?arg=abc", "/some/path", None, DefaultConfig);
    UnprefixedPath();
    ResolveNoHeader(env.AsRequest());
    r := middleware.Call(env);
  }
}
