# Gemstash gem-source resolution, modelled in Dafny

Gemstash is a caching proxy for gem servers. Each request first passes through
the gem-source Rack middleware (`Gemstash::GemSource::RackMiddleware#call`).
The middleware picks the source that serves the request:

- `PrivateSource`: the path starts with `/private`;
- `UpstreamSource`: the path is `/upstream/<CGI-escaped url>/...`;
- `RubygemsSource`: anything else.

For the rubygems source, the `HTTP_X_GEMFILE_SOURCE` header names the upstream
unless the configuration sets `ignore_gemfile_source`; the configured
rubygems URL (`https://rubygems.org` by default) is used otherwise. The
middleware stores the chosen source in `gemstash.gem_source` and the upstream
in `gemstash.upstream`. It strips the selection prefix from `REQUEST_URI` and
`PATH_INFO` in place. For `/private` the query string of `REQUEST_URI` is
always kept. For `/upstream/<u>` it is kept only when `/` or nothing follows
the segment: a `?` right after the segment is taken into it, and the query is
lost. It logs `Rewriting '<old REQUEST_URI>' to '<new REQUEST_URI>'` exactly when it
rewrote the path. It then calls the wrapped application once with the updated
environment and returns that application's response.

Files:

- `wrappers.dfy`: module `Wrappers`, the `Option` type.
- `uri.dfy`: module `Uri`, covering three pieces:
  - the path/query split of a request URI;
  - the greedy `[^/]+` segment;
  - the two anchored prefix patterns, `\A/private` and `\A/upstream/(?<upstream_url>[^/]+)`.
- `gem_source.dfy`: module `GemSource`, holding:
  - the decision table `Resolve`, a pure function, with one lemma per case;
  - the Rack environment as a class `Env`, with in-place fields and a log;
  - the application double `App`;
  - `RackMiddleware.Call`, which updates the environment in place and is proved against `Resolve`.
- `gem_source_scenarios.dfy`: module `GemSourceScenarios`, one method per
  scenario of `spec/gemstash/gem_source_spec.rb`. Each method builds that
  scenario's `Env` and passes it to `RackMiddleware.Call`. Its `ensures`
  restate that test's expectations.

The middleware's implementation file is not part of this model. The behaviour
modelled is the one the tests assert, plus the resolution order private, then
upstream, then rubygems. Where the tests leave a choice open, the model
decides as follows:

- A pattern selects its source only if it matches both `REQUEST_URI` and
  `PATH_INFO`. The match is then cut from each field independently. Every test
  sets both fields alike.
- `/private` is a plain anchored prefix, so no `/` is required after it.
  Stripping it from `/private/some/path` gives `/some/path`, as the test expects.
- The upstream segment is the longest non-empty run of characters without `/`
  after `/upstream/`. The value stored in `gemstash.upstream` is that segment
  as taken from `PATH_INFO`, still escaped.
- A present header is used even if it is empty, which matches Ruby's `||` on
  strings.

## Model

| member | source | states |
|---|---|---|
| `GemSource.Resolve` | spec/gemstash/gem_source_spec.rb:21-127 | The result logs a rewrite exactly when the source is private or upstream, and that line is `Rewriting '<old uri>' to '<new uri>'`. The new `REQUEST_URI` and `PATH_INFO` are suffixes of the old ones. `gemstash.upstream` is left untouched exactly in the private case. |
| `GemSource.ResolvePrivate` | spec/gemstash/gem_source_spec.rb:14-26 | The source is private if and only if both paths start with `/private`. In that case each old path is `/private` followed by the new path. |
| `GemSource.ResolvePrivateJoin` | spec/gemstash/gem_source_spec.rb:14-27 | For `/private`+rest paths with any header and configuration: private source, paths become the rests, upstream is untouched, and one rewrite line names the old and new URI. The query part is unchanged and the path part loses only the prefix. |
| `GemSource.ResolveUpstream` | spec/gemstash/gem_source_spec.rb:35-49 | The source is upstream if and only if the private pattern does not match both paths and the `/upstream/<segment>` pattern does. Each old path is then `/upstream/` + segment + new path. The recorded upstream is the `PATH_INFO` segment. |
| `GemSource.ResolveUpstreamJoin` | spec/gemstash/gem_source_spec.rb:35-51 | For `/upstream/<escaped url>` followed by `/`-led rests, with any header and configuration: upstream source, upstream is the escaped URL, paths become the rests, and one rewrite line is logged. The query part is unchanged. |
| `GemSource.ResolveUpstreamQueryInSegment` | spec/gemstash/gem_source_spec.rb:35-36 | When a `?`-led query without `/` follows the escaped URL directly in `REQUEST_URI`, the request is still upstream `u`, but the segment takes the query: `REQUEST_URI` becomes empty. Its query part was the query before and is empty after. |
| `GemSource.ResolveRubygems` | spec/gemstash/gem_source_spec.rb:59-75 | The source is rubygems if and only if neither pattern matches both paths. Then both paths are unchanged, nothing is logged, and the upstream is the header-or-default choice. |
| `GemSource.ResolveHeaderUpstream` | spec/gemstash/gem_source_spec.rb:59-75 | For an unprefixed request with a header and a configuration that does not ignore it: rubygems source, upstream is the header value, paths unchanged, no log line. |
| `GemSource.ResolveIgnoredHeader` | spec/gemstash/gem_source_spec.rb:81-103 | With `ignore_gemfile_source` set, an unprefixed request gets the rubygems source and the configured rubygems URL, whatever the header says. Paths are unchanged and there is no log line. |
| `GemSource.ResolveNoHeader` | spec/gemstash/gem_source_spec.rb:109-126 | Without a header, an unprefixed request gets the rubygems source and the configured rubygems URL. Paths are unchanged and there is no log line. |
| `GemSource.RewriteLine` | spec/gemstash/gem_source_spec.rb:27 | The log record is `Rewriting '`, the old URI, `' to '`, the new URI and a closing `'`, each at a fixed position, so both URIs can be read back from the line. |
| `GemSource.DefaultUpstream` | spec/gemstash/gem_source_spec.rb:59-103 | The upstream of an unprefixed request is either the header or the configured rubygems URL. It is the header value when a header is present and `ignore_gemfile_source` is off, and the configured URL otherwise. |
| `GemSource.Env.Rewrite` | spec/gemstash/gem_source_spec.rb:24-27 | Cuts the matched lengths off the front of `REQUEST_URI` and `PATH_INFO`. Appends one rewrite line that names the old and new `REQUEST_URI`. Source and upstream entries stay as they were. |
| `GemSource.App.Call` | spec/gemstash/gem_source_spec.rb:22 | The application double records the environment state it was called with, once per call, and returns its fixed response. |
| `GemSource.RackMiddleware.Call` | spec/gemstash/gem_source_spec.rb:22-27 | In place, the environment becomes what `Resolve` computes from the old request: source, rewritten paths, upstream (untouched when private), and the log extended by the rewrite line only. The wrapped app is called exactly once, with the updated environment, and its response is returned unchanged. |
| `Uri.Match` | spec/gemstash/gem_source_spec.rb:35-36 | An anchored match covers the pattern's literal followed by its capture. A plain prefix matches if and only if the literal is a prefix. A segment pattern matches if and only if a non-`/` character follows the literal, and it then captures the longest run of characters without `/`. |
| `Uri.QueryStart` | spec/gemstash/gem_source_spec.rb:14 | Returns the index of the first `?`, or the length when there is none. No `?` comes before it. |
| `Uri.PathPart` | spec/gemstash/gem_source_spec.rb:14-15 | The path part is a prefix of the URI and holds no `?`. |
| `Uri.QueryPart` | spec/gemstash/gem_source_spec.rb:25 | The path part followed by the query part is the whole URI. The query is empty or starts with `?`. |
| `Uri.QueryUnderPrefix` | spec/gemstash/gem_source_spec.rb:14-25 | Removing a leading piece without `?` keeps the query part and removes that piece from the path part. |
| `Uri.Segment` | spec/gemstash/gem_source_spec.rb:41 | Returns the longest prefix without `/`. It is followed by `/` or by the end of the string. |
| `Uri.SegmentOfJoin` | spec/gemstash/gem_source_spec.rb:35-36 | A `/`-free piece followed by `/` or by nothing is exactly the segment taken. |
| `Uri.UpstreamMatchOfJoin` | spec/gemstash/gem_source_spec.rb:35-36 | `/upstream/` + u + a `/`-led rest matches with capture u and covers exactly `/upstream/` + u. |
| `Uri.EscapedIsSegment` | spec/gemstash/gem_source_spec.rb:41 | A non-empty `CGI.escape` result holds neither `/` nor `?`. |
| `GemSourceScenarios.PrivateScenario` | spec/gemstash/gem_source_spec.rb:10-29 | The "private gem source" test: `PrivateSource`, `/some/path?arg=abc` and `/some/path`, the exact rewrite line, one app call with the updated env, the app's result returned. |
| `GemSourceScenarios.UpstreamScenario` | spec/gemstash/gem_source_spec.rb:31-53 | The "custom upstream" test: `UpstreamSource`, the escaped URL recorded, both paths stripped with the query kept, the exact rewrite line, the app's result returned. |
| `GemSourceScenarios.HeaderScenario` | spec/gemstash/gem_source_spec.rb:55-77 | The "upstream defined in a header" test: `RubygemsSource`, upstream is the header URL, paths unchanged, log empty. |
| `GemSourceScenarios.IgnoredHeaderScenario` | spec/gemstash/gem_source_spec.rb:79-105 | The "ignoring an upstream defined in a header" test: `RubygemsSource`, upstream `https://rubygems.org`, paths unchanged, log empty. |
| `GemSourceScenarios.DefaultUpstreamScenario` | spec/gemstash/gem_source_spec.rb:107-128 | The "default upstream" test: `RubygemsSource`, upstream `https://rubygems.org`, paths unchanged, log empty. |
| `GemSourceScenarios.UnprefixedPath` | spec/gemstash/gem_source_spec.rb:59-60 | The unprefixed test path matches neither the private nor the upstream pattern. |

## Left out

- URL decoding: the upstream is recorded as the escaped segment. `CGI.unescape` is a library call, and the tests do not assert the decoded value.
- The client error for a malformed escaped segment is not modelled, because no decoding is done.
- Other entries the middleware may set on the environment (such as a captured user agent) are not modelled; the tests do not read them.
- The wrapped application is the tests' double. It returns a fixed response and does not change the environment. A real Rack application is not part of this model.
- The log is a sequence of lines kept on `Env`. Logger levels, formatting and the global log are left out.
- `spec/data/gems/speaker/lib/speaker.rb` is a fixture command-line program: its I/O, process exit and version lookup are outside this core.
- `lib/gemstash/migrations/02_authorizations.rb` is a schema declaration (an `authorizations` table with `auth_key` and `permissions` of size 191 and a unique `auth_key` index) with no logic to verify.
- Caching fetcher, upstream HTTP client, package storage and API-key authorization: their code is not part of this model, and they involve network and disk I/O and concurrency.
