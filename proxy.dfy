/**
 * The reverse proxy resource of lobbercore/proxy.py: an immutable
 * configuration that spawns one child per path segment and, when rendering a
 * request, computes the Host header, rewrites the path, overlays the injected
 * headers and decides which kind of upstream connection to open.
 */
module ReverseProxy {
  import opened Wrappers
  import Decimal
  import PercentEncoding

  /**
   * One `[pattern, repl]` pair of `path_rewrite`, for the form the plugin
   * configures: a pattern `literal$` (a literal anchored at the end) and a
   * literal replacement.
   */
  datatype Rule = AnchoredSuffix(literal: string, replacement: string)

  /** `ReverseProxyTLSResource`: its constructor only stores these fields. */
  datatype ProxyResource = ProxyResource(
    host: string,
    port: nat,
    path: string,
    pathRewrite: Option<seq<Rule>>,
    tls: bool,
    headers: map<string, string>)

  // ---------------------------------------------------------------------------
  // getChild

  /** `getChild`: same configuration, path extended by one quoted segment. */
  function GetChild(r: ProxyResource, segment: string): (c: ProxyResource)
    requires PercentEncoding.IsByteString(segment)
  {
    r.(path := r.path + "/" + PercentEncoding.Quote(segment))
  }

  /** The resource reached from `r` by routing through `segments`, one `getChild` each. */
  function Descend(r: ProxyResource, segments: seq<string>): (d: ProxyResource)
    requires forall i :: 0 <= i < |segments| ==> PercentEncoding.IsByteString(segments[i])
    decreases |segments|
  {
    if segments == [] then r
    else GetChild(Descend(r, segments[..|segments| - 1]), segments[|segments| - 1])
  }

  function CountSlashes(s: string): (n: nat)
    ensures n <= |s|
    decreases |s|
  {
    if s == [] then 0 else (if s[0] == '/' then 1 else 0) + CountSlashes(s[1..])
  }

  /** Splits `s` at its last `/` into the part before it and the last segment. */
  function SplitLastSlash(s: string): (r: Option<(string, string)>)
    decreases |s|
  {
    if s == [] then None
    else if s[|s| - 1] == '/' then Some((s[..|s| - 1], ""))
    else match SplitLastSlash(s[..|s| - 1])
      case None => None
      case Some(split) => Some((split.0, split.1 + [s[|s| - 1]]))
  }

  lemma {:induction false} CountSlashesAppend(s: string, t: string)
    ensures CountSlashes(s + t) == CountSlashes(s) + CountSlashes(t)
    decreases |s|
  {
    if s != [] {
      assert (s + t)[0] == s[0];
      assert (s + t)[1..] == s[1..] + t;
      CountSlashesAppend(s[1..], t);
    } else {
      assert s + t == t;
    }
  }

  lemma {:induction false} CountSlashesAbsent(s: string)
    requires '/' !in s
    ensures CountSlashes(s) == 0
    decreases |s|
  {
    if s != [] {
      assert s[0] in s;
      CountSlashesAbsent(s[1..]);
    }
  }

  lemma {:induction false} SplitLastSlashOf(p: string, q: string)
    requires '/' !in q
    ensures SplitLastSlash(p + "/" + q) == Some((p, q))
    decreases |q|
  {
    var s := p + "/" + q;
    if q == [] {
      assert s[..|s| - 1] == p;
    } else {
      var q' := q[..|q| - 1];
      assert q[|q| - 1] in q;
      assert forall c :: c in q' ==> c in q;
      SplitLastSlashOf(p, q');
      assert s[..|s| - 1] == p + "/" + q';
      assert q' + [q[|q| - 1]] == q;
    }
  }

  /**
   * A child differs from its parent only in the path, and its path is the
   * parent's path, a `/`, and the quoted segment.
   */
  lemma ChildCopiesConfiguration(r: ProxyResource, segment: string)
    requires PercentEncoding.IsByteString(segment)
    ensures GetChild(r, segment).path == r.path + "/" + PercentEncoding.Quote(segment)
    ensures GetChild(r, segment).(path := r.path) == r
  {
  }

  /** A child's path holds exactly one `/` more than its parent's. */
  lemma ChildAddsOneSlash(r: ProxyResource, segment: string)
    requires PercentEncoding.IsByteString(segment)
    ensures CountSlashes(GetChild(r, segment).path) == CountSlashes(r.path) + 1
  {
    var q := PercentEncoding.Quote(segment);
    PercentEncoding.QuoteHasNoSlash(segment);
    CountSlashesAbsent(q);
    CountSlashesAppend(r.path + "/", q);
    CountSlashesAppend(r.path, "/");
  }

  /**
   * The last segment of a child's path decodes to the segment it was created
   * for, and what precedes it is the parent's path.
   */
  lemma ChildSegmentRoundTrip(r: ProxyResource, segment: string)
    requires PercentEncoding.IsByteString(segment)
    ensures SplitLastSlash(GetChild(r, segment).path) == Some((r.path, PercentEncoding.Quote(segment)))
    ensures PercentEncoding.Unquote(SplitLastSlash(GetChild(r, segment).path).value.1) == segment
  {
    PercentEncoding.QuoteHasNoSlash(segment);
    SplitLastSlashOf(r.path, PercentEncoding.Quote(segment));
    PercentEncoding.QuoteRoundTrip(segment);
  }

  /** Routing through n segments keeps the configuration and adds n slashes. */
  lemma {:induction false} DescendAddsSlashes(r: ProxyResource, segments: seq<string>)
    requires forall i :: 0 <= i < |segments| ==> PercentEncoding.IsByteString(segments[i])
    ensures Descend(r, segments).(path := r.path) == r
    ensures CountSlashes(Descend(r, segments).path) == CountSlashes(r.path) + |segments|
    decreases |segments|
  {
    if segments != [] {
      var init := segments[..|segments| - 1];
      DescendAddsSlashes(r, init);
      ChildAddsOneSlash(Descend(r, init), segments[|segments| - 1]);
    }
  }

  // ---------------------------------------------------------------------------
  // The Host header (section 14.23 of RFC 2616)

  predicate IsDefaultPort(tls: bool, port: nat) {
    (tls && port == 443) || (!tls && port == 80)
  }

  function DefaultPort(tls: bool): (p: nat)
    ensures IsDefaultPort(tls, p)
  {
    if tls then 443 else 80
  }

  /** The Host header `render` sends: the port is left out when it is the scheme's default. */
  function HostHeader(host: string, port: nat, tls: bool): (h: string)
    ensures h == host <==> IsDefaultPort(tls, port)
  {
    if IsDefaultPort(tls, port) then host else host + ":" + Decimal.NatToString(port)
  }

  /** Splits `s` at its first `:`. */
  function SplitColon(s: string): (r: (string, Option<string>))
    decreases |s|
  {
    if s == [] then ("", None)
    else if s[0] == ':' then ("", Some(s[1..]))
    else var rest := SplitColon(s[1..]); ([s[0]] + rest.0, rest.1)
  }

  /**
   * How a server reads a Host header: `host [":" port]`, and a missing port
   * means the default port of the scheme. `None` for a malformed port.
   */
  function ParseHostHeader(h: string, tls: bool): (r: Option<(string, nat)>)
  {
    var split := SplitColon(h);
    match split.1
    case None => Some((split.0, DefaultPort(tls)))
    case Some(text) =>
      match Decimal.ParseNat(text)
      case None => None
      case Some(port) => Some((split.0, port))
  }

  lemma {:induction false} SplitColonOf(host: string, rest: Option<string>)
    requires ':' !in host
    ensures SplitColon(if rest.Some? then host + ":" + rest.value else host) == (host, rest)
    decreases |host|
  {
    var s := if rest.Some? then host + ":" + rest.value else host;
    if host != [] {
      assert host[0] in host;
      assert forall c :: c in host[1..] ==> c in host;
      SplitColonOf(host[1..], rest);
      assert s[0] == host[0] && host[0] != ':';
      assert s[1..] == if rest.Some? then host[1..] + ":" + rest.value else host[1..];
      assert [host[0]] + host[1..] == host;
    } else if rest.Some? {
      assert s[1..] == rest.value;
    }
  }

  /**
   * Whichever form `render` chooses, the upstream server reads the Host
   * header back as exactly the configured host and port.
   */
  lemma HostHeaderRoundTrip(host: string, port: nat, tls: bool)
    requires ':' !in host
    ensures ParseHostHeader(HostHeader(host, port, tls), tls) == Some((host, port))
  {
    if IsDefaultPort(tls, port) {
      SplitColonOf(host, None);
    } else {
      SplitColonOf(host, Some(Decimal.NatToString(port)));
      Decimal.NatToStringRoundTrip(port);
    }
  }

  // ---------------------------------------------------------------------------
  // Path rewriting

  predicate EndsWith(s: string, t: string) {
    |t| <= |s| && s[|s| - |t|..] == t
  }

  /**
   * Whether `re.search(literal + "$", path)` succeeds: Python's `$` matches at
   * the end of the string and also just before a final newline.
   */
  predicate Matches(rule: Rule, path: string) {
    EndsWith(path, rule.literal + "\n") || EndsWith(path, rule.literal)
  }

  /**
   * `re.sub(pattern, repl, path, 1)` for an anchored literal: the leftmost
   * match (the one before a final newline, if any) is replaced, once.
   */
  function ApplyRule(rule: Rule, path: string): (r: string)
    ensures !Matches(rule, path) ==> r == path
    ensures EndsWith(path, rule.literal + "\n") ==>
      r == path[..|path| - |rule.literal| - 1] + rule.replacement + "\n"
    ensures !EndsWith(path, rule.literal + "\n") && EndsWith(path, rule.literal) ==>
      r == path[..|path| - |rule.literal|] + rule.replacement
  {
    var n, m := |path|, |rule.literal|;
    if EndsWith(path, rule.literal + "\n") then path[..n - m - 1] + rule.replacement + "\n"
    else if EndsWith(path, rule.literal) then path[..n - m] + rule.replacement
    else path
  }

  /** The rules applied once each, in order, each to the previous one's output. */
  function RewriteAll(rules: seq<Rule>, path: string): (r: string)
    decreases |rules|
  {
    if rules == [] then path
    else ApplyRule(rules[|rules| - 1], RewriteAll(rules[..|rules| - 1], path))
  }

  /** The path `render` forwards: rewriting is skipped for an empty path or no rules. */
  function RewrittenPath(rules: Option<seq<Rule>>, path: string): string
  {
    if path != "" && rules.Some? && rules.value != [] then RewriteAll(rules.value, path) else path
  }

  /** `rest`: the query string, when there is one, is re-attached after a `?`. */
  function Target(path: string, query: string): string
  {
    if query != "" then path + "?" + query else path
  }

  /** Splits a request target at its first `?` into path and query string. */
  function SplitQuery(s: string): (r: (string, string))
    decreases |s|
  {
    if s == [] then ("", "")
    else if s[0] == '?' then ("", s[1..])
    else var rest := SplitQuery(s[1..]); ([s[0]] + rest.0, rest.1)
  }

  /** Rewriting with a concatenation of rule lists is rewriting with one, then the other. */
  lemma {:induction false} RewriteAllAppend(first: seq<Rule>, second: seq<Rule>, path: string)
    ensures RewriteAll(first + second, path) == RewriteAll(second, RewriteAll(first, path))
    decreases |second|
  {
    if second == [] {
      assert first + second == first;
    } else {
      var init := second[..|second| - 1];
      assert (first + second)[..|first + second| - 1] == first + init;
      assert (first + second)[|first + second| - 1] == second[|second| - 1];
      RewriteAllAppend(first, init, path);
    }
  }

  /** Each rule replaces at most one occurrence: its output keeps the path outside the match. */
  lemma ApplyRuleReplacesOnce(rule: Rule, path: string)
    requires Matches(rule, path)
    ensures exists cut, tail ::
              && tail in {"", "\n"} && 0 <= cut && cut + |rule.literal| + |tail| == |path|
              && path == path[..cut] + rule.literal + tail
              && ApplyRule(rule, path) == path[..cut] + rule.replacement + tail
  {
    var n, m := |path|, |rule.literal|;
    if EndsWith(path, rule.literal + "\n") {
      var cut := n - m - 1;
      assert path == path[..cut] + path[cut..n - 1] + path[n - 1..];
      assert path[cut..n - 1] == rule.literal && path[n - 1..] == "\n";
      assert "\n" in {"", "\n"};
      assert path == path[..cut] + rule.literal + "\n";
      assert ApplyRule(rule, path) == path[..cut] + rule.replacement + "\n";
    } else {
      var cut := n - m;
      assert path == path[..cut] + path[cut..];
      assert path[..cut] + rule.literal + "" == path;
      assert "" in {"", "\n"};
      assert ApplyRule(rule, path) == path[..cut] + rule.replacement + "";
    }
  }

  /** Rewriting a path that no rule matches leaves it as it is. */
  lemma {:induction false} RewriteAllStable(rules: seq<Rule>, path: string)
    requires forall i :: 0 <= i < |rules| ==> !Matches(rules[i], path)
    ensures RewriteAll(rules, path) == path
    decreases |rules|
  {
    if rules != [] {
      RewriteAllStable(rules[..|rules| - 1], path);
    }
  }

  /**
   * So rewriting is idempotent whenever no rule matches the rewritten path:
   * a second pass changes nothing.
   */
  lemma RewriteIdempotent(rules: seq<Rule>, path: string)
    requires forall i :: 0 <= i < |rules| ==> !Matches(rules[i], RewriteAll(rules, path))
    ensures RewriteAll(rules, RewriteAll(rules, path)) == RewriteAll(rules, path)
  {
    RewriteAllStable(rules, RewriteAll(rules, path));
  }

  /**
   * The query string is never rewritten: a forwarded target splits back
   * into the rewritten path and exactly the original query string.
   */
  lemma {:induction false} TargetRoundTrip(path: string, query: string)
    requires '?' !in path
    ensures SplitQuery(Target(path, query)) == (path, query)
    decreases |path|
  {
    if path == [] {
      if query != "" {
        assert Target(path, query) == "?" + query;
        assert ("?" + query)[1..] == query;
      }
    } else {
      assert path[0] in path;
      assert forall c :: c in path[1..] ==> c in path;
      TargetRoundTrip(path[1..], query);
      assert Target(path, query)[0] == path[0] && path[0] != '?';
      assert Target(path, query)[1..] == Target(path[1..], query);
      assert [path[0]] + path[1..] == path;
    }
  }

  // ---------------------------------------------------------------------------
  // Header injection

  /** Raw header values as Twisted's `Headers` keeps them: never an empty list. */
  type HeaderValues = s: seq<string> | |s| > 0 witness [""]

  /**
   * `setRawHeaders(key, [value])` for every injected pair: injected names
   * end up with exactly their injected value, all others are untouched.
   */
  function InjectHeaders(h: map<string, HeaderValues>, injected: map<string, string>): (r: map<string, HeaderValues>)
    ensures r.Keys == h.Keys + injected.Keys
    ensures forall k :: k in injected ==> r[k] == [injected[k]]
    ensures forall k :: k in h && k !in injected ==> r[k] == h[k]
  {
    map k | k in h.Keys + injected.Keys :: if k in injected then [injected[k]] else h[k]
  }

  /** `getAllHeaders()`: the last raw value of every header. */
  function AllHeaders(h: map<string, HeaderValues>): (r: map<string, string>)
    ensures r.Keys == h.Keys
    ensures forall k :: k in h ==> r[k] == h[k][|h[k]| - 1]
  {
    map k | k in h :: h[k][|h[k]| - 1]
  }

  // ---------------------------------------------------------------------------
  // render

  /** What `urlparse(request.uri)` returns; only path and query are used. */
  datatype ParsedUri = ParsedUri(scheme: string, netloc: string, path: string, params: string, query: string, fragment: string)

  /** The inbound request; `render` changes its headers and nothing else. */
  class Request {
    const command: string
    const uri: ParsedUri
    const clientProto: string
    const content: string
    var headers: map<string, HeaderValues>

    constructor (command: string, uri: ParsedUri, clientProto: string, content: string, headers: map<string, HeaderValues>)
      ensures this.command == command && this.uri == uri && this.clientProto == clientProto
      ensures this.content == content && this.headers == headers
    {
      this.command := command;
      this.uri := uri;
      this.clientProto := clientProto;
      this.content := content;
      this.headers := headers;
    }
  }

  /** The arguments of the `ProxyClientFactory` built for the upstream request. */
  datatype ProxyClient = ProxyClient(command: string, rest: string, version: string, headers: map<string, string>, data: string)

  /** The one connection `render` opens. */
  datatype Connection = ConnectSSL(host: string, port: nat) | ConnectTCP(host: string, port: nat)

  datatype Dispatch = Dispatch(client: ProxyClient, connection: Connection)

  /** The request target `render` forwards for a parsed URI. */
  function ForwardTarget(rules: Option<seq<Rule>>, uri: ParsedUri): string
  {
    Target(RewrittenPath(rules, uri.path), uri.query)
  }

  /** The rewriting loop of `render`, including its guard; it changes nothing else. */
  method RewritePath(rules: Option<seq<Rule>>, uriPath: string) returns (path: string)
    ensures path == RewrittenPath(rules, uriPath)
  {
    path := uriPath;
    if path != "" && rules.Some? && rules.value != [] {
      var rs := rules.value;
      var i := 0;
      while i < |rs|
        invariant 0 <= i <= |rs|
        invariant path == RewriteAll(rs[..i], uriPath)
      {
        assert rs[..i + 1][..i] == rs[..i];
        path := ApplyRule(rs[i], path);
        i := i + 1;
      }
      assert rs[..|rs|] == rs;
    }
  }

  lemma InjectStep(base: map<string, HeaderValues>, injected: map<string, string>, todo: set<string>, key: string)
    requires key in todo && todo <= injected.Keys
    ensures InjectHeaders(base, injected - (todo - {key}))
         == InjectHeaders(base, injected - todo)[key := [injected[key]]]
  {
    var after := injected - (todo - {key});
    assert after == (injected - todo)[key := injected[key]];
  }

  /** The `setRawHeaders` loop of `render`: one injected header at a time. */
  method SetInjectedHeaders(req: Request, injected: map<string, string>)
    modifies req
    ensures req.headers == InjectHeaders(old(req.headers), injected)
  {
    ghost var base := req.headers;
    var todo := injected.Keys;
    assert injected - todo == map[];
    assert InjectHeaders(base, map[]) == base;
    while todo != {}
      invariant todo <= injected.Keys
      invariant req.headers == InjectHeaders(base, injected - todo)
      decreases todo
    {
      var key :| key in todo;
      InjectStep(base, injected, todo, key);
      req.headers := req.headers[key := [injected[key]]];
      todo := todo - {key};
    }
    assert injected - {} == injected;
  }

  /**
   * `render`: sets the Host header, rewrites the path, overlays the injected
   * headers onto the request and returns the single upstream connection to
   * open, TLS exactly when the resource says so.
   */
  method Render(res: ProxyResource, req: Request) returns (d: Dispatch)
    modifies req
    ensures req.headers == InjectHeaders(old(req.headers)["host" := [HostHeader(res.host, res.port, res.tls)]], res.headers)
    ensures d.client == ProxyClient(req.command, ForwardTarget(res.pathRewrite, req.uri), req.clientProto,
                                    AllHeaders(req.headers), req.content)
    ensures d.connection == if res.tls then ConnectSSL(res.host, res.port) else ConnectTCP(res.host, res.port)
  {
    var host := HostHeader(res.host, res.port, res.tls);
    req.headers := req.headers["host" := [host]];

    var path := RewritePath(res.pathRewrite, req.uri.path);
    var rest := if req.uri.query != "" then path + "?" + req.uri.query else path;

    SetInjectedHeaders(req, res.headers);

    var client := ProxyClient(req.command, rest, req.clientProto, AllHeaders(req.headers), req.content);
    if res.tls {
      d := Dispatch(client, ConnectSSL(res.host, res.port));
    } else {
      d := Dispatch(client, ConnectTCP(res.host, res.port));
    }
  }

  // ---------------------------------------------------------------------------
  // Properties of render

  /**
   * After `render`, every injected header carries exactly its injected value,
   * `host` the computed Host header unless it is injected, and every other
   * client header is what the client sent.
   */
  lemma RenderHeaders(res: ProxyResource, before: map<string, HeaderValues>, k: string)
    ensures var after := InjectHeaders(before["host" := [HostHeader(res.host, res.port, res.tls)]], res.headers);
      && (k in res.headers ==> after[k] == [res.headers[k]])
      && (k == "host" && k !in res.headers ==> after[k] == [HostHeader(res.host, res.port, res.tls)])
      && (k != "host" && k !in res.headers ==> (k in after <==> k in before) && (k in before ==> after[k] == before[k]))
  {
  }

  /**
   * The path `getChild` builds up is never used by `render`: every resource
   * reached from `res` through child segments forwards a request to the same
   * host, port and target as `res` itself.
   */
  lemma {:induction false} TargetIgnoresResourcePath(res: ProxyResource, segments: seq<string>, uri: ParsedUri)
    requires forall i :: 0 <= i < |segments| ==> PercentEncoding.IsByteString(segments[i])
    ensures var d := Descend(res, segments);
      && ForwardTarget(d.pathRewrite, uri) == ForwardTarget(res.pathRewrite, uri)
      && d.host == res.host && d.port == res.port && d.tls == res.tls
  {
    DescendAddsSlashes(res, segments);
  }

  /** The rule the plugin configures: `['/tracker/announce$', '/tracker/uannounce']`. */
  const AnnounceRule := AnchoredSuffix("/tracker/announce", "/tracker/uannounce")

  lemma RewriteAllSingle(rule: Rule, path: string)
    ensures RewriteAll([rule], path) == ApplyRule(rule, path)
  {
    assert [rule][..0] == [];
  }

  /** `/tracker/announce?x=1` is forwarded upstream as `/tracker/uannounce?x=1`. */
  lemma AnnounceScenario()
    ensures ForwardTarget(Some([AnnounceRule]), ParsedUri("", "", "/tracker/announce", "", "x=1", ""))
      == "/tracker/uannounce?x=1"
  {
    var p := "/tracker/announce";
    RewriteAllSingle(AnnounceRule, p);
    assert !EndsWith(p, AnnounceRule.literal + "\n");
    assert p[|p| - |AnnounceRule.literal|..] == AnnounceRule.literal;
    assert ApplyRule(AnnounceRule, p) == AnnounceRule.replacement;
  }

  /** What the announce rule produces ends in `uannounce`, which the rule does not match. */
  lemma AnnounceOutputUnmatched(pre: string, tail: string)
    requires tail == "" || tail == "\n"
    ensures !Matches(AnnounceRule, pre + AnnounceRule.replacement + tail)
  {
    var o := pre + AnnounceRule.replacement + tail;
    var lit := AnnounceRule.literal;
    var n := |o|;
    assert |lit| == 17;
    if tail == "" {
      assert o[n - 1] == 'e' && o[n - 17] == 't';
      assert o[n - 18..][17] == o[n - 1] && (lit + "\n")[17] == '\n';
      assert o[n - 17..][0] == o[n - 17] && lit[0] == '/';
    } else {
      assert o[n - 1] == '\n' && o[n - 18] == 't';
      assert o[n - 18..][0] == o[n - 18] && (lit + "\n")[0] == '/';
      assert o[n - 17..][16] == o[n - 1] && lit[16] == 'e';
    }
  }

  /** The announce rule never matches its own output, so rewriting with it is idempotent. */
  lemma AnnounceRewriteIdempotent(path: string)
    ensures RewriteAll([AnnounceRule], RewriteAll([AnnounceRule], path)) == RewriteAll([AnnounceRule], path)
  {
    RewriteAllSingle(AnnounceRule, path);
    var once := ApplyRule(AnnounceRule, path);
    RewriteAllSingle(AnnounceRule, once);
    if Matches(AnnounceRule, path) {
      ApplyRuleReplacesOnce(AnnounceRule, path);
      var cut, tail :| tail in {"", "\n"} && 0 <= cut && cut + |AnnounceRule.literal| + |tail| == |path|
        && path == path[..cut] + AnnounceRule.literal + tail
        && once == path[..cut] + AnnounceRule.replacement + tail;
      AnnounceOutputUnmatched(path[..cut], tail);
    }
  }
}
