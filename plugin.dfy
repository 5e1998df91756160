/**
 * What the two versions of the Deluge plugin core (lobbercore/core.py and
 * LobberCore/deluge/plugins/lobbercore/core.py) have in common: configuration
 * values with Python's truthiness, `%s` and `int()`, the upstream tracker
 * derived in `start_proxy`, the local URLs the plugin fetches and adds, the
 * feed filter and the key-by-key merge of `set_config`.
 */
module Plugin {
  import opened Wrappers
  import opened Decimal
  import ReverseProxy

  // ---------------------------------------------------------------------------
  // Configuration values

  /** A value stored in lobbercore.conf: a string, an integer, a boolean or a list of strings. */
  datatype Value = Str(s: string) | Int(i: int) | Bool(b: bool) | Strs(items: seq<string>)

  type Config = map<string, Value>

  /** Python truthiness: empty strings and lists, zero and False are false. */
  predicate Truthy(v: Value) {
    match v
    case Str(s) => s != ""
    case Int(i) => i != 0
    case Bool(b) => b
    case Strs(xs) => xs != []
  }

  /** `repr` of a list of plain strings: `['a', 'b']`. */
  function ListRepr(xs: seq<string>): string
  {
    "[" + Joined(xs) + "]"
  }

  function Joined(xs: seq<string>): string
    decreases |xs|
  {
    if xs == [] then ""
    else if |xs| == 1 then "'" + xs[0] + "'"
    else "'" + xs[0] + "', " + Joined(xs[1..])
  }

  /** `'%s' % v` and `str(v)`. */
  function Format(v: Value): (s: string)
    ensures v.Str? ==> s == v.s
    ensures v.Int? ==> s == IntToString(v.i)
    ensures v.Bool? ==> s == if v.b then "True" else "False"
  {
    match v
    case Str(s) => s
    case Int(i) => IntToString(i)
    case Bool(b) => if b then "True" else "False"
    case Strs(xs) => ListRepr(xs)
  }

  /** `int(s)` on text: an optional sign and decimal digits; anything else raises (`None`). */
  function ParseInt(s: string): (r: Option<int>)
  {
    var signed := |s| > 0 && (s[0] == '-' || s[0] == '+');
    var magnitude := ParseNat(if signed then s[1..] else s);
    if magnitude.None? then None
    else if signed && s[0] == '-' then Some(0 - magnitude.value)
    else Some(magnitude.value)
  }

  /** `int(v)`: integers as they are, booleans as 0 and 1, text parsed; a list raises. */
  function IntOf(v: Value): (r: Option<int>)
    ensures v.Int? ==> r == Some(v.i)
    ensures v.Bool? ==> r == Some(if v.b then 1 else 0)
    ensures v.Strs? ==> r.None?
  {
    match v
    case Str(s) => ParseInt(s)
    case Int(i) => Some(i)
    case Bool(b) => Some(if b then 1 else 0)
    case Strs(_) => None
  }

  /** `int` of the text of a natural number, with or without a minus sign. */
  lemma ParseIntOfNat(n: nat)
    ensures ParseInt(NatToString(n)) == Some(n)
    ensures ParseInt("-" + NatToString(n)) == Some(-(n as int))
  {
    var digits := NatToString(n);
    NatToStringRoundTrip(n);
    assert IsDigit(digits[0]);
    assert ("-" + digits)[1..] == digits;
  }

  /** `int(str(i)) == i`: the text of an integer setting reads back as the same integer. */
  lemma IntOfFormat(i: int)
    ensures IntOf(Str(Format(Int(i)))) == Some(i)
  {
    if i < 0 {
      ParseIntOfNat(-i);
    } else {
      ParseIntOfNat(i);
    }
  }

  // ---------------------------------------------------------------------------
  // The upstream tracker (start_proxy)

  /** What `urlparse` gives for the tracker URL; `port` is `None` when the URL has none. */
  datatype ParsedUrl = ParsedUrl(scheme: string, netloc: string, port: Option<nat>, path: string)

  /** The position of the last `c` in `s`. */
  function LastIndexOf(s: string, c: char): (r: Option<nat>)
    ensures r.None? <==> c !in s
    ensures r.Some? ==> r.value < |s| && s[r.value] == c && c !in s[r.value + 1..]
    decreases |s|
  {
    if s == [] then None
    else if s[|s| - 1] == c then
      assert s[|s| - 1 + 1..] == [];
      Some(|s| - 1)
    else
      var front := s[..|s| - 1];
      assert s == front + [s[|s| - 1]];
      var r := LastIndexOf(front, c);
      assert r.Some? ==> s[r.value + 1..] == front[r.value + 1..] + [s[|s| - 1]];
      r
  }

  /** `splitnport(netloc, port)[0]`: everything before the last `:`, or all of it. */
  function SplitNPortHost(netloc: string): (h: string)
    ensures ':' !in netloc ==> h == netloc
    ensures ':' in netloc ==> |h| < |netloc| && netloc[|h|] == ':' && h == netloc[..|h|] && ':' !in netloc[|h| + 1..]
  {
    match LastIndexOf(netloc, ':')
    case None => netloc
    case Some(i) => netloc[..i]
  }

  /** A string of digits contains no separator. */
  lemma DigitsExclude(s: string, c: char)
    requires forall i :: 0 <= i < |s| ==> IsDigit(s[i])
    requires !IsDigit(c)
    ensures c !in s
    ensures forall i :: 0 <= i < |s| ==> s[i] != c
  {
  }

  /** The last `c` of `a + [c] + b` is the one after `a` when `b` has none. */
  lemma {:induction false} LastIndexOfSplit(a: string, c: char, b: string)
    requires c !in b
    ensures LastIndexOf(a + [c] + b, c) == Some(|a|)
    decreases |b|
  {
    var s := a + [c] + b;
    if b != [] {
      var b' := b[..|b| - 1];
      assert b[|b| - 1] in b;
      assert forall x :: x in b' ==> x in b;
      assert s[..|s| - 1] == a + [c] + b';
      LastIndexOfSplit(a, c, b');
    }
  }

  /** A netloc `host:port` names the host `host`, even when `host` itself contains a colon. */
  lemma SplitNPortHostOf(host: string, port: nat)
    ensures SplitNPortHost(host + ":" + NatToString(port)) == host
  {
    var digits := NatToString(port);
    DigitsExclude(digits, ':');
    LastIndexOfSplit(host, ':', digits);
    assert host + ":" + digits == host + [':'] + digits;
    assert (host + [':'] + digits)[..|host|] == host;
  }

  /** Where the proxy forwards to: tracker host, port and whether to use TLS. */
  datatype Upstream = Upstream(host: string, port: nat, tls: bool)

  /**
   * `start_proxy`'s derivation: `https` means TLS with default port 443, any
   * other scheme plain TCP with default port 80; an explicit non-zero port is
   * kept (a port of 0 is falsy and also gives the default).
   */
  function UpstreamFor(url: ParsedUrl): (u: Upstream)
    ensures u.tls <==> url.scheme == "https"
    ensures url.port.Some? && url.port.value != 0 ==> u.port == url.port.value
    ensures url.port.None? || url.port.value == 0 ==> u.port == ReverseProxy.DefaultPort(u.tls)
    ensures u.host == SplitNPortHost(url.netloc)
  {
    var tls := url.scheme == "https";
    var port := if url.port.Some? && url.port.value != 0 then url.port.value else if tls then 443 else 80;
    Upstream(SplitNPortHost(url.netloc), port, tls)
  }

  /**
   * A tracker URL without a port makes the proxy send the bare host name as
   * its Host header, and one with an explicit non-default port names it.
   */
  lemma UpstreamHostHeader(url: ParsedUrl)
    ensures var u := UpstreamFor(url);
      (ReverseProxy.HostHeader(u.host, u.port, u.tls) == u.host)
        <==> (url.port.None? || url.port.value == 0 || ReverseProxy.IsDefaultPort(u.tls, url.port.value))
  {
  }

  /** `https://dev.lobber.se` gives `dev.lobber.se` over TLS on port 443. */
  lemma DefaultTrackerScenario()
    ensures UpstreamFor(ParsedUrl("https", "dev.lobber.se", None, "")) == Upstream("dev.lobber.se", 443, true)
  {
  }

  /** The rewrite rule the plugin configures: `/tracker/announce$` to `/tracker/uannounce`. */
  const AnnounceRules: seq<ReverseProxy.Rule> := [ReverseProxy.AnnounceRule]

  const UserAgent := "Lobber Storage Node/2.0"

  /** The listening proxy: the interface and port it binds and the resource it serves. */
  datatype Listener = Listener(iface: string, port: int, site: ReverseProxy.ProxyResource)

  /**
   * The result of `start_proxy`: a root resource (path `''`) for the upstream
   * with the announce rule and the two injected headers, listening on
   * 127.0.0.1 at `int(proxy_port)`; `None` when that conversion raises.
   */
  function ProxyFor(tracker: ParsedUrl, lobberKey: string, proxyPort: Value): (r: Option<Listener>)
    ensures r.Some? <==> IntOf(proxyPort).Some?
    ensures r.Some? ==> var u := UpstreamFor(tracker);
      && r.value.iface == "127.0.0.1" && r.value.port == IntOf(proxyPort).value
      && r.value.site.host == u.host && r.value.site.port == u.port && r.value.site.tls == u.tls
      && r.value.site.path == "" && r.value.site.pathRewrite == Some(AnnounceRules)
      && r.value.site.headers == map["X_LOBBER_KEY" := lobberKey, "User-Agent" := UserAgent]
  {
    var u := UpstreamFor(tracker);
    var site := ReverseProxy.ProxyResource(u.host, u.port, "", Some(AnnounceRules), u.tls,
                                           map["X_LOBBER_KEY" := lobberKey, "User-Agent" := UserAgent]);
    match IntOf(proxyPort)
    case None => None
    case Some(port) => Some(Listener("127.0.0.1", port, site))
  }

  /** Every request through the plugin's proxy carries the node's key and user agent. */
  lemma ProxyInjectsKey(tracker: ParsedUrl, lobberKey: string, proxyPort: Value,
                        before: map<string, ReverseProxy.HeaderValues>)
    requires ProxyFor(tracker, lobberKey, proxyPort).Some?
    ensures var site := ProxyFor(tracker, lobberKey, proxyPort).value.site;
      var h := ReverseProxy.InjectHeaders(before, site.headers);
      h["X_LOBBER_KEY"] == [lobberKey] && h["User-Agent"] == [UserAgent]
  {
  }

  // ---------------------------------------------------------------------------
  // Local URLs

  const LocalPrefix := "http://127.0.0.1:"

  /** `'http://127.0.0.1:%s%s' % (proxy_port, path)`. */
  function LocalUrl(proxyPort: Value, path: string): string
  {
    LocalPrefix + Format(proxyPort) + path
  }

  /** Splits `s` before its first `c`. */
  function SplitFirst(s: string, c: char): (r: (string, string))
    ensures r.0 + r.1 == s
    decreases |s|
  {
    if s == [] then ("", "")
    else if s[0] == c then ("", s)
    else var rest := SplitFirst(s[1..], c); ([s[0]] + rest.0, rest.1)
  }

  lemma {:induction false} SplitFirstOf(a: string, b: string, c: char)
    requires forall i :: 0 <= i < |a| ==> a[i] != c
    requires b == [] || b[0] == c
    ensures SplitFirst(a + b, c) == (a, b)
    decreases |a|
  {
    var s := a + b;
    if a == [] {
      assert s == b;
    } else {
      assert s[0] == a[0];
      assert s[1..] == a[1..] + b;
      assert forall i :: 0 <= i < |a[1..]| ==> a[1..][i] == a[i + 1];
      SplitFirstOf(a[1..], b, c);
      assert [a[0]] + a[1..] == a;
    }
  }

  /** How the local server reads a URL the plugin builds: the port, then the path from the first `/`. */
  function ParseLocalUrl(u: string): (r: Option<(nat, string)>)
  {
    if |u| >= |LocalPrefix| && u[..|LocalPrefix|] == LocalPrefix then
      var split := SplitFirst(u[|LocalPrefix|..], '/');
      match ParseNat(split.0)
      case None => None
      case Some(port) => Some((port, split.1))
    else None
  }

  /** A local URL names its port and its path unambiguously. */
  lemma LocalUrlRoundTrip(port: nat, path: string)
    requires path == [] || path[0] == '/'
    ensures ParseLocalUrl(LocalUrl(Int(port), path)) == Some((port, path))
  {
    var digits := NatToString(port);
    var u := LocalUrl(Int(port), path);
    assert u == LocalPrefix + (digits + path);
    assert u[..|LocalPrefix|] == LocalPrefix;
    assert u[|LocalPrefix|..] == digits + path;
    DigitsExclude(digits, '/');
    SplitFirstOf(digits, path, '/');
    NatToStringRoundTrip(port);
  }

  /** `'/torrent/%s.torrent' % id`. */
  function TorrentPath(id: Value): string
  {
    "/torrent/" + Format(id) + ".torrent"
  }

  /** The id text of a torrent path, when it has the `/torrent/<id>.torrent` shape. */
  function TorrentIdText(path: string): (r: Option<string>)
  {
    if |path| >= 17 && path[..9] == "/torrent/" && path[|path| - 8..] == ".torrent" then
      Some(path[9..|path| - 8])
    else None
  }

  /** The torrent URL of an item: its id through the proxy's port. */
  function TorrentUrl(proxyPort: Value, id: Value): string
  {
    LocalUrl(proxyPort, TorrentPath(id))
  }

  /** A torrent URL gives back the proxy port and the id it was built from. */
  lemma TorrentUrlRoundTrip(port: nat, id: Value)
    ensures var parsed := ParseLocalUrl(TorrentUrl(Int(port), id));
      && parsed.Some? && parsed.value.0 == port
      && TorrentIdText(parsed.value.1) == Some(Format(id))
  {
    var f := Format(id);
    var path := TorrentPath(id);
    assert path == "/torrent/" + f + ".torrent";
    assert path[0] == '/';
    LocalUrlRoundTrip(port, path);
    assert path[..9] == "/torrent/";
    assert path[|path| - 8..] == ".torrent";
    assert path[9..|path| - 8] == f;
  }

  // ---------------------------------------------------------------------------
  // The feed

  /** One torrent of the JSON feed: the fields `process_json` reads. */
  datatype FeedItem = FeedItem(infoHash: string, id: Value, itemLabel: string)

  /** `json.loads` of the fetched body: a list of items, or a `ValueError`. */
  datatype Feed = Invalid | Items(items: seq<FeedItem>)

  /** One `add_torrent_url(url, options, headers=None)` call. */
  datatype AddTorrent = AddTorrent(url: string, options: map<string, Value>)

  /** `a` is `b` with some elements left out, the rest kept in their order. */
  predicate SubsequenceOf<T(==)>(a: seq<T>, b: seq<T>)
    decreases |b|
  {
    if b == [] then a == []
    else (SubsequenceOf(a, b[..|b| - 1])
          || (a != [] && a[|a| - 1] == b[|b| - 1] && SubsequenceOf(a[..|a| - 1], b[..|b| - 1])))
  }

  /** The items of the feed whose info hash is not known, in feed order. */
  function NewItems(items: seq<FeedItem>, known: set<string>): (r: seq<FeedItem>)
    ensures |r| <= |items|
    ensures forall it :: it in r <==> it in items && it.infoHash !in known
    decreases |items|
  {
    if items == [] then []
    else
      var front := items[..|items| - 1];
      var last := items[|items| - 1];
      assert items == front + [last];
      var r := NewItems(front, known);
      if last.infoHash in known then r else r + [last]
  }

  /** The selected items keep their feed order: they are a subsequence of the feed. */
  lemma {:induction false} NewItemsInOrder(items: seq<FeedItem>, known: set<string>)
    ensures SubsequenceOf(NewItems(items, known), items)
    decreases |items|
  {
    if items != [] {
      var front := items[..|items| - 1];
      var last := items[|items| - 1];
      assert items == front + [last];
      NewItemsInOrder(front, known);
      var r := NewItems(front, known);
      assert (r + [last])[..|r|] == r;
    }
  }

  lemma NewItemsAppend(items: seq<FeedItem>, it: FeedItem, known: set<string>)
    ensures NewItems(items + [it], known)
         == NewItems(items, known) + (if it.infoHash in known then [] else [it])
  {
    assert (items + [it])[..|items|] == items;
  }

  /** A feed that only lists known torrents adds nothing. */
  lemma NothingNewNothingAdded(items: seq<FeedItem>, known: set<string>)
    requires forall k :: 0 <= k < |items| ==> items[k].infoHash in known
    ensures NewItems(items, known) == []
  {
  }

  /**
   * The options of `get_torrent_options`: none when `download_dir` is falsy,
   * otherwise `download_location` is `download_dir` itself, or
   * `download_dir + unique_path + "/"` when a non-empty unique path is given.
   */
  function TorrentOptions(downloadDir: Value, uniquePath: Option<string>): (o: map<string, Value>)
    ensures !Truthy(downloadDir) ==> o == map[]
    ensures Truthy(downloadDir) ==> o.Keys == {"download_location"}
    ensures Truthy(downloadDir) && (uniquePath.None? || uniquePath.value == "") ==> o["download_location"] == downloadDir
  {
    if !Truthy(downloadDir) then map[]
    else if uniquePath.Some? && uniquePath.value != "" then
      map["download_location" := Str(Format(downloadDir) + uniquePath.value + "/")]
    else map["download_location" := downloadDir]
  }

  /** With a non-empty unique path the location is `download_dir + unique_path + "/"`. */
  lemma UniquePathLocation(dir: Value, uniquePath: string)
    requires Truthy(dir) && uniquePath != ""
    ensures TorrentOptions(dir, Some(uniquePath)) == map["download_location" := Str(Format(dir) + uniquePath + "/")]
  {
  }

  /**
   * The location always lies under `download_dir`, and with unique paths
   * two torrents with different hashes never share a directory.
   */
  lemma UniqueLocations(dir: Value, u1: string, u2: string)
    requires Truthy(dir) && u1 != "" && u2 != ""
    ensures var loc := TorrentOptions(dir, Some(u1))["download_location"];
      loc.Str? && |loc.s| > |Format(dir)| && loc.s[..|Format(dir)|] == Format(dir) && loc.s[|loc.s| - 1] == '/'
    ensures u1 != u2 ==> TorrentOptions(dir, Some(u1)) != TorrentOptions(dir, Some(u2))
  {
    var d := Format(dir);
    var l1, l2 := d + u1 + "/", d + u2 + "/";
    assert l1[..|d|] == d;
    if u1 != u2 {
      if |u1| == |u2| {
        var k :| 0 <= k < |u1| && u1[k] != u2[k];
        assert l1[|d| + k] != l2[|d| + k];
      } else {
        assert |l1| != |l2|;
      }
      assert TorrentOptions(dir, Some(u1))["download_location"] != TorrentOptions(dir, Some(u2))["download_location"];
    }
  }

  // ---------------------------------------------------------------------------
  // set_config

  /** The configuration after `config[key] = update[key]` for the keys of `update` outside `todo`. */
  function MergedExcept(base: Config, update: Config, todo: set<string>): Config
  {
    base + map k | k in update.Keys - todo :: update[k]
  }

  lemma MergeStep(base: Config, update: Config, todo: set<string>, key: string)
    requires key in todo && todo <= update.Keys
    ensures MergedExcept(base, update, todo - {key}) == MergedExcept(base, update, todo)[key := update[key]]
  {
  }

  lemma MergeDone(base: Config, update: Config)
    ensures MergedExcept(base, update, update.Keys) == base
    ensures MergedExcept(base, update, {}) == base + update
  {
    assert (map k | k in update.Keys - {} :: update[k]) == update;
  }

  /** `set_config` overwrites exactly the supplied keys and keeps every other one. */
  lemma MergeOverwritesExactly(base: Config, update: Config)
    ensures (base + update).Keys == base.Keys + update.Keys
    ensures forall k :: k in update ==> (base + update)[k] == update[k]
    ensures forall k :: k in base && k !in update ==> (base + update)[k] == base[k]
  {
  }
}
