/**
 * The older plugin core, LobberCore/deluge/plugins/lobbercore/core.py. It
 * copies five configuration entries into fields when it loads its
 * configuration and writes four of them back when it is disabled; it adds
 * every feed item not yet in Deluge's torrent list, with no options, and
 * fetches the feed through its own proxy.
 */
module LegacyCore {
  import opened Wrappers
  import opened Plugin
  import LobberCore

  /** `DEFAULT_PREFS` of this version: note the proxy port is the string `'7001'`. */
  const DefaultPrefs: Config := map[
    "feed_url" := Str("https://dev.lobber.se/torrent/all.json"),
    "lobber_key" := Str(""),
    "proxy_port" := Str("7001"),
    "tracker_host" := Str("https://dev.lobber.se"),
    "minutes_delay" := Int(1)
  ]

  predicate HasDefaults(c: Config) {
    DefaultPrefs.Keys <= c.Keys
  }

  /** The fields `load_config` copies out of the configuration. */
  datatype Cache = Cache(feedUrl: Value, lobberKey: Value, proxyPort: Value, trackerHost: Value, minutesDelay: Value)

  /** What `load_config` caches from a configuration. */
  function CacheOf(c: Config): (f: Cache)
    requires HasDefaults(c)
    ensures f.feedUrl == c["feed_url"] && f.lobberKey == c["lobber_key"] && f.proxyPort == c["proxy_port"]
    ensures f.trackerHost == c["tracker_host"] && f.minutesDelay == c["minutes_delay"]
  {
    Cache(c["feed_url"], c["lobber_key"], c["proxy_port"], c["tracker_host"], c["minutes_delay"])
  }

  /** What `disable` stores: four cached fields written back; `minutes_delay` is not among them. */
  function WriteBack(c: Config, f: Cache): (r: Config)
    ensures r.Keys == c.Keys + {"feed_url", "lobber_key", "proxy_port", "tracker_host"}
    ensures r["feed_url"] == f.feedUrl && r["lobber_key"] == f.lobberKey
    ensures r["proxy_port"] == f.proxyPort && r["tracker_host"] == f.trackerHost
    ensures forall k :: k in c && k !in {"feed_url", "lobber_key", "proxy_port", "tracker_host"} ==> r[k] == c[k]
  {
    c["feed_url" := f.feedUrl]["lobber_key" := f.lobberKey]["proxy_port" := f.proxyPort]["tracker_host" := f.trackerHost]
  }

  /** Writing back what was just cached leaves the configuration as it was. */
  lemma WriteBackRoundTrip(c: Config)
    requires HasDefaults(c)
    ensures WriteBack(c, CacheOf(c)) == c
  {
    var r := WriteBack(c, CacheOf(c));
    assert r.Keys == c.Keys;
    forall k | k in c ensures r[k] == c[k] {
    }
  }

  /**
   * `set_config` does not refresh the cached fields, so `disable` puts the
   * loaded values of the four cached entries back over any change made to
   * them since; every other change survives.
   */
  lemma DisableRevertsCachedEntries(c: Config, update: Config)
    requires HasDefaults(c)
    ensures var r := WriteBack(c + update, CacheOf(c));
      && (forall k :: k in {"feed_url", "lobber_key", "proxy_port", "tracker_host"} ==> r[k] == c[k])
      && (forall k :: k in update && k !in {"feed_url", "lobber_key", "proxy_port", "tracker_host"} ==> r[k] == update[k])
  {
  }

  /** The feed request `fetch_json` makes. */
  datatype PageRequest = PageRequest(url: string, httpMethod: string, agent: string, headers: map<string, string>)

  /** The `add_torrent_url` call for one item: the torrent URL and no options. */
  function LegacyAdd(proxyPort: Value, it: FeedItem): AddTorrent
  {
    AddTorrent(TorrentUrl(proxyPort, it.id), map[])
  }

  function LegacyAdds(proxyPort: Value, items: seq<FeedItem>): (r: seq<AddTorrent>)
    ensures |r| == |items| && forall k :: 0 <= k < |items| ==> r[k] == LegacyAdd(proxyPort, items[k])
  {
    seq(|items|, k requires 0 <= k < |items| => LegacyAdd(proxyPort, items[k]))
  }

  lemma LegacyAddsSnoc(proxyPort: Value, items: seq<FeedItem>, it: FeedItem)
    ensures LegacyAdds(proxyPort, items + [it]) == LegacyAdds(proxyPort, items) + [LegacyAdd(proxyPort, it)]
  {
    var l, r := LegacyAdds(proxyPort, items + [it]), LegacyAdds(proxyPort, items) + [LegacyAdd(proxyPort, it)];
    assert |l| == |r|;
    forall k | 0 <= k < |l| ensures l[k] == r[k] {
      if k < |items| { assert (items + [it])[k] == items[k]; }
    }
  }

  /** One more feed item adds one more call exactly when its hash is not in the torrent list. */
  lemma LegacyAddsStep(proxyPort: Value, items: seq<FeedItem>, i: nat, torrentList: set<string>)
    requires i < |items|
    ensures LegacyAdds(proxyPort, NewItems(items[..i + 1], torrentList))
         == LegacyAdds(proxyPort, NewItems(items[..i], torrentList))
            + (if items[i].infoHash in torrentList then [] else [LegacyAdd(proxyPort, items[i])])
  {
    var it := items[i];
    assert items[..i + 1] == items[..i] + [it];
    NewItemsAppend(items[..i], it, torrentList);
    if it.infoHash !in torrentList {
      LegacyAddsSnoc(proxyPort, NewItems(items[..i], torrentList), it);
    }
  }

  /** The plugin object with its configuration and the fields cached from it. */
  class Core {
    var config: Config
    var feedUrl: Value
    var lobberKey: Value
    var proxyPort: Value
    var trackerHost: Value
    var minutesDelay: Value

    function Cached(): Cache
      reads this
    {
      Cache(feedUrl, lobberKey, proxyPort, trackerHost, minutesDelay)
    }

    /** The object before `enable` has loaded anything. */
    constructor ()
      ensures config == map[]
    {
      config := map[];
      feedUrl, lobberKey, proxyPort, trackerHost, minutesDelay := Str(""), Str(""), Str(""), Str(""), Int(0);
    }

    /** `load_config`: the stored configuration over the defaults, then the five cached fields. */
    method LoadConfig(stored: Config)
      modifies this
      ensures config == DefaultPrefs + stored
      ensures HasDefaults(config) && Cached() == CacheOf(config)
    {
      config := DefaultPrefs + stored;
      feedUrl := config["feed_url"];
      lobberKey := config["lobber_key"];
      proxyPort := config["proxy_port"];
      trackerHost := config["tracker_host"];
      minutesDelay := config["minutes_delay"];
    }

    /** The configuration part of `disable`: the four cached fields are written back. */
    method Disable()
      modifies this
      ensures config == WriteBack(old(config), old(Cached()))
      ensures Cached() == old(Cached())
    {
      config := config["feed_url" := feedUrl];
      config := config["lobber_key" := lobberKey];
      config := config["proxy_port" := proxyPort];
      config := config["tracker_host" := trackerHost];
    }

    /** `start_proxy`, given `urlparse(self.tracker_host)`; it reads only the cached fields. */
    method StartProxy(tracker: ParsedUrl) returns (listener: Option<Listener>)
      ensures listener == ProxyFor(tracker, Format(lobberKey), proxyPort)
    {
      var u := UpstreamFor(tracker);
      var headers := map["X_LOBBER_KEY" := Format(lobberKey), "User-Agent" := UserAgent];
      var site := ReverseProxy.ProxyResource(u.host, u.port, "", Some(AnnounceRules), u.tls, headers);
      var port := IntOf(proxyPort);
      if port.None? {
        return None;
      }
      listener := Some(Listener("127.0.0.1", port.value, site));
    }

    /**
     * `process_json`: a body that is not JSON raises (`None`); otherwise one
     * add, with no options, for every item whose info hash is not in the
     * torrent list, in feed order.
     */
    method ProcessJson(feed: Feed, torrentList: set<string>) returns (adds: Option<seq<AddTorrent>>)
      ensures feed.Invalid? ==> adds.None?
      ensures feed.Items? ==> adds == Some(LegacyAdds(proxyPort, NewItems(feed.items, torrentList)))
    {
      if feed.Invalid? {
        return None;
      }
      var items := feed.items;
      var port := proxyPort;
      var added: seq<AddTorrent> := [];
      var i := 0;
      while i < |items|
        invariant 0 <= i <= |items|
        invariant added == LegacyAdds(port, NewItems(items[..i], torrentList))
      {
        var torrent := items[i];
        LegacyAddsStep(port, items, i, torrentList);
        if !(torrent.infoHash in torrentList) {
          var url := TorrentUrl(port, torrent.id);
          added := added + [AddTorrent(url, map[])];
        }
        i := i + 1;
      }
      assert items[..|items|] == items;
      return Some(added);
    }

    /** The request `fetch_json` issues, given `urlparse(self.feed_url)`. */
    method FetchJson(feed: ParsedUrl) returns (request: PageRequest)
      ensures request.url == LocalUrl(proxyPort, feed.path)
      ensures request.httpMethod == "GET" && request.agent == UserAgent
      ensures request.headers == map["X_LOBBER_KEY" := Format(lobberKey)]
    {
      var url := "http://127.0.0.1:" + Format(proxyPort) + feed.path;
      request := PageRequest(url, "GET", UserAgent, map["X_LOBBER_KEY" := Format(lobberKey)]);
    }

    /** `set_config`: each supplied key overwrites its entry; the cached fields stay as they are. */
    method SetConfig(update: Config)
      modifies this
      ensures config == old(config) + update
      ensures Cached() == old(Cached())
    {
      ghost var base := config;
      MergeDone(base, update);
      var todo := update.Keys;
      while todo != {}
        invariant todo <= update.Keys
        invariant config == MergedExcept(base, update, todo)
        invariant Cached() == old(Cached())
        decreases todo
      {
        var key :| key in todo;
        MergeStep(base, update, todo, key);
        config := config[key := update[key]];
        todo := todo - {key};
      }
    }
  }

  /**
   * With a numeric proxy port, the fetch URL names that port and the feed
   * URL's path, whether the port is stored as text (as this version's
   * default is) or as a number.
   */
  lemma FetchUrlRoundTrip(port: nat, path: string)
    requires path == [] || path[0] == '/'
    ensures LocalUrl(Str(Decimal.NatToString(port)), path) == LocalUrl(Int(port), path)
    ensures ParseLocalUrl(LocalUrl(Str(Decimal.NatToString(port)), path)) == Some((port, path))
  {
    LocalUrlRoundTrip(port, path);
  }

  /** The text port `'7001'` of this version and the number 7001 of the newer one build the same URLs. */
  lemma DefaultPortsAgree(path: string)
    ensures LocalUrl(DefaultPrefs["proxy_port"], path) == LocalUrl(LobberCore.DefaultPrefs["proxy_port"], path)
    ensures IntOf(DefaultPrefs["proxy_port"]) == Some(7001)
  {
    LobberCore.DefaultProxyPort();
    IntOfFormat(7001);
  }

  /** With the defaults, the item with id 42 is fetched from `http://127.0.0.1:7001/torrent/42.torrent`. */
  lemma DefaultTorrentUrl(it: FeedItem)
    requires it.id == Int(42)
    ensures LegacyAdd(DefaultPrefs["proxy_port"], it).url == "http://127.0.0.1:7001/torrent/42.torrent"
  {
    assert Decimal.NatToString(4) == "4";
    assert Decimal.NatToString(42) == "42";
    assert Format(it.id) == "42";
    assert TorrentPath(it.id) == "/torrent/42.torrent";
    assert LocalUrl(Str("7001"), "/torrent/42.torrent") == "http://127.0.0.1:7001/torrent/42.torrent";
  }
}
