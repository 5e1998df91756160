/**
 * The plugin core of lobbercore/core.py: its default preferences, the
 * options and URLs of the torrents it adds from the feed, the seeder-count
 * policy that pauses, resumes or removes finished torrents, and the
 * configuration merge. Deluge's torrent manager is modelled as the map of
 * torrent ids to their paused flag, and every request the core makes of the
 * torrent host is appended to a log.
 */
module LobberCore {
  import opened Wrappers
  import opened Plugin

  /** `DEFAULT_PREFS`. */
  const DefaultPrefs: Config := map[
    "feed_url" := Str("https://dev.lobber.se/torrent/all.json"),
    "lobber_key" := Str(""),
    "proxy_port" := Int(7001),
    "tracker_host" := Str("https://dev.lobber.se"),
    "stomp_host" := Str("stomp://dev.lobber.se"),
    "stomp_port" := Int(61613),
    "minutes_delay" := Int(1),
    "download_dir" := Str(""),
    "unique_path" := Bool(false),
    "monitor_torrents" := Bool(false),
    "remove_data" := Bool(false),
    "torrent_evaluator" := Str("total_seeders"),
    "removed_torrents" := Strs([]),
    "min_seeders" := Int(1),
    "max_seeders" := Int(2)
  ]

  /** Every default key is present; the values may be of any kind. */
  predicate HasDefaults(c: Config) {
    DefaultPrefs.Keys <= c.Keys
  }

  /** `removed_torrents`, which the feed filter and Remove read, is a list, as its default. */
  predicate RemovedTyped(c: Config) {
    "removed_torrents" in c ==> c["removed_torrents"].Strs?
  }

  /** The seeder thresholds, which only the evaluator reads, are integers, as their defaults. */
  predicate ThresholdsTyped(c: Config) {
    && ("min_seeders" in c ==> c["min_seeders"].Int?)
    && ("max_seeders" in c ==> c["max_seeders"].Int?)
  }

  predicate TypedEntries(c: Config) {
    RemovedTyped(c) && ThresholdsTyped(c)
  }

  /** What the feed filter and the actions read: every default key, and a list of removed torrents. */
  predicate RemovedWellTyped(c: Config) {
    HasDefaults(c) && RemovedTyped(c)
  }

  /**
   * What the evaluator reads besides: every default key is present, and
   * `min_seeders`, `max_seeders` and `removed_torrents` have the types of
   * their defaults. The other entries may hold any value.
   */
  predicate WellTyped(c: Config) {
    HasDefaults(c) && TypedEntries(c)
  }

  /**
   * `ConfigManager("lobbercore.conf", DEFAULT_PREFS)` has every default key
   * whatever is stored, and the typed entries are typed when the stored ones are.
   */
  lemma LoadedWellTyped(stored: Config)
    ensures HasDefaults(DefaultPrefs + stored)
    ensures RemovedTyped(stored) ==> RemovedWellTyped(DefaultPrefs + stored)
    ensures TypedEntries(stored) ==> WellTyped(DefaultPrefs + stored)
  {
  }

  /**
   * `set_config` never loses a default key, and keeps each typed entry
   * typed when the update does.
   */
  lemma MergeWellTyped(c: Config, update: Config)
    requires HasDefaults(c)
    ensures HasDefaults(c + update)
    ensures RemovedTyped(c) && RemovedTyped(update) ==> RemovedWellTyped(c + update)
    ensures WellTyped(c) && TypedEntries(update) ==> WellTyped(c + update)
  {
  }

  /**
   * A `max_seeders` stored as text still lets the proxy start, the feed be
   * read and the actions run; only the evaluator needs integer thresholds.
   */
  lemma TextThresholdAccepted()
    ensures RemovedWellTyped(DefaultPrefs["max_seeders" := Str("3")])
    ensures !WellTyped(DefaultPrefs["max_seeders" := Str("3")])
  {
  }

  function RemovedTorrents(c: Config): seq<string>
    requires RemovedWellTyped(c)
  {
    c["removed_torrents"].items
  }

  // ---------------------------------------------------------------------------
  // The host and the core's state

  /** A request the core makes of Deluge's torrent manager. */
  datatype HostCall = RemoveTorrent(id: string, removeData: Value) | PauseTorrent(id: string)
                    | ResumeTorrent(id: string) | ScrapeTracker(id: string)

  /**
   * The state the core works on: its configuration, the torrents Deluge
   * manages with their paused flag, and the requests made so far.
   */
  datatype State = State(config: Config, paused: map<string, bool>, calls: seq<HostCall>)

  /** What the feed filter treats as already known: current torrents and removed ones. */
  function KnownHashes(s: State): set<string>
    requires RemovedWellTyped(s.config)
  {
    s.paused.Keys + set h | h in RemovedTorrents(s.config)
  }

  /** The `add_torrent_url` call for one feed item. */
  function AddFor(c: Config, it: FeedItem): AddTorrent
    requires HasDefaults(c)
  {
    var unique := if Truthy(c["unique_path"]) then Some(it.infoHash) else None;
    AddTorrent(TorrentUrl(c["proxy_port"], it.id), TorrentOptions(c["download_dir"], unique))
  }

  /** The calls `process_json` makes for the selected items, in order. */
  function AddsFor(c: Config, items: seq<FeedItem>): (r: seq<AddTorrent>)
    requires HasDefaults(c)
    ensures |r| == |items|
  {
    seq(|items|, k requires 0 <= k < |items| => AddFor(c, items[k]))
  }

  /** The k-th call is the add for the k-th selected item. */
  lemma AddsForEach(c: Config, items: seq<FeedItem>)
    requires HasDefaults(c)
    ensures forall k :: 0 <= k < |items| ==> AddsFor(c, items)[k] == AddFor(c, items[k])
  {
  }

  lemma AddsForSnoc(c: Config, items: seq<FeedItem>, it: FeedItem)
    requires HasDefaults(c)
    ensures AddsFor(c, items + [it]) == AddsFor(c, items) + [AddFor(c, it)]
  {
    var l, r := AddsFor(c, items + [it]), AddsFor(c, items) + [AddFor(c, it)];
    assert |l| == |r|;
    forall k | 0 <= k < |l| ensures l[k] == r[k] {
      if k < |items| { assert (items + [it])[k] == items[k]; }
    }
  }

  /** One more feed item adds one more call exactly when its hash is not known. */
  lemma AddsStep(c: Config, items: seq<FeedItem>, i: nat, known: set<string>)
    requires HasDefaults(c) && i < |items|
    ensures AddsFor(c, NewItems(items[..i + 1], known))
         == AddsFor(c, NewItems(items[..i], known)) + (if items[i].infoHash in known then [] else [AddFor(c, items[i])])
  {
    var it := items[i];
    assert items[..i + 1] == items[..i] + [it];
    NewItemsAppend(items[..i], it, known);
    if it.infoHash !in known {
      AddsForSnoc(c, NewItems(items[..i], known), it);
    }
  }

  // ---------------------------------------------------------------------------
  // total_seeders_evaluator

  datatype Action = Remove | Pause | Resume

  /**
   * The seeder policy: at least `max_seeders` removes, otherwise at least
   * `min_seeders` pauses, otherwise resume. The fourth branch of the source,
   * no action, can never be taken.
   */
  function SeedersAction(seeders: int, minSeeders: int, maxSeeders: int): (a: Option<Action>)
    ensures a == Some(Remove) <==> seeders >= maxSeeders
    ensures a == Some(Pause) <==> minSeeders <= seeders < maxSeeders
    ensures a == Some(Resume) <==> seeders < maxSeeders && seeders < minSeeders
    ensures a.Some?
  {
    if seeders >= maxSeeders then Some(Remove)
    else if seeders >= minSeeders then Some(Pause)
    else if seeders < minSeeders then Some(Resume)
    else None
  }

  /** Raising the seeder count never makes the policy milder: Resume, then Pause, then Remove. */
  lemma SeedersActionMonotone(s1: int, s2: int, minSeeders: int, maxSeeders: int)
    requires s1 <= s2
    ensures SeedersAction(s1, minSeeders, maxSeeders) == Some(Remove) ==> SeedersAction(s2, minSeeders, maxSeeders) == Some(Remove)
    ensures SeedersAction(s2, minSeeders, maxSeeders) == Some(Resume) ==> SeedersAction(s1, minSeeders, maxSeeders) == Some(Resume)
  {
  }

  /** What `get_status(['total_seeds', 'state', 'is_finished'])` reports. */
  datatype Status = Status(totalSeeds: int, state: string, isFinished: bool)

  /** The two ways the evaluator is invoked: with a scrape reply, or on a polled torrent. */
  datatype Evaluation = ScrapeReply(infoHash: string, totalSeeds: int) | Poll(torrentId: string, status: Status)

  function EvaluatedId(e: Evaluation): string
  {
    match e
    case ScrapeReply(h, _) => h
    case Poll(id, _) => id
  }

  /** What the evaluator does about one torrent. */
  datatype Step = Idle | Scrape | Act(action: Option<Action>)

  /**
   * The decision of `total_seeders_evaluator`: an unfinished polled torrent
   * is left alone, a paused one is scraped first, and otherwise the seeder
   * count decides; a scrape reply always goes straight to the policy.
   */
  function EvaluatorStep(e: Evaluation, minSeeders: int, maxSeeders: int): (s: Step)
    ensures e.Poll? && !e.status.isFinished ==> s == Idle
    ensures e.Poll? && e.status.isFinished && e.status.state == "Paused" ==> s == Scrape
    ensures s.Act? <==> e.ScrapeReply? || (e.status.isFinished && e.status.state != "Paused")
    ensures s.Act? ==> s.action == SeedersAction(if e.ScrapeReply? then e.totalSeeds else e.status.totalSeeds,
                                                 minSeeders, maxSeeders)
  {
    match e
    case ScrapeReply(_, seeds) => Act(SeedersAction(seeds, minSeeders, maxSeeders))
    case Poll(_, status) =>
      if !status.isFinished then Idle
      else if status.state == "Paused" then Scrape
      else Act(SeedersAction(status.totalSeeds, minSeeders, maxSeeders))
  }

  // ---------------------------------------------------------------------------
  // monitor_torrent_execute_action

  /**
   * The effect of `monitor_torrent_execute_action`: Remove removes the torrent
   * (passing `remove_data`) and records its id in `removed_torrents`; Pause
   * pauses only a running torrent and Resume resumes only a paused one; no
   * action changes nothing.
   */
  function Execute(s: State, id: string, action: Option<Action>): State
    requires RemovedWellTyped(s.config) && id in s.paused
  {
    match action
    case None => s
    case Some(Remove) =>
      State(s.config["removed_torrents" := Strs(RemovedTorrents(s.config) + [id])], s.paused - {id},
            s.calls + [RemoveTorrent(id, s.config["remove_data"])])
    case Some(Pause) =>
      if !s.paused[id] then s.(paused := s.paused[id := true], calls := s.calls + [PauseTorrent(id)]) else s
    case Some(Resume) =>
      if s.paused[id] then s.(paused := s.paused[id := false], calls := s.calls + [ResumeTorrent(id)]) else s
  }

  /** Executing an action keeps every default key and the typed entries typed. */
  lemma ExecuteWellTyped(s: State, id: string, action: Option<Action>)
    requires RemovedWellTyped(s.config) && id in s.paused
    ensures RemovedWellTyped(Execute(s, id, action).config)
    ensures WellTyped(s.config) ==> WellTyped(Execute(s, id, action).config)
    ensures action != Some(Remove) ==> id in Execute(s, id, action).paused
  {
  }

  /**
   * Pause leaves the torrent paused and Resume leaves it running; a request
   * is made only when the flag changes; no other torrent and no
   * configuration entry is touched.
   */
  lemma PauseResumeEffect(s: State, id: string, action: Action)
    requires RemovedWellTyped(s.config) && id in s.paused && action != Remove
    ensures var t := Execute(s, id, Some(action));
      && t.config == s.config
      && id in t.paused && t.paused[id] == (action == Pause)
      && (forall k :: k in s.paused && k != id ==> k in t.paused && t.paused[k] == s.paused[k])
      && t.paused.Keys == s.paused.Keys
      && (t.calls == s.calls <==> s.paused[id] == (action == Pause))
      && (t.calls != s.calls ==> t.calls == s.calls + [if action == Pause then PauseTorrent(id) else ResumeTorrent(id)])
  {
  }

  /** Pausing, or resuming, twice is the same as doing it once. */
  lemma PauseResumeIdempotent(s: State, id: string, action: Action)
    requires RemovedWellTyped(s.config) && id in s.paused && action != Remove
    ensures var once := Execute(s, id, Some(action));
      RemovedWellTyped(once.config) && id in once.paused && Execute(once, id, Some(action)) == once
  {
    ExecuteWellTyped(s, id, Some(action));
  }

  /** Pausing a running torrent and resuming it restores every flag. */
  lemma PauseThenResume(s: State, id: string)
    requires RemovedWellTyped(s.config) && id in s.paused && !s.paused[id]
    ensures var p := Execute(s, id, Some(Pause));
      RemovedWellTyped(p.config) && id in p.paused
      && Execute(p, id, Some(Resume)).paused == s.paused
      && Execute(p, id, Some(Resume)).calls == s.calls + [PauseTorrent(id), ResumeTorrent(id)]
  {
    var p := Execute(s, id, Some(Pause));
    ExecuteWellTyped(s, id, Some(Pause));
    assert p.paused[id := false] == s.paused;
  }

  /**
   * Remove takes the torrent out of the manager, appends its id to
   * `removed_torrents`, leaves every other configuration entry and torrent
   * alone, and the removed torrent is then known to the feed filter.
   */
  lemma RemoveEffect(s: State, id: string)
    requires RemovedWellTyped(s.config) && id in s.paused
    ensures var t := Execute(s, id, Some(Remove));
      && RemovedWellTyped(t.config)
      && t.paused.Keys == s.paused.Keys - {id}
      && (forall k :: k in t.paused ==> t.paused[k] == s.paused[k])
      && RemovedTorrents(t.config) == RemovedTorrents(s.config) + [id]
      && (forall k :: k in s.config && k != "removed_torrents" ==> k in t.config && t.config[k] == s.config[k])
      && t.calls == s.calls + [RemoveTorrent(id, s.config["remove_data"])]
      && KnownHashes(t) == KnownHashes(s)
  {
    var t := Execute(s, id, Some(Remove));
    assert id in RemovedTorrents(t.config);
  }

  /** The whole of `total_seeders_evaluator`: scrape, act, or do nothing. */
  function Evaluate(s: State, e: Evaluation): State
    requires WellTyped(s.config) && EvaluatedId(e) in s.paused
  {
    var step := EvaluatorStep(e, s.config["min_seeders"].i, s.config["max_seeders"].i);
    match step
    case Idle => s
    case Scrape => s.(calls := s.calls + [ScrapeTracker(EvaluatedId(e))])
    case Act(a) => Execute(s, EvaluatedId(e), a)
  }

  /**
   * A finished torrent found paused is only scraped; when the scrape reply
   * then reports at least `max_seeders` seeders, it is removed.
   */
  lemma PausedTorrentScrapedThenRemoved(s: State, id: string, status: Status, seeds: int)
    requires WellTyped(s.config) && id in s.paused
    requires status.isFinished && status.state == "Paused"
    requires seeds >= s.config["max_seeders"].i
    ensures var scraped := Evaluate(s, Poll(id, status));
      && scraped == s.(calls := s.calls + [ScrapeTracker(id)])
      && Evaluate(scraped, ScrapeReply(id, seeds)) == Execute(scraped, id, Some(Remove))
  {
  }

  // ---------------------------------------------------------------------------
  // Core

  /** The plugin object: `self.config` plus the torrent host it talks to. */
  class Core {
    var config: Config
    var paused: map<string, bool>
    var calls: seq<HostCall>

    function Snapshot(): State
      reads this
    {
      State(config, paused, calls)
    }

    /** `enable`: the configuration is the stored one over `DEFAULT_PREFS`. */
    constructor (stored: Config, torrents: map<string, bool>)
      ensures config == DefaultPrefs + stored && paused == torrents && calls == []
    {
      config := DefaultPrefs + stored;
      paused := torrents;
      calls := [];
    }

    /** `start_proxy`, given `urlparse(config['tracker_host'])`. */
    method StartProxy(tracker: ParsedUrl) returns (listener: Option<Listener>)
      requires HasDefaults(config)
      ensures listener == ProxyFor(tracker, Format(config["lobber_key"]), config["proxy_port"])
    {
      var u := UpstreamFor(tracker);
      var headers := map["X_LOBBER_KEY" := Format(config["lobber_key"]), "User-Agent" := UserAgent];
      var site := ReverseProxy.ProxyResource(u.host, u.port, "", Some(AnnounceRules), u.tls, headers);
      var port := IntOf(config["proxy_port"]);
      if port.None? {
        return None;
      }
      listener := Some(Listener("127.0.0.1", port.value, site));
    }

    /** `get_torrent_options`. */
    method GetTorrentOptions(uniquePath: Option<string>) returns (opts: map<string, Value>)
      requires HasDefaults(config)
      ensures opts == TorrentOptions(config["download_dir"], uniquePath)
    {
      opts := map[];
      if Truthy(config["download_dir"]) {
        opts := opts["download_location" := config["download_dir"]];
        if uniquePath.Some? && uniquePath.value != "" {
          opts := opts["download_location" := Str(Format(opts["download_location"]) + uniquePath.value + "/")];
        }
      }
    }

    /** The body of the `process_json` loop for a new item: its URL and options. */
    method AddTorrentFor(torrent: FeedItem) returns (add: AddTorrent)
      requires HasDefaults(config)
      ensures add == AddFor(config, torrent)
    {
      var url := TorrentUrl(config["proxy_port"], torrent.id);
      var options: map<string, Value>;
      if Truthy(config["unique_path"]) {
        options := GetTorrentOptions(Some(torrent.infoHash));
      } else {
        options := GetTorrentOptions(None);
      }
      add := AddTorrent(url, options);
    }

    /**
     * `process_json`: one add for every feed item whose info hash is neither
     * a current torrent nor a removed one, in feed order; nothing for a body
     * that is not JSON.
     */
    method ProcessJson(feed: Feed) returns (adds: seq<AddTorrent>)
      requires RemovedWellTyped(config)
      ensures feed.Invalid? ==> adds == []
      ensures feed.Items? ==> adds == AddsFor(config, NewItems(feed.items, KnownHashes(Snapshot())))
    {
      adds := [];
      if feed.Invalid? {
        return;
      }
      var items := feed.items;
      var torrentList := paused.Keys;
      var removed := RemovedTorrents(config);
      ghost var c := config;
      ghost var known := KnownHashes(Snapshot());
      var i := 0;
      while i < |items|
        invariant 0 <= i <= |items|
        invariant adds == AddsFor(c, NewItems(items[..i], known))
      {
        var torrent := items[i];
        if !(torrent.infoHash in torrentList) && !(torrent.infoHash in removed) {
          var add := AddTorrentFor(torrent);
          assert AddsFor(c, NewItems(items[..i + 1], known)) == adds + [add] by {
            AddsStep(c, items, i, known);
            assert torrent.infoHash !in known;
          }
          adds := adds + [add];
        } else {
          assert AddsFor(c, NewItems(items[..i + 1], known)) == adds by {
            AddsStep(c, items, i, known);
            assert torrent.infoHash in known;
            assert adds + [] == adds;
          }
        }
        i := i + 1;
      }
      assert items[..|items|] == items;
    }

    /** `monitor_torrent_execute_action`. */
    method ExecuteAction(id: string, action: Option<Action>)
      requires RemovedWellTyped(config) && id in paused
      modifies this
      ensures Snapshot() == Execute(old(Snapshot()), id, action)
    {
      if action.Some? {
        match action.value {
          case Remove =>
            var removeData := config["remove_data"];
            paused := paused - {id};
            config := config["removed_torrents" := Strs(RemovedTorrents(config) + [id])];
            calls := calls + [RemoveTorrent(id, removeData)];
          case Pause =>
            if !paused[id] {
              paused := paused[id := true];
              calls := calls + [PauseTorrent(id)];
            }
          case Resume =>
            if paused[id] {
              paused := paused[id := false];
              calls := calls + [ResumeTorrent(id)];
            }
        }
      }
    }

    /** `total_seeders_evaluator`, for a scrape reply or a polled torrent. */
    method TotalSeedersEvaluator(e: Evaluation)
      requires WellTyped(config) && EvaluatedId(e) in paused
      modifies this
      ensures Snapshot() == Evaluate(old(Snapshot()), e)
    {
      var id: string;
      var seeders: int;
      match e {
        case ScrapeReply(h, seeds) =>
          id, seeders := h, seeds;
        case Poll(t, status) =>
          id := t;
          if !status.isFinished {
            return;
          }
          if status.state == "Paused" {
            calls := calls + [ScrapeTracker(id)];
            return;
          }
          seeders := status.totalSeeds;
      }
      var action: Option<Action>;
      if seeders >= config["max_seeders"].i {
        action := Some(Remove);
      } else if seeders >= config["min_seeders"].i {
        action := Some(Pause);
      } else if seeders < config["min_seeders"].i {
        action := Some(Resume);
      } else {
        action := None;
      }
      ExecuteAction(id, action);
    }

    /** `set_config`: each supplied key overwrites its entry, one at a time. */
    method SetConfig(update: Config)
      modifies this
      ensures config == old(config) + update
      ensures paused == old(paused) && calls == old(calls)
    {
      ghost var base := config;
      MergeDone(base, update);
      var todo := update.Keys;
      while todo != {}
        invariant todo <= update.Keys
        invariant config == MergedExcept(base, update, todo)
        invariant paused == old(paused) && calls == old(calls)
        decreases todo
      {
        var key :| key in todo;
        MergeStep(base, update, todo, key);
        config := config[key := update[key]];
        todo := todo - {key};
      }
    }
  }

  /** Both default configurations serve the proxy on port 7001. */
  lemma DefaultProxyPort()
    ensures IntOf(DefaultPrefs["proxy_port"]) == Some(7001)
    ensures Format(DefaultPrefs["proxy_port"]) == "7001"
  {
    assert Decimal.NatToString(7001) == "7001";
  }
}
