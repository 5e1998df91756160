# Lobber storage node core, modelled in Dafny

The Lobber storage node is a Deluge plugin. It polls a Lobber tracker's JSON
feed of torrents and adds the torrents it does not yet have. It also runs a
local reverse proxy that forwards the node's requests to the tracker. The
proxy injects the node's key header, names the port in the Host header only
when it is not the scheme's default, and rewrites `/tracker/announce` to `/tracker/uannounce`. The
newer plugin core can also pause, resume or remove finished torrents,
depending on how many seeders the tracker reports.

The project models four parts of that code:

- **`ReverseProxy`** (`proxy.dfy`) models the reverse proxy resource. Its
  configuration is a value, and `GetChild` spawns one child per quoted path
  segment. `Render` is a method over a mutable `Request`: it sets the Host
  header, rewrites the path with the anchored-literal rules the plugin
  configures, overlays the injected headers, and returns the one upstream
  connection (TLS or plain TCP) with the proxy client's arguments.
  `PercentEncoding` (`percent.dfy`) models Python 2's
  `urllib.quote(s, safe="")`. The partner it is proved against is the
  percent-decoding of section 2.1 of RFC 3986.
- **`Retry`** (`retry.dfy`) models the retry combinator:
  - `simpleBackoffIterator` becomes a loop that computes the whole finite
    schedule.
  - `TwitterFailureTester` becomes a class whose `seen404` flag flips once.
  - `RetryingCall` becomes a class whose `Call`, `Err` and `Start` methods
    follow `_call`, `_err` and `start`. Each method is proved against the
    specification functions `CallRun`/`ErrRun`, and the lemmas about a call
    are stated on those functions.
  - Time is a delay drawn per attempt. The operation is a script of outcomes
    indexed by the invocation number.
- **`LobberCore`** (`lobbercore.dfy`) models the newer plugin,
  `lobbercore/core.py`:
  - its defaults, `start_proxy`, `get_torrent_options`, `process_json`, the
    seeder evaluator, `monitor_torrent_execute_action` and `set_config`;
  - the defaults are the module constant `DefaultPrefs`; the operations are
    methods of a `Core` class whose state is the configuration, Deluge's
    torrents (id to paused flag) and a log of the torrent-manager requests
    (remove, pause, resume, scrape). The `add_torrent_url` requests of
    `process_json` are returned by `ProcessJson` rather than logged.
  - each method requires only what the source reads: the default keys for
    `start_proxy` and `get_torrent_options`, also a list `removed_torrents`
    for `process_json` and the actions, and integer thresholds only for the
    evaluator. Loading over the defaults gives every default key, and
    `set_config` never removes one (`LoadedWellTyped`, `MergeWellTyped`).
- **`LegacyCore`** (`legacycore.dfy`) models the older plugin,
  `LobberCore/deluge/plugins/lobbercore/core.py`. It caches five
  configuration entries in fields at load time, writes four of them back on
  disable, and uses its cached fields in `start_proxy`, `process_json` and
  `fetch_json`.

What both versions share lives in `Plugin` (`plugin.dfy`):

- configuration values with Python truthiness, `'%s' %` and `int()`;
- the `urlparse`/`splitnport` derivation of the upstream tracker;
- the local URLs the plugin builds, and how the local server reads them back;
- the feed filter;
- the key-by-key merge of `set_config`.

`Decimal` (`decimal.dfy`) prints integers and parses them back.

Inputs from the host appear as parameters:

- the parsed feed (`json.loads`);
- the parsed URLs (`urlparse`);
- Deluge's torrent list;
- the stored configuration;
- each invocation's outcome.

Behaviour of the code worth noting:

- `render` builds the forwarded target from the request URI only. The
  resource's own `path`, which `getChild` extends, is never used. Every
  child therefore forwards exactly what its root forwards
  (`ReverseProxy.TargetIgnoresResourcePath`).
- A tracker URL with an explicit port `0` gets the scheme's default port,
  because `if not tracker_port` treats 0 as missing.
- When the delays run out before any failure has been recorded,
  `RetryingCall` fails with the `StopIteration` that is being handled.
- The fourth branch of the seeder policy (no action) can never be taken.
- The older core's `disable` writes its cached values back over any change
  `set_config` made to those four entries.

## Model

| member | source | states |
|---|---|---|
| Decimal.NatToString | lobbercore/proxy.py:89 | `%d` of a natural number: a non-empty text of decimal digits; `NatToStringRoundTrip` and `NatToStringInjective` are proved about it |
| Decimal.IntToString | lobbercore/core.py:138 | `%s` of an integer: the digits of its magnitude, with `-` exactly for a negative number; `Plugin.IntOfFormat` reads it back |
| Decimal.ParseNat | lobbercore/core.py:111 | the digits part of `int()`: a number exactly for a non-empty text of digits |
| Decimal.NatToStringRoundTrip | lobbercore/core.py:111 | the decimal text of a natural number parses back to that number |
| Decimal.NatToStringInjective | lobbercore/core.py:138 | different numbers print as different text, so a URL names one torrent id |
| PercentEncoding.Quote | lobbercore/proxy.py:73 | `urlquote(path, safe="")` byte by byte: the result is never shorter than the segment; its inverse and alphabet are proved in the `Quote...` lemmas below |
| PercentEncoding.QuoteCharRoundTrip | lobbercore/proxy.py:73 | decoding undoes the escape of one byte, whatever follows it |
| PercentEncoding.QuoteRoundTrip | lobbercore/proxy.py:73 | decoding a quoted segment gives back the segment |
| PercentEncoding.QuoteAlphabet | lobbercore/proxy.py:73 | a quoted segment holds only letters, digits, `_.-`, `%` and hex digits |
| PercentEncoding.QuoteHasNoSlash | lobbercore/proxy.py:73 | with `safe=""` a quoted segment never contains `/` |
| PercentEncoding.QuoteSafeIdentity | lobbercore/proxy.py:73 | a segment of safe characters only is left unchanged |
| ReverseProxy.GetChild | lobbercore/proxy.py:64-77 | `getChild`: the same resource with `/` and the quoted segment appended to the path; specified by the three `Child...` lemmas below |
| ReverseProxy.Descend | lobbercore/proxy.py:64-77 | one `getChild` per request path segment; specified by `DescendAddsSlashes` and `TargetIgnoresResourcePath` |
| ReverseProxy.ChildCopiesConfiguration | lobbercore/proxy.py:70-77 | a child keeps host, port, rules, TLS and headers; its path is the parent's path, `/` and the quoted segment |
| ReverseProxy.ChildAddsOneSlash | lobbercore/proxy.py:73 | a child's path has exactly one `/` more than its parent's |
| ReverseProxy.ChildSegmentRoundTrip | lobbercore/proxy.py:73 | splitting a child's path at its last `/` gives the parent's path and a segment that decodes to the original |
| ReverseProxy.DescendAddsSlashes | lobbercore/proxy.py:64-77 | routing through n segments keeps the configuration and adds n slashes |
| ReverseProxy.HostHeader | lobbercore/proxy.py:86-89 | the Host header is the bare host exactly when the port is the scheme's default (443 with TLS, 80 without) |
| ReverseProxy.HostHeaderRoundTrip | lobbercore/proxy.py:84-90 | a server reading either Host header form, with a missing port meaning the default, recovers the configured host and port |
| ReverseProxy.RewriteAll | lobbercore/proxy.py:95-96 | the rewrite loop as a left fold of `ApplyRule` over the rules in order; specified by `RewriteAllAppend`, `RewriteAllStable` and `RewriteIdempotent` |
| ReverseProxy.RewrittenPath | lobbercore/proxy.py:94-96 | the loop's guard: an empty path, or no rules, is not rewritten; the `RewritePath` method is proved equal to it |
| ReverseProxy.Target | lobbercore/proxy.py:97-100 | `rest`: the path, followed by `?` and the query string only when there is one; `TargetRoundTrip` inverts it |
| ReverseProxy.ForwardTarget | lobbercore/proxy.py:93-100 | the forwarded target: the rewritten path with the query string; `Render` is proved to send it |
| ReverseProxy.ApplyRule | lobbercore/proxy.py:96 | a path the pattern does not match is unchanged; otherwise the leftmost match (before a final newline if there is one) is replaced once |
| ReverseProxy.ApplyRuleReplacesOnce | lobbercore/proxy.py:96 | a matching rule replaces one occurrence and keeps the rest of the path |
| ReverseProxy.RewriteAllAppend | lobbercore/proxy.py:95-96 | applying a concatenation of rule lists is applying the first list, then the second |
| ReverseProxy.RewriteAllStable | lobbercore/proxy.py:94-96 | a path no rule matches is forwarded unchanged |
| ReverseProxy.RewriteIdempotent | lobbercore/proxy.py:94-96 | when no rule matches the rewritten path, a second rewrite changes nothing |
| ReverseProxy.TargetRoundTrip | lobbercore/proxy.py:97-100 | a forwarded target splits back into the rewritten path and exactly the original query string |
| ReverseProxy.InjectHeaders | lobbercore/proxy.py:102-103 | each injected header ends up with exactly its injected value; every other header keeps its values |
| ReverseProxy.AllHeaders | lobbercore/proxy.py:105-107 | the forwarded headers are the last raw value of every request header |
| ReverseProxy.Request.constructor | lobbercore/proxy.py:105-107 | the request holds the command, URI, protocol, body and headers it was given |
| ReverseProxy.RewritePath | lobbercore/proxy.py:93-96 | the rewrite loop yields the rewritten path, skipping the rules for an empty path or no rules |
| ReverseProxy.SetInjectedHeaders | lobbercore/proxy.py:102-103 | the `setRawHeaders` loop leaves the request headers as the injection of the resource headers |
| ReverseProxy.Render | lobbercore/proxy.py:80-116 | render sets Host, then overlays the injected headers; the client gets method, rewritten target, protocol, the resulting headers and body; the connection is SSL exactly when TLS is configured |
| ReverseProxy.RenderHeaders | lobbercore/proxy.py:86-103 | after render, injected headers carry their value, `host` carries the computed header unless injected, and every other client header is as sent |
| ReverseProxy.TargetIgnoresResourcePath | lobbercore/proxy.py:64-100 | every resource reached through `getChild` segments forwards to the same host, port and TLS setting, and the same target, as the resource it started from |
| ReverseProxy.AnnounceScenario | lobbercore/proxy.py:93-100 | `/tracker/announce?x=1` is forwarded as `/tracker/uannounce?x=1` |
| ReverseProxy.AnnounceOutputUnmatched | lobbercore/proxy.py:96 | the announce rule does not match what it produces |
| ReverseProxy.AnnounceRewriteIdempotent | lobbercore/proxy.py:94-96 | rewriting with the plugin's announce rule is idempotent |
| Retry.Growing | LobberCore/build/lib.linux-x86_64-2.7/deluge/plugins/lobbercore/retry.py:72-75 | the `while remaining > 0` part of the schedule; `GrowingShape` states its length and elements |
| Retry.BackoffDelays | LobberCore/build/lib.linux-x86_64-2.7/deluge/plugins/lobbercore/retry.py:61-75 | the whole schedule `simpleBackoffIterator` yields; specified by `BackoffShape`, `DoublingIterate` and `ThreeDelayScenario` |
| Retry.Capped | LobberCore/build/lib.linux-x86_64-2.7/deluge/plugins/lobbercore/retry.py:73 | a yielded delay is never above `maxDelay` and is either the current delay or `maxDelay` |
| Retry.SimpleBackoffIterator | LobberCore/build/lib.linux-x86_64-2.7/deluge/plugins/lobbercore/retry.py:61-75 | the loop yields the schedule of `BackoffDelays`, using doubling when no increment is given |
| Retry.GrowingShape | LobberCore/build/lib.linux-x86_64-2.7/deluge/plugins/lobbercore/retry.py:72-75 | the growing part has `count` delays; the k-th is the k-th increment of the initial delay, capped |
| Retry.BackoffShape | LobberCore/build/lib.linux-x86_64-2.7/deluge/plugins/lobbercore/retry.py:61-75 | the schedule has exactly `maxResults` delays; with `now` the first is 0.0; each other delay is the capped current delay, at most `maxDelay` |
| Retry.DoublingIterate | LobberCore/build/lib.linux-x86_64-2.7/deluge/plugins/lobbercore/retry.py:66 | with the default increment, the k-th delay is `initDelay * 2^k` |
| Retry.ThreeDelayScenario | LobberCore/build/lib.linux-x86_64-2.7/deluge/plugins/lobbercore/retry.py:61-75 | three results from 0.01 with `now` are 0.0, 0.01, 0.02 |
| Retry.IgnoreAll | LobberCore/build/lib.linux-x86_64-2.7/deluge/plugins/lobbercore/retry.py:52 | the default tester ignores every failure and keeps its state |
| Retry.TwitterTest | LobberCore/build/lib.linux-x86_64-2.7/deluge/plugins/lobbercore/retry.py:91-105 | it raises exactly for failures `trap` rejects; it retries a refused connection (status 500), an ok status (500, 502, 400, 503) and a first 404; it propagates a later 404 and any other status; `seen404` becomes set by a 404 |
| Retry.TwitterFailureTester.constructor | LobberCore/build/lib.linux-x86_64-2.7/deluge/plugins/lobbercore/retry.py:88-89 | a new tester has not seen a 404 |
| Retry.TwitterFailureTester.Call | LobberCore/build/lib.linux-x86_64-2.7/deluge/plugins/lobbercore/retry.py:91-105 | the verdict and the new `seen404` are those of `TwitterTest` on the old flag |
| Retry.TwitterSeen404Sticks | LobberCore/build/lib.linux-x86_64-2.7/deluge/plugins/lobbercore/retry.py:99-103 | `seen404` never resets; a 404 after one is propagated; the first one is ignored and sets the flag |
| Retry.EffectiveBackoff | LobberCore/build/lib.linux-x86_64-2.7/deluge/plugins/lobbercore/retry.py:51 | an omitted or empty list of delays selects the default schedule; any other argument is used as given |
| Retry.RetryingCall.constructor | LobberCore/build/lib.linux-x86_64-2.7/deluge/plugins/lobbercore/retry.py:20-23 | a new call stores the operation, with nothing invoked, drawn or recorded |
| Retry.CallRun | LobberCore/build/lib.linux-x86_64-2.7/deluge/plugins/lobbercore/retry.py:39-48 | `_call` as a function of the state: exhaustion errbacks with the recorded failure, otherwise the next delay is drawn and the invocation's outcome is delivered or passed to `ErrRun`; its properties are the `CallRun...` and `...Failure` lemmas below |
| Retry.ErrRun | LobberCore/build/lib.linux-x86_64-2.7/deluge/plugins/lobbercore/retry.py:25-37 | `_err`: the first failure is recorded; a raising tester errbacks, a returned failure is propagated, and otherwise `CallRun` retries |
| Retry.StartRun | LobberCore/build/lib.linux-x86_64-2.7/deluge/plugins/lobbercore/retry.py:50-56 | `start` after the schedule and tester are installed: a `CallRun` with no invocation made and no failure recorded |
| Retry.RetryingCall.Call | LobberCore/build/lib.linux-x86_64-2.7/deluge/plugins/lobbercore/retry.py:39-48 | `_call` leaves the state that `CallRun` specifies: deferred outcome, invocation count, delays drawn and left, tester state, recorded failure |
| Retry.RetryingCall.Err | LobberCore/build/lib.linux-x86_64-2.7/deluge/plugins/lobbercore/retry.py:25-37 | `_err` records the failure if none is recorded and continues as `ErrRun` specifies |
| Retry.RetryingCall.Start | LobberCore/build/lib.linux-x86_64-2.7/deluge/plugins/lobbercore/retry.py:50-56 | start installs the effective schedule and the tester (default: ignore all), clears the failure, makes the first call, and returns the outcome the deferred fires with |
| Retry.CallKeepsFailure | LobberCore/build/lib.linux-x86_64-2.7/deluge/plugins/lobbercore/retry.py:26-27 | a recorded failure is never overwritten by `_call` |
| Retry.ErrKeepsFailure | LobberCore/build/lib.linux-x86_64-2.7/deluge/plugins/lobbercore/retry.py:26-27 | a recorded failure is never overwritten by `_err` |
| Retry.UnfoldFailure | LobberCore/build/lib.linux-x86_64-2.7/deluge/plugins/lobbercore/retry.py:25-48 | after a failed invocation, an ignoring tester continues from the next delay; a returned failure is errbacked as propagated; a raised error as raised |
| Retry.FirstFailureRecorded | LobberCore/build/lib.linux-x86_64-2.7/deluge/plugins/lobbercore/retry.py:26-27 | a fresh call ends with the first invocation's failure recorded, or none when it succeeded or there was no delay |
| Retry.ExhaustionReportsRecorded | LobberCore/build/lib.linux-x86_64-2.7/deluge/plugins/lobbercore/retry.py:42-44 | when the delays run out, the call errbacks with the recorded failure, or `StopIteration` when none is recorded |
| Retry.ExhaustionReportsFirstFailure | LobberCore/build/lib.linux-x86_64-2.7/deluge/plugins/lobbercore/retry.py:42-44 | an exhausted fresh call reports the failure of its first invocation, not its last |
| Retry.CallRunDelays | LobberCore/build/lib.linux-x86_64-2.7/deluge/plugins/lobbercore/retry.py:40-47 | each invocation draws the next delay: the delays drawn, followed by the delays left, are the schedule, one drawn per invocation |
| Retry.CallRunBounded | LobberCore/build/lib.linux-x86_64-2.7/deluge/plugins/lobbercore/retry.py:40-47 | a call makes at most one invocation per delay, and the delays drawn are a prefix of the schedule |
| Retry.CallRunEnding | LobberCore/build/lib.linux-x86_64-2.7/deluge/plugins/lobbercore/retry.py:39-48 | every invocation before the last one failed; a delivered result is the last invocation's value; exhaustion uses every delay; a propagated or raised ending follows a failure |
| Retry.IgnoreAllExhausts | LobberCore/build/lib.linux-x86_64-2.7/deluge/plugins/lobbercore/retry.py:52 | with the default tester, an always-failing operation is invoked once per delay and fails with the first failure |
| Retry.IgnoreAllInvokedOncePerDelay | LobberCore/build/lib.linux-x86_64-2.7/deluge/plugins/lobbercore/retry.py:50-55 | a fresh call of an always-failing operation makes as many invocations as there are delays and reports the first failure |
| Retry.IgnoreAllDeliversFirstSuccess | LobberCore/build/lib.linux-x86_64-2.7/deluge/plugins/lobbercore/retry.py:48 | with the default tester, the first success within the schedule is delivered and nothing is invoked after it |
| Retry.TesterStopsAtOnce | LobberCore/build/lib.linux-x86_64-2.7/deluge/plugins/lobbercore/retry.py:33-34 | a tester that does not ignore the first failure ends the call after one invocation with its verdict's failure |
| Retry.NotFoundThenSuccess | LobberCore/build/lib.linux-x86_64-2.7/deluge/plugins/lobbercore/retry.py:99-103 | a first 404 is retried and the page fetched next is delivered after two invocations |
| Retry.NotFoundTwice | LobberCore/build/lib.linux-x86_64-2.7/deluge/plugins/lobbercore/retry.py:99-101 | a second 404 is propagated after two invocations, with the first 404 recorded |
| Plugin.Format | lobbercore/core.py:138 | `%s` of a string is the string; of an int, its decimal text; of a boolean, `True`/`False` |
| Plugin.ParseInt | lobbercore/core.py:111 | `int()` of text: an optional sign and digits; `ParseIntOfNat` and `IntOfFormat` are proved about it |
| Plugin.IntOf | lobbercore/core.py:111 | `int()` keeps integers, maps booleans to 0/1, parses text, and fails on a list |
| Plugin.ParseIntOfNat | lobbercore/core.py:111 | `int()` reads the text of a natural number, with or without a minus sign |
| Plugin.IntOfFormat | LobberCore/deluge/plugins/lobbercore/core.py:94 | `int(str(i)) == i` for every integer |
| Plugin.LastIndexOf | lobbercore/core.py:101 | it finds the position of the last occurrence, or none exactly when the character is absent |
| Plugin.SplitNPortHost | lobbercore/core.py:101 | the host is the whole netloc when there is no `:`, otherwise the prefix before the last `:` |
| Plugin.SplitNPortHostOf | lobbercore/core.py:101 | `host:port` yields `host`, even when the host itself contains `:` |
| Plugin.UpstreamFor | lobbercore/core.py:91-101 | TLS exactly for `https`; a non-zero explicit port is kept, else 443/80; the host comes from `splitnport` |
| Plugin.UpstreamHostHeader | lobbercore/core.py:92-100 | the proxy sends a bare Host header exactly when the tracker URL has no port, port 0 or the scheme's default port |
| Plugin.DefaultTrackerScenario | lobbercore/core.py:23 | the default tracker gives `dev.lobber.se` on port 443 over TLS |
| Plugin.ProxyFor | lobbercore/core.py:102-113 | a listener exists exactly when `int(proxy_port)` succeeds; it binds 127.0.0.1 at that port and serves a root resource for the upstream with the announce rule and the key and user-agent headers |
| Plugin.ProxyInjectsKey | lobbercore/core.py:109 | every proxied request carries the node's key and user agent |
| Plugin.LocalUrl | lobbercore/core.py:162 | `http://127.0.0.1:%s%s` of the proxy port and a path; `LocalUrlRoundTrip` reads it back |
| Plugin.TorrentUrl | lobbercore/core.py:138 | `http://127.0.0.1:%s/torrent/%s.torrent`; `TorrentUrlRoundTrip` reads it back |
| Plugin.LocalUrlRoundTrip | lobbercore/core.py:162 | a local URL reads back as its port and path |
| Plugin.TorrentUrlRoundTrip | lobbercore/core.py:138 | a torrent URL reads back as the proxy port and the id's text |
| Plugin.NewItems | lobbercore/core.py:136-137 | the selected items are exactly the feed items with an unknown hash, and no more than the feed has |
| Plugin.NewItemsInOrder | lobbercore/core.py:136-137 | the selected items are a subsequence of the feed: feed order is kept and nothing is repeated beyond the feed |
| Plugin.NewItemsAppend | lobbercore/core.py:136-137 | one more feed item is selected exactly when its hash is unknown |
| Plugin.NothingNewNothingAdded | lobbercore/core.py:145-147 | a feed of known torrents selects nothing |
| Plugin.TorrentOptions | lobbercore/core.py:115-126 | a falsy download directory gives no options; otherwise the only option is `download_location`, which is the directory itself when no unique path is given |
| Plugin.UniquePathLocation | lobbercore/core.py:121-124 | with a truthy download directory and a non-empty unique path, the only option is `download_location` = `download_dir + unique_path + "/"` |
| Plugin.UniqueLocations | lobbercore/core.py:123-124 | a unique location is under the download directory and ends in `/`; different unique paths give different options |
| Plugin.MergeStep | lobbercore/core.py:251-252 | one loop step writes one more supplied key |
| Plugin.MergeDone | lobbercore/core.py:251-252 | before the loop the configuration is the old one; after it, old merged with update |
| Plugin.MergeOverwritesExactly | lobbercore/core.py:251-252 | the supplied keys take their new values and every other key keeps its value |
| LobberCore.LoadedWellTyped | lobbercore/core.py:47 | the stored configuration over `DEFAULT_PREFS` has every default key whatever is stored; `removed_torrents`, `min_seeders` and `max_seeders` keep their defaults' types when the stored values have them |
| LobberCore.TextThresholdAccepted | lobbercore/core.py:128-147 | a configuration whose `max_seeders` is the text `"3"` has what `process_json`, the actions, `start_proxy` and `get_torrent_options` read, and is refused only by the evaluator |
| LobberCore.MergeWellTyped | lobbercore/core.py:248-253 | `set_config` never loses a default key; an update with the right types keeps `removed_torrents`, and the thresholds, typed |
| LobberCore.AddFor | lobbercore/core.py:138-143 | the `add_torrent_url` call for one item: the torrent URL from `proxy_port` and the id, and `TorrentOptions` with the info hash as unique path exactly when `unique_path` is truthy |
| LobberCore.AddsFor | lobbercore/core.py:136-143 | one call per selected item, so as many calls as items; `AddsForEach` and `AddsStep` say which |
| LobberCore.AddsForEach | lobbercore/core.py:138-143 | the calls are one `add_torrent_url` per selected item, in order, each with that item's torrent URL and options |
| LobberCore.AddsStep | lobbercore/core.py:136-147 | one more feed item adds a call exactly when its hash is neither current nor removed |
| LobberCore.SeedersAction | lobbercore/core.py:232-244 | Remove exactly at or above `max_seeders`; Pause exactly at or above `min_seeders` and below the maximum; Resume otherwise; never no action |
| LobberCore.SeedersActionMonotone | lobbercore/core.py:232-244 | more seeders never give a milder action |
| LobberCore.EvaluatorStep | lobbercore/core.py:220-245 | an unfinished polled torrent is left alone; a paused one is scraped; otherwise, and for every scrape reply, the seeder policy acts on the reported count |
| LobberCore.Execute | lobbercore/core.py:198-212 | the effect of `monitor_torrent_execute_action` on the state; specified by `PauseResumeEffect`, `RemoveEffect` and the lemmas around them |
| LobberCore.ExecuteWellTyped | lobbercore/core.py:198-212 | executing an action keeps every default key and a list `removed_torrents`, and typed thresholds stay typed |
| LobberCore.PauseResumeEffect | lobbercore/core.py:207-212 | Pause leaves the torrent paused and Resume running; a request is made only on a change; nothing else changes |
| LobberCore.PauseResumeIdempotent | lobbercore/core.py:207-212 | repeating Pause or Resume changes nothing |
| LobberCore.PauseThenResume | lobbercore/core.py:207-212 | pausing a running torrent and resuming it restores every flag, with two requests made |
| LobberCore.RemoveEffect | lobbercore/core.py:201-206 | Remove removes the torrent with `remove_data`, appends its id to `removed_torrents`, and leaves other torrents and entries alone |
| LobberCore.Evaluate | lobbercore/core.py:214-245 | `total_seeders_evaluator` on the state: `EvaluatorStep` with the configured thresholds, then nothing, a scrape request, or `Execute` |
| LobberCore.PausedTorrentScrapedThenRemoved | lobbercore/core.py:227-235 | a finished paused torrent is only scraped; a reply with at least `max_seeders` then removes it |
| LobberCore.Core.constructor | lobbercore/core.py:47 | the configuration is the stored one over `DEFAULT_PREFS`, with no request made |
| LobberCore.Core.StartProxy | lobbercore/core.py:90-113 | for any configuration with the default keys, the proxy listener is `ProxyFor` the tracker, the key's text and `proxy_port` |
| LobberCore.Core.GetTorrentOptions | lobbercore/core.py:115-126 | for any configuration with the default keys, the options are `TorrentOptions` of `download_dir` |
| LobberCore.Core.AddTorrentFor | lobbercore/core.py:138-143 | the URL and options built in the loop body are `AddFor` of the configuration and the item |
| LobberCore.Core.ProcessJson | lobbercore/core.py:128-147 | a body that is not JSON adds nothing; otherwise one add per item whose hash is neither current nor removed, in feed order |
| LobberCore.Core.ExecuteAction | lobbercore/core.py:198-212 | the new state is `Execute` of the old one |
| LobberCore.Core.TotalSeedersEvaluator | lobbercore/core.py:214-245 | the new state is `Evaluate` of the old one |
| LobberCore.Core.SetConfig | lobbercore/core.py:248-253 | the configuration becomes old merged with update; torrents and requests are unchanged |
| LobberCore.DefaultProxyPort | lobbercore/core.py:22 | the default proxy port is 7001, as a number and as text |
| LegacyCore.CacheOf | LobberCore/deluge/plugins/lobbercore/core.py:62-66 | the cache holds the five loaded entries |
| LegacyCore.WriteBack | LobberCore/deluge/plugins/lobbercore/core.py:34-37 | the four cached entries are written and every other entry is kept |
| LegacyCore.WriteBackRoundTrip | LobberCore/deluge/plugins/lobbercore/core.py:33-38 | disabling right after loading leaves the configuration as it was |
| LegacyCore.DisableRevertsCachedEntries | LobberCore/deluge/plugins/lobbercore/core.py:33-38 | after `set_config`, disable restores the loaded values of the four cached entries; other changes survive |
| LegacyCore.LegacyAdd | LobberCore/deluge/plugins/lobbercore/core.py:104-105 | the older core's call for one item: the torrent URL from the cached port and no options |
| LegacyCore.LegacyAdds | LobberCore/deluge/plugins/lobbercore/core.py:102-106 | one add per item, with the torrent URL and no options |
| LegacyCore.LegacyAddsStep | LobberCore/deluge/plugins/lobbercore/core.py:102-108 | one more item adds a call exactly when its hash is not in the torrent list |
| LegacyCore.Core.constructor | LobberCore/deluge/plugins/lobbercore/core.py:27-29 | before `enable` nothing is loaded |
| LegacyCore.Core.LoadConfig | LobberCore/deluge/plugins/lobbercore/core.py:60-66 | the configuration is the stored one over the defaults, and the fields cache its five entries |
| LegacyCore.Core.Disable | LobberCore/deluge/plugins/lobbercore/core.py:33-38 | the four cached fields are written back into the configuration; the fields are unchanged |
| LegacyCore.Core.StartProxy | LobberCore/deluge/plugins/lobbercore/core.py:71-96 | the listener is `ProxyFor` the tracker, the cached key's text and the cached port |
| LegacyCore.Core.ProcessJson | LobberCore/deluge/plugins/lobbercore/core.py:98-109 | a body that is not JSON raises; otherwise one add per item whose hash is not in Deluge's list, in feed order |
| LegacyCore.Core.FetchJson | LobberCore/deluge/plugins/lobbercore/core.py:121-136 | the feed is fetched by GET from the local proxy at the cached port and feed path, with the node's user agent and key |
| LegacyCore.Core.SetConfig | LobberCore/deluge/plugins/lobbercore/core.py:138-143 | the configuration becomes old merged with update; the cached fields are unchanged |
| LegacyCore.FetchUrlRoundTrip | LobberCore/deluge/plugins/lobbercore/core.py:125 | a text port and the same numeric port build the same URL, which reads back as port and path |
| LegacyCore.DefaultPortsAgree | LobberCore/deluge/plugins/lobbercore/core.py:20 | the text default `'7001'` builds the same URLs as the newer numeric default, and `int()` reads 7001 |
| LegacyCore.DefaultTorrentUrl | LobberCore/deluge/plugins/lobbercore/core.py:104 | with the defaults, item 42 is fetched from `http://127.0.0.1:7001/torrent/42.torrent` |

## Left out

- Networking and the event loop are not modelled: `reactor.connectTCP`, `connectSSL`, `listenTCP`, `client.getPage`, `task.deferLater` and the TLS context. `Render` returns the connection it would open, and `ProxyFor` returns the listener it would bind.
- `CannotListenError` is not modelled; the only listener failure modelled is a failing `int(proxy_port)`.
- The `reactor` argument of the resource is not modelled, since it only selects where connections are opened.
- Time is not modelled: a delay is a value drawn per attempt, and the deferred's firing is the outcome of a call.
- `ProxyClientFactory` and the upstream exchange are not modelled: the model stops at the factory's arguments.
- Logging is left out, since it has no effect on state.
- The plugin lifecycle is left out: `enable`/`disable` registration with Deluge's alert manager, `start_plugin`/`stop_plugin`, `reload`, `update`, `get_config`, the `LoopingCall` timers (including the older core's second `start` of the same timer) and the `TCPClient` for STOMP. These only connect the modelled operations to Deluge and Twisted.
- `monitor_torrents` and `on_scrape_reply_alert` are left out. They only look up the evaluator and call it per torrent or per alert, which `TotalSeedersEvaluator` models for one evaluation.
- `fetch_json_error` and `proxy_error` are left out. These errbacks trap, log and restart the proxy, all of which is Twisted plumbing.
- `config.save()` is left out; persistence is outside the model.
- `lobbercore/stomp_client.py`, the Python 2.6 build copy of the core and the web UI script are not part of this model.
- `json.loads` and `urlparse` are inputs: the feed arrives parsed as a `Feed`, and URLs as `ParsedUrl`/`ParsedUri`.
- Header names are used as given; Twisted's case-insensitive header storage is not modelled.
- ReverseProxy.ApplyRule: only rules of the form the plugin configures, an end-anchored literal pattern with a literal replacement. General regular expressions are not modelled.
- Plugin.IntOf: Python's `int()` also accepts text with surrounding whitespace; the model accepts an optional sign followed by digits, and nothing else.
- Plugin.Format: the `repr` of a list value is given without escaping quotes or backslashes inside the strings.
- Retry.SimpleBackoffIterator: Python generators are lazy; the model computes the finite schedule at once. An unbounded custom iterator is modelled as a finite delay sequence.
- LobberCore.Core.TotalSeedersEvaluator: thresholds `min_seeders`/`max_seeders` of another type than `int` are ordered by Python 2's mixed-type comparison (`seeders >= None` holds, for example). The model covers `int` thresholds only, by way of `WellTyped`.
- LobberCore.Core.ExecuteAction: the model covers a list `removed_torrents` only, by way of `RemovedWellTyped`; another value there would make the append fail in the source.
- LobberCore.Core.ProcessJson: the model covers a list `removed_torrents` only, by way of `RemovedWellTyped`; for another value the source's `in` test behaves differently or raises.
- LobberCore.Core.StartProxy: the source puts `self.config['lobber_key']` into the injected headers as it is, without `str()`; the model's headers are text, so it injects `'%s' %` of the key. For a string key, the kind the default holds, the two agree.
- Plugin.SplitNPortHost: `splitnport`'s pattern `^(.*):(.*)$` does not let `.` match a newline; a netloc containing a newline is not modelled.
- Retry.SimpleBackoffIterator: delays are exact `real` numbers rather than Python floats, so rounding in custom increments and in the `delay < maxDelay` comparison is not modelled.
- Retry.TwitterTest: the status of an HTTP error is an `int` in the model. The source converts it with `int(failure.value.status)`, and a status text that makes this raise `ValueError` is not modelled.
- Retry.RetryingCall.Start: `failureTester` and the operation are modelled as pure functions with explicit state; a tester with other side effects is not modelled.
