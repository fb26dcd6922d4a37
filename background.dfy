/** The background script: the settings cache, the periodic re-apply timer,
    the set of tabs known to run the content script, and the filter that keeps
    the script away from browser-internal pages. Every chrome call becomes a
    `HostCall` the script issues, and every promise it waits on becomes a
    parameter saying how that promise settled. */
module Background {
  import opened Js
  import opened Messages

  /** A chrome call towards one tab. */
  datatype HostCall =
    | Ping(tab: int)                            // tabs.sendMessage(tab, {action: 'ping'})
    | ExecuteScript(tab: int)                   // scripting.executeScript(tab, content.js)
    | SendUpdate(tab: int, settings: Settings)  // tabs.sendMessage(tab, {action: 'updateTitle', ...})

  /** How the ping promise settles: a reply with `pong`, a reply without it,
      or a rejection (no content script in the tab). */
  datatype PingReply = Pong | NoPong | PingFailed

  /** How the promise of an `updateTitle` message settles. */
  datatype Delivery = Delivered | DeliveryFailed

  /** One tab returned by `tabs.query`, with the host's answers for it. */
  datatype TabVisit = TabVisit(id: int, url: Option<string>, ping: PingReply, delivery: Delivery)

  /** One key of a `storage.onChanged` event; `newValue` is absent when the key was removed. */
  datatype StorageChange = StorageChange(newValue: Option<string>)

  /** The keys present in a `storage.onChanged` event. */
  datatype Changes = Changes(prefix: Option<StorageChange>, suffix: Option<StorageChange>)

  /** The script's globals, together with the interval timers the host is
      running on its behalf. */
  datatype Globals = Globals(
    settings: Settings,
    readyTabs: set<int>,
    periodicCheckInterval: Option<int>,
    runningIntervals: set<int>)

  /** A new state and the chrome calls made on the way. The calls towards
      one tab are in the order the script makes them; across tabs of a
      sweep they are grouped per tab (see `AppliedToAllTabs`). */
  datatype Transition = Transition(next: Globals, calls: seq<HostCall>)

  /** The answer to `contentScriptReady`: a new state and the response, if any. */
  datatype ReadyAnswer = ReadyAnswer(next: Globals, response: Option<Settings>)

  /** The globals when the service worker starts: empty settings, no ready
      tab and no interval. */
  function Initial(): (r: Globals)
    ensures TimersConsistent(r) && r.runningIntervals == {}
    ensures r.settings == DefaultSettings && !WantsPeriodicCheck(r.settings)
    ensures r.readyTabs == {}
  {
    Globals(DefaultSettings, {}, None, {})
  }

  /** The periodic check's handle is the only interval timer running, and a
      handle is truthy (timer handles are positive integers). */
  predicate TimersConsistent(g: Globals)
  {
    match g.periodicCheckInterval
    case None => g.runningIntervals == {}
    case Some(h) => h > 0 && g.runningIntervals == {h}
  }

  /** `settings.prefix || settings.suffix`. */
  predicate WantsPeriodicCheck(s: Settings)
  {
    Truthy(s.prefix) || Truthy(s.suffix)
  }

  // ----- The restricted-URL filter -----

  /** The URL test at the head of `injectContentScriptIfNeeded`. A missing or
      empty URL is refused, and an ordinary web page passes. */
  predicate IsRestrictedUrl(url: Option<string>)
    ensures !Truthy(url) ==> IsRestrictedUrl(url)
    ensures Truthy(url) && url.value[0] == 'h' ==> !IsRestrictedUrl(url)
  {
    || !Truthy(url)
    || StartsWith(url.value, "chrome://")
    || StartsWith(url.value, "chrome-extension://")
    || StartsWith(url.value, "vivaldi://")
    || StartsWith(url.value, "edge://")
    || StartsWith(url.value, "brave://")
  }

  /** `name://` starts the URL `scheme://rest` exactly when the two schemes
      are equal (a scheme holds no colon). */
  lemma SchemePrefix(scheme: string, name: string, rest: string)
    requires ':' !in scheme && ':' !in name
    ensures StartsWith(scheme + "://" + rest, name + "://") <==> scheme == name
  {
    var u := scheme + "://" + rest;
    var p := name + "://";
    if p <= u {
      var n := if |scheme| < |name| then |scheme| else |name|;
      assert u[n] == p[n];
      assert |scheme| == |name|;
      assert scheme == u[..n] == p[..n] == name;
    }
    if scheme == name {
      assert u[..|p|] == p;
    }
  }

  /** For a URL `scheme://rest` the filter looks only at the scheme: it
      refuses exactly the five browser-internal schemes. */
  lemma RestrictedByScheme(scheme: string, rest: string)
    requires ':' !in scheme
    ensures IsRestrictedUrl(Some(scheme + "://" + rest)) <==>
      scheme in ["chrome", "chrome-extension", "vivaldi", "edge", "brave"]
  {
    SchemePrefix(scheme, "chrome", rest);
    SchemePrefix(scheme, "chrome-extension", rest);
    SchemePrefix(scheme, "vivaldi", rest);
    SchemePrefix(scheme, "edge", rest);
    SchemePrefix(scheme, "brave", rest);
  }

  /** Ordinary web pages pass the filter. */
  lemma WebUrlsAllowed(rest: string)
    ensures !IsRestrictedUrl(Some("http://" + rest)) && !IsRestrictedUrl(Some("https://" + rest))
  {
  }

  /** Whatever follows a restricted scheme, the URL stays restricted. */
  lemma RestrictedSchemeKeepsRestricted(u: string, rest: string)
    requires u != "" && IsRestrictedUrl(Some(u))
    ensures IsRestrictedUrl(Some(u + rest))
  {
  }

  // ----- Settings and the periodic check -----

  /** `stopPeriodicCheck`: clear the interval if the handle is truthy. */
  function PeriodicCheckStopped(g: Globals): (r: Globals)
    ensures TimersConsistent(g) ==>
      r.periodicCheckInterval == None && r.runningIntervals == {} && TimersConsistent(r)
    ensures r.settings == g.settings && r.readyTabs == g.readyTabs
  {
    if g.periodicCheckInterval.Some? && g.periodicCheckInterval.value != 0 then
      g.(runningIntervals := g.runningIntervals - {g.periodicCheckInterval.value},
         periodicCheckInterval := None)
    else
      g
  }

  /** `startPeriodicCheck`: stop any existing interval, then start one whose
      handle `handle` the host chose. */
  function PeriodicCheckStarted(g: Globals, handle: int): (r: Globals)
    requires handle > 0
    ensures r.periodicCheckInterval == Some(handle)
    ensures TimersConsistent(g) ==> TimersConsistent(r) && r.runningIntervals == {handle}
    ensures r.settings == g.settings && r.readyTabs == g.readyTabs
  {
    var stopped := PeriodicCheckStopped(g);
    stopped.(periodicCheckInterval := Some(handle),
             runningIntervals := stopped.runningIntervals + {handle})
  }

  /** Stopping twice is stopping once. */
  lemma StopIdempotent(g: Globals)
    ensures PeriodicCheckStopped(PeriodicCheckStopped(g)) == PeriodicCheckStopped(g)
  {
  }

  /** The startup load of the stored settings: only keys that are defined
      overwrite the defaults; the check starts if either setting is truthy. */
  function StoredSettingsLoaded(g: Globals, stored: Settings, handle: int): (r: Globals)
    requires handle > 0
    ensures r.settings.prefix == if stored.prefix.Some? then stored.prefix else g.settings.prefix
    ensures r.settings.suffix == if stored.suffix.Some? then stored.suffix else g.settings.suffix
    ensures WantsPeriodicCheck(r.settings) ==> r.periodicCheckInterval == Some(handle)
    ensures !WantsPeriodicCheck(r.settings) ==>
      r.periodicCheckInterval == g.periodicCheckInterval && r.runningIntervals == g.runningIntervals
    ensures TimersConsistent(g) ==> TimersConsistent(r)
    ensures r.readyTabs == g.readyTabs
  {
    var settings := Settings(
      if stored.prefix.Some? then stored.prefix else g.settings.prefix,
      if stored.suffix.Some? then stored.suffix else g.settings.suffix);
    var loaded := g.(settings := settings);
    if WantsPeriodicCheck(settings) then PeriodicCheckStarted(loaded, handle) else loaded
  }

  /** The settings after a `storage.onChanged` event: each key present in
      the event takes its new value, the other key keeps its old one. */
  function Merged(s: Settings, changes: Changes): (r: Settings)
    ensures changes.prefix.None? ==> r.prefix == s.prefix
    ensures changes.prefix.Some? ==> r.prefix == changes.prefix.value.newValue
    ensures changes.suffix.None? ==> r.suffix == s.suffix
    ensures changes.suffix.Some? ==> r.suffix == changes.suffix.value.newValue
  {
    Settings(
      if changes.prefix.Some? then changes.prefix.value.newValue else s.prefix,
      if changes.suffix.Some? then changes.suffix.value.newValue else s.suffix)
  }

  /** The `storage.onChanged` listener: merge the change, then start the
      periodic check (with host handle `handle`) or stop it. The
      `applyToAllTabs` it also calls only issues a `tabs.query`; its effects
      are the later `AppliedToAllTabs` event. */
  function StorageChanged(g: Globals, changes: Changes, handle: int): (r: Globals)
    requires handle > 0
    ensures r.settings == Merged(g.settings, changes)
    ensures TimersConsistent(g) ==>
      && TimersConsistent(r)
      && (r.periodicCheckInterval.Some? <==> WantsPeriodicCheck(r.settings))
    ensures r.readyTabs == g.readyTabs
  {
    var merged := g.(settings := Merged(g.settings, changes));
    if WantsPeriodicCheck(merged.settings) then
      PeriodicCheckStarted(merged, handle)
    else
      PeriodicCheckStopped(merged)
  }

  // ----- The ready-tab set -----

  /** `updateTabTitle`: send the settings to a tab only if it is ready; a
      failed send removes that tab and no other. */
  function TabTitleUpdated(g: Globals, tab: int, delivery: Delivery): (r: Transition)
    ensures tab !in g.readyTabs ==> r == Transition(g, [])
    ensures tab in g.readyTabs ==> r.calls == [SendUpdate(tab, g.settings)]
    ensures delivery == Delivered ==> r.next == g
    ensures tab in g.readyTabs && delivery == DeliveryFailed ==>
      r.next.readyTabs == g.readyTabs - {tab}
    ensures r.next.readyTabs <= g.readyTabs && g.readyTabs - r.next.readyTabs <= {tab}
    ensures r.next.settings == g.settings
    ensures r.next.periodicCheckInterval == g.periodicCheckInterval
    ensures r.next.runningIntervals == g.runningIntervals
  {
    if tab in g.readyTabs then
      var next := if delivery == DeliveryFailed then g.(readyTabs := g.readyTabs - {tab}) else g;
      Transition(next, [SendUpdate(tab, g.settings)])
    else
      Transition(g, [])
  }

  /** `injectContentScriptIfNeeded`: nothing for a restricted URL; otherwise
      ping the tab. A `pong` marks the tab ready before the settings are sent
      to it; a rejected ping leads to an injection attempt, whose follow-up
      send 200 ms later is a separate `TabTitleUpdated` event. */
  function InjectedIfNeeded(g: Globals, tab: int, url: Option<string>, ping: PingReply, delivery: Delivery): (r: Transition)
    ensures IsRestrictedUrl(url) ==> r == Transition(g, [])
    ensures !IsRestrictedUrl(url) ==> |r.calls| > 0 && r.calls[0] == Ping(tab)
    ensures forall k :: 0 <= k < |r.calls| ==> r.calls[k].tab == tab
    ensures !IsRestrictedUrl(url) && ping == Pong ==>
      && r.calls == [Ping(tab), SendUpdate(tab, g.settings)]
      && (tab in r.next.readyTabs <==> delivery == Delivered)
    ensures !IsRestrictedUrl(url) && ping == NoPong ==> r.calls == [Ping(tab)]
    ensures !IsRestrictedUrl(url) && ping == PingFailed ==>
      r.calls == [Ping(tab), ExecuteScript(tab)]
    ensures ping != Pong ==> r.next == g
    ensures forall t :: t != tab ==> (t in r.next.readyTabs <==> t in g.readyTabs)
    ensures r.next.settings == g.settings
    ensures r.next.periodicCheckInterval == g.periodicCheckInterval
    ensures r.next.runningIntervals == g.runningIntervals
  {
    if IsRestrictedUrl(url) then
      Transition(g, [])
    else
      match ping
      case Pong =>
        var sent := TabTitleUpdated(g.(readyTabs := g.readyTabs + {tab}), tab, delivery);
        Transition(sent.next, [Ping(tab)] + sent.calls)
      case NoPong =>
        Transition(g, [Ping(tab)])
      case PingFailed =>
        Transition(g, [Ping(tab), ExecuteScript(tab)])
  }

  /** The `tabs.onUpdated` listener: only a completed load with a URL is
      considered. */
  function TabUpdated(g: Globals, tab: int, complete: bool, url: Option<string>, ping: PingReply, delivery: Delivery): (r: Transition)
    ensures !complete || !Truthy(url) ==> r == Transition(g, [])
    ensures complete ==> r == InjectedIfNeeded(g, tab, url, ping, delivery)
  {
    if complete && Truthy(url) then InjectedIfNeeded(g, tab, url, ping, delivery) else Transition(g, [])
  }

  /** The `tabs.onRemoved` listener. */
  function TabRemoved(g: Globals, tab: int): (r: Globals)
    ensures tab !in r.readyTabs
    ensures forall t :: t != tab ==> (t in r.readyTabs <==> t in g.readyTabs)
    ensures r.settings == g.settings && r.periodicCheckInterval == g.periodicCheckInterval
    ensures r.runningIntervals == g.runningIntervals
  {
    g.(readyTabs := g.readyTabs - {tab})
  }

  /** The `contentScriptReady` message: the sender's tab is tracked and the
      settings are sent back only when `sender.tab.id` is truthy (`None`
      stands for a missing tab or id). Tab 0 is never added. */
  function ContentScriptReady(g: Globals, senderTab: Option<int>): (r: ReadyAnswer)
    ensures r.response.Some? <==> senderTab.Some? && senderTab.value != 0
    ensures r.response.Some? ==>
      r.response.value == g.settings && r.next == g.(readyTabs := g.readyTabs + {senderTab.value})
    ensures r.response.None? ==> r.next == g
    ensures 0 in r.next.readyTabs ==> 0 in g.readyTabs
  {
    if senderTab.Some? && senderTab.value != 0 then
      ReadyAnswer(g.(readyTabs := g.readyTabs + {senderTab.value}), Some(g.settings))
    else
      ReadyAnswer(g, None)
  }

  // ----- Sweeps over all tabs -----

  /** The ids of the visited tabs. */
  function VisitedTabs(visits: seq<TabVisit>): set<int>
  {
    set k | 0 <= k < |visits| :: visits[k].id
  }

  /** The ids of the visited tabs whose URL passes the filter. */
  function InjectableTabs(visits: seq<TabVisit>): set<int>
  {
    set k | 0 <= k < |visits| && !IsRestrictedUrl(visits[k].url) :: visits[k].id
  }

  /** One iteration of the loop in `applyToAllTabs`. Its `if (tab.url)`
      guard refuses nothing that the filter would let through. */
  function TabVisited(g: Globals, v: TabVisit): (r: Transition)
    ensures r == InjectedIfNeeded(g, v.id, v.url, v.ping, v.delivery)
  {
    if Truthy(v.url) then InjectedIfNeeded(g, v.id, v.url, v.ping, v.delivery) else Transition(g, [])
  }

  /** No later visit in `visits` is to the tab of visit `k`. */
  predicate LastVisitOf(visits: seq<TabVisit>, k: int)
    requires 0 <= k < |visits|
  {
    forall j :: k < j < |visits| ==> visits[j].id != visits[k].id
  }

  /** `applyToAllTabs` once `tabs.query` has answered with `visits`, each
      tab's promises settled in turn. Only visited tabs change readiness, and
      every call goes to a visited tab whose URL passes the filter;
      `SweepReachesEveryTab` says which calls are made. */
  function AppliedToAllTabs(g: Globals, visits: seq<TabVisit>): (r: Transition)
    ensures r.next.settings == g.settings
    ensures r.next.periodicCheckInterval == g.periodicCheckInterval
    ensures r.next.runningIntervals == g.runningIntervals
    ensures forall t :: t !in VisitedTabs(visits) ==> (t in r.next.readyTabs <==> t in g.readyTabs)
    ensures forall k :: 0 <= k < |r.calls| ==> r.calls[k].tab in InjectableTabs(visits)
    decreases |visits|
  {
    if visits == [] then
      Transition(g, [])
    else
      var init := visits[..|visits| - 1];
      var last := visits[|visits| - 1];
      var before := AppliedToAllTabs(g, init);
      var step := TabVisited(before.next, last);
      assert VisitedTabs(init) <= VisitedTabs(visits) by {
        forall t | t in VisitedTabs(init) ensures t in VisitedTabs(visits) {
          var k :| 0 <= k < |init| && init[k].id == t;
          assert visits[k] == init[k];
        }
      }
      assert InjectableTabs(init) <= InjectableTabs(visits) by {
        forall t | t in InjectableTabs(init) ensures t in InjectableTabs(visits) {
          var k :| 0 <= k < |init| && !IsRestrictedUrl(init[k].url) && init[k].id == t;
          assert visits[k] == init[k];
        }
      }
      assert !IsRestrictedUrl(last.url) ==> last.id in InjectableTabs(visits);
      assert last.id in VisitedTabs(visits);
      Transition(step.next, before.calls + step.calls)
  }

  /** What a sweep that ended in `r` did for visit `k`, when its URL passes
      the filter: the tab was pinged, was sent the settings if it answered
      `pong`, had the script injected if the ping was rejected, and, if it
      answered `pong` and no later visit is to the same tab, is ready exactly
      when that send was delivered. */
  predicate VisitServed(settings: Settings, visits: seq<TabVisit>, r: Transition, k: int)
    requires 0 <= k < |visits|
  {
    !IsRestrictedUrl(visits[k].url) ==>
      && Ping(visits[k].id) in r.calls
      && (visits[k].ping == Pong ==> SendUpdate(visits[k].id, settings) in r.calls)
      && (visits[k].ping == PingFailed ==> ExecuteScript(visits[k].id) in r.calls)
      && (visits[k].ping == Pong && LastVisitOf(visits, k) ==>
            (visits[k].id in r.next.readyTabs <==> visits[k].delivery == Delivered))
  }

  /** A sweep pings every visited tab whose URL passes the filter, sends
      the settings to each one that answers `pong`, and injects the script
      into each one whose ping was rejected. A tab that answered `pong` on its
      last visit is ready exactly when that send was delivered. */
  lemma {:induction false} SweepReachesEveryTab(g: Globals, visits: seq<TabVisit>)
    ensures forall k :: 0 <= k < |visits| ==> VisitServed(g.settings, visits, AppliedToAllTabs(g, visits), k)
    decreases |visits|
  {
    if visits != [] {
      var n := |visits| - 1;
      var init := visits[..n];
      var last := visits[n];
      SweepReachesEveryTab(g, init);
      var before := AppliedToAllTabs(g, init);
      var step := TabVisited(before.next, last);
      var r := AppliedToAllTabs(g, visits);
      assert r == Transition(step.next, before.calls + step.calls);
      forall k | 0 <= k < |visits|
        ensures VisitServed(g.settings, visits, r, k)
      {
        if k < n {
          assert visits[k] == init[k];
          assert VisitServed(g.settings, init, before, k);
          if LastVisitOf(visits, k) {
            assert LastVisitOf(init, k);
            assert visits[n].id != visits[k].id;
          }
        }
      }
    }
  }

  /** The periodic timer's callback: a sweep only while some setting is truthy. */
  function PeriodicTick(g: Globals, visits: seq<TabVisit>): (r: Transition)
    ensures !WantsPeriodicCheck(g.settings) ==> r == Transition(g, [])
    ensures WantsPeriodicCheck(g.settings) ==> r == AppliedToAllTabs(g, visits)
  {
    if WantsPeriodicCheck(g.settings) then AppliedToAllTabs(g, visits) else Transition(g, [])
  }

  // ----- Runs of events -----

  /** Something the background script reacts to, with the host's answers. */
  datatype Event =
    | SettingsLoaded(stored: Settings, handle: int)               // the startup storage read
    | SettingsChanged(changes: Changes, handle: int)              // storage.onChanged
    | TabLoaded(tab: int, complete: bool, url: Option<string>, ping: PingReply, delivery: Delivery)
    | TabClosed(tab: int)                                         // tabs.onRemoved
    | ScriptReady(senderTab: Option<int>)                         // contentScriptReady
    | InjectionSettled(tab: int, delivery: Delivery)              // the 200 ms timer after an injection
    | Sweep(visits: seq<TabVisit>)                                // applyNow, or the answer to a settings-change query
    | Tick(visits: seq<TabVisit>)                                 // the periodic timer

  /** Timer handles the host hands out are positive. */
  predicate HostHandles(e: Event)
  {
    (e.SettingsLoaded? || e.SettingsChanged?) ==> e.handle > 0
  }

  function Step(g: Globals, e: Event): (r: Globals)
    requires HostHandles(e)
    ensures TimersConsistent(g) ==> TimersConsistent(r)
  {
    match e
    case SettingsLoaded(stored, handle) => StoredSettingsLoaded(g, stored, handle)
    case SettingsChanged(changes, handle) => StorageChanged(g, changes, handle)
    case TabLoaded(tab, complete, url, ping, delivery) => TabUpdated(g, tab, complete, url, ping, delivery).next
    case TabClosed(tab) => TabRemoved(g, tab)
    case ScriptReady(senderTab) => ContentScriptReady(g, senderTab).next
    case InjectionSettled(tab, delivery) => TabTitleUpdated(g, tab, delivery).next
    case Sweep(visits) => AppliedToAllTabs(g, visits).next
    case Tick(visits) => PeriodicTick(g, visits).next
  }

  /** The globals after `events`, in order. */
  function Run(g: Globals, events: seq<Event>): Globals
    requires forall k :: 0 <= k < |events| ==> HostHandles(events[k])
    decreases |events|
  {
    if events == [] then g else Run(Step(g, events[0]), events[1..])
  }

  /** From startup on, whatever happens, at most one interval timer runs and
      the periodic check's handle is that timer. */
  lemma {:induction false} RunKeepsOneInterval(g: Globals, events: seq<Event>)
    requires TimersConsistent(g)
    requires forall k :: 0 <= k < |events| ==> HostHandles(events[k])
    ensures TimersConsistent(Run(g, events))
    ensures |Run(g, events).runningIntervals| <= 1
    decreases |events|
  {
    if events != [] {
      RunKeepsOneInterval(Step(g, events[0]), events[1..]);
    }
  }

  /** The background script's state as an object whose event handlers update it in place. */
  class Coordinator {
    var settings: Settings
    var readyTabs: set<int>
    var periodicCheckInterval: Option<int>
    var runningIntervals: set<int>

    /** The object's state as a value. */
    function Snapshot(): Globals
      reads this
    {
      Globals(settings, readyTabs, periodicCheckInterval, runningIntervals)
    }

    constructor ()
      ensures Snapshot() == Initial()
    {
      settings := DefaultSettings;
      readyTabs := {};
      periodicCheckInterval := None;
      runningIntervals := {};
    }

    method StopPeriodicCheck()
      modifies this
      ensures Snapshot() == PeriodicCheckStopped(old(Snapshot()))
    {
      if periodicCheckInterval.Some? && periodicCheckInterval.value != 0 {
        runningIntervals := runningIntervals - {periodicCheckInterval.value};
        periodicCheckInterval := None;
      }
    }

    /** `handle` is what `setInterval` returns. */
    method StartPeriodicCheck(handle: int)
      requires handle > 0
      modifies this
      ensures Snapshot() == PeriodicCheckStarted(old(Snapshot()), handle)
    {
      StopPeriodicCheck();
      periodicCheckInterval := Some(handle);
      runningIntervals := runningIntervals + {handle};
    }

    /** The callback of the startup `storage.sync.get`. */
    method OnStoredSettings(stored: Settings, handle: int)
      requires handle > 0
      modifies this
      ensures Snapshot() == StoredSettingsLoaded(old(Snapshot()), stored, handle)
    {
      if stored.prefix.Some? {
        settings := settings.(prefix := stored.prefix);
      }
      if stored.suffix.Some? {
        settings := settings.(suffix := stored.suffix);
      }
      if WantsPeriodicCheck(settings) {
        StartPeriodicCheck(handle);
      }
    }

    method OnStorageChanged(changes: Changes, handle: int)
      requires handle > 0
      modifies this
      ensures Snapshot() == StorageChanged(old(Snapshot()), changes, handle)
    {
      if changes.prefix.Some? {
        settings := settings.(prefix := changes.prefix.value.newValue);
      }
      if changes.suffix.Some? {
        settings := settings.(suffix := changes.suffix.value.newValue);
      }
      if WantsPeriodicCheck(settings) {
        StartPeriodicCheck(handle);
      } else {
        StopPeriodicCheck();
      }
    }

    method UpdateTabTitle(tab: int, delivery: Delivery) returns (calls: seq<HostCall>)
      modifies this
      ensures Transition(Snapshot(), calls) == TabTitleUpdated(old(Snapshot()), tab, delivery)
    {
      calls := [];
      if tab in readyTabs {
        calls := [SendUpdate(tab, settings)];
        if delivery == DeliveryFailed {
          readyTabs := readyTabs - {tab};
        }
      }
    }

    method InjectContentScriptIfNeeded(tab: int, url: Option<string>, ping: PingReply, delivery: Delivery)
      returns (calls: seq<HostCall>)
      modifies this
      ensures Transition(Snapshot(), calls) == InjectedIfNeeded(old(Snapshot()), tab, url, ping, delivery)
    {
      if IsRestrictedUrl(url) {
        return [];
      }
      calls := [Ping(tab)];
      match ping
      case Pong =>
        readyTabs := readyTabs + {tab};
        var sent := UpdateTabTitle(tab, delivery);
        calls := calls + sent;
      case NoPong =>
      case PingFailed =>
        calls := calls + [ExecuteScript(tab)];
    }

    method OnTabUpdated(tab: int, complete: bool, url: Option<string>, ping: PingReply, delivery: Delivery)
      returns (calls: seq<HostCall>)
      modifies this
      ensures Transition(Snapshot(), calls) == TabUpdated(old(Snapshot()), tab, complete, url, ping, delivery)
    {
      calls := [];
      if complete && Truthy(url) {
        calls := InjectContentScriptIfNeeded(tab, url, ping, delivery);
      }
    }

    method OnTabRemoved(tab: int)
      modifies this
      ensures Snapshot() == TabRemoved(old(Snapshot()), tab)
    {
      readyTabs := readyTabs - {tab};
    }

    method OnContentScriptReady(senderTab: Option<int>) returns (response: Option<Settings>)
      modifies this
      ensures ReadyAnswer(Snapshot(), response) == ContentScriptReady(old(Snapshot()), senderTab)
    {
      response := None;
      if senderTab.Some? && senderTab.value != 0 {
        readyTabs := readyTabs + {senderTab.value};
        response := Some(settings);
      }
    }

    /** `applyToAllTabs`, also run for the `applyNow` message. */
    method ApplyToAllTabs(visits: seq<TabVisit>) returns (calls: seq<HostCall>)
      modifies this
      ensures Transition(Snapshot(), calls) == AppliedToAllTabs(old(Snapshot()), visits)
    {
      calls := [];
      var i := 0;
      while i < |visits|
        invariant 0 <= i <= |visits|
        invariant Transition(Snapshot(), calls) == AppliedToAllTabs(old(Snapshot()), visits[..i])
      {
        var tab := visits[i];
        if Truthy(tab.url) {
          var sent := InjectContentScriptIfNeeded(tab.id, tab.url, tab.ping, tab.delivery);
          calls := calls + sent;
        }
        assert visits[..i + 1][..i] == visits[..i];
        i := i + 1;
      }
      assert visits[..i] == visits;
    }

    method OnPeriodicTick(visits: seq<TabVisit>) returns (calls: seq<HostCall>)
      modifies this
      ensures Transition(Snapshot(), calls) == PeriodicTick(old(Snapshot()), visits)
    {
      calls := [];
      if WantsPeriodicCheck(settings) {
        calls := ApplyToAllTabs(visits);
      }
    }
  }
}
