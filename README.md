# Tab Retitle: a Dafny model of the title reconciler and its coordinator

Tab Retitle is a browser extension that adds a configured prefix and suffix
to the title of every web page and keeps them there when the page changes
its own title. This project models its two scripts and proves what they do.

- `content.dfy`, module `Content`: the content script. It runs once per page and
  holds the `state` record (`prefix`, `suffix`, `originalTitle`,
  `actualOriginalTitle`, whether an observer exists). The page's
  `document.title` is one more field, and `titleWrites` counts the
  assignments made to it. Each operation is a function on a `Page` value:
  `Captured`, `CleanTitle`, `Updated`, `Classify`/`Observed`,
  `AfterUpdateMessage`, `AfterReady` and `PageRetitled`. The class
  `TitleReconciler` updates its fields in place, one method per operation,
  and each method is proved equal to its function.
- `background.dfy`, module `Background`: the background script. It keeps
  the settings cache, the `readyTabs` set and the periodic-check interval
  handle, and the host's running interval timers are modelled next to them.
  Every event handler is a function on a `Globals` value. The class
  `Coordinator` has one method per event, and each method is proved equal
  to its function. Chrome calls become `HostCall` values that the script
  issues; the calls towards one tab are in the order the script makes them. Each promise it waits on becomes a parameter saying how
  that promise settled (`PingReply`, `Delivery`).
- `js.dfy`: the JavaScript semantics both scripts rely on. It has
  `undefined`/`null` as `Option`, truthiness, `||`, the `"null"` that `+`
  makes of `null`, and `startsWith`/`endsWith`. It also has the `{prefix,
  suffix}` settings record, whose fields may be `undefined`.

The model keeps two behaviours of the code exactly as written:

- `getCleanTitle` returns `actualOriginalTitle || document.title`, and an
  empty baseline is falsy. So a page whose baseline is the empty string
  gets a longer title on every `updateTitle` push:
  `prefix^n + title + suffix^n` after `n` pushes (`EmptyBaselineGrows`).
- The observer adopts a new title only when it neither starts with the
  prefix nor ends with the suffix. Every string starts and ends with `""`,
  so with an empty prefix or suffix no new title is ever adopted
  (`Classify`, `OneSidedDecorationFreezesBaseline`).

A consequence of the second behaviour: under settings `("[Work] ", "")`, a
page that retitles itself from "Inbox (3)" to "Inbox (4)" stays
undecorated, and "Inbox (3)" stays the baseline. The next push then
restores "[Work] Inbox (3)" (`WorkInboxScenario`).

## Model

| member | source | states |
|---|---|---|
| `Content.Loaded` | content.js:7-13 | a freshly loaded page has no decoration, no baseline and no observer, has written nothing, and is consistent |
| `Content.Captured` | content.js:16-22 | the first capture sets both baseline fields to the current title; once a baseline exists, a capture changes nothing; the title is never written |
| `Content.CleanTitle` | content.js:25-28 | the clean title is the baseline when that is a non-empty string, and otherwise the current title, which may already be decorated |
| `Content.Updated` | content.js:31-48 | the title becomes `prefix + clean + suffix`, where clean is the non-empty baseline or else the title before the call; the observer's reference becomes clean; a write happens only when the title differs; the baseline is only captured, never replaced |
| `Content.UpdateIdempotentIff` | content.js:36-47 | a second `updateTitle` changes nothing, and writes nothing, exactly when the baseline is non-empty or both prefix and suffix are empty |
| `Content.ObserverQuietAfterUpdate` | content.js:47 | after `updateTitle` the observer's expected title is the current title, so the next callback does nothing |
| `Content.Classify` | content.js:85-103 | the observer's decision: settled exactly when the title is `prefix + originalTitle + suffix`; it reapplies only when the title equals the baseline; it adopts only when both prefix and suffix are non-empty |
| `Content.Observed` | content.js:83-104 | a reset to the baseline gets `prefix + title + suffix` and keeps the baseline; an adopted title becomes both baseline fields and is decorated; in every other case nothing changes; with an empty prefix or suffix the baseline never changes; an adoption always writes the title, and a restore writes it unless there is no decoration |
| `Content.ObserverIdempotent` | content.js:83-104 | a second callback on the state the first one left changes nothing |
| `Content.ObserverRestoresBaseline` | content.js:90-92 | in a consistent state, a title equal to the baseline ends as `prefix + baseline + suffix` with the baseline kept |
| `Content.ObserverAdoptsForeignTitle` | content.js:93-100 | a title that is not the baseline and neither starts with the prefix nor ends with the suffix becomes the new baseline and is decorated |
| `Content.ObserverLeavesDecoratedTitle` | content.js:93-102 | a title other than the baseline that starts with the prefix or ends with the suffix is left alone, state included |
| `Content.AfterUpdateMessage` | content.js:52-68 | missing or empty prefix and suffix become `''`; the title is decorated around the clean title; an observer exists afterwards and has nothing to do |
| `Content.AfterReady` | content.js:124-139 | without a reply nothing changes; with one, the settings are normalised and a baseline is captured; the title and the observer are touched only when the prefix or the suffix is non-empty |
| `Content.PageRetitled` | content.js:87-88 | the page's own title assignment changes the title and counts one write; nothing else changes |
| `Content.PageStep` | content.js:51-139 | every event the page can see keeps the state consistent |
| `Content.RunKeepsConsistent` | content.js:7-13 | from any consistent state, any run of events ends consistent |
| `Content.PushOnEmptyBaseline` | content.js:27 | with an empty baseline, one push wraps the current title once more and keeps the baseline empty |
| `Content.EmptyBaselineKept` | content.js:16-22 | an empty baseline stays empty through any number of pushes |
| `Content.EmptyBaselineGrows` | content.js:27 | with an empty baseline, `n` pushes give `prefix^n + title + suffix^n` |
| `Content.EmptyBaselineRewrites` | content.js:42-44 | with an empty baseline and some decoration, every push writes the title again |
| `Content.NonEmptyBaselineStable` | content.js:36-47 | with a non-empty baseline, repeated pushes of the same settings change nothing after the first |
| `Content.ClearedSettingsRestoreBaseline` | content.js:57-58 | a push with empty or missing settings turns the title back into a non-empty baseline |
| `Content.OneSidedDecorationFreezesBaseline` | content.js:93 | while the prefix or the suffix stays empty, no run of events ever replaces the baseline |
| `Content.WorkInboxScenario` | content.js:90-100 | under `("[Work] ", "")`, a page retitled "Inbox (4)" stays undecorated, keeps the baseline "Inbox (3)", and the next push restores "[Work] Inbox (3)" |
| `Content.TitleReconciler.constructor` | content.js:7-13 | a fresh reconciler has empty prefix and suffix, no baseline and no observer |
| `Content.TitleReconciler.CaptureOriginalTitle` | content.js:16-22 | the in-place capture is `Captured` |
| `Content.TitleReconciler.UpdateTitle` | content.js:31-48 | the in-place update is `Updated` |
| `Content.TitleReconciler.SetupObserver` | content.js:77-83 | afterwards an observer exists; nothing else changes |
| `Content.TitleReconciler.OnTitleMutation` | content.js:83-104 | the in-place callback is `Observed` |
| `Content.TitleReconciler.OnUpdateTitleMessage` | content.js:52-68 | the in-place handler is `AfterUpdateMessage` |
| `Content.TitleReconciler.OnReadyReply` | content.js:124-139 | the in-place reply handling is `AfterReady` |
| `Content.TitleReconciler.PageSetsTitle` | content.js:87-88 | the in-place page assignment is `PageRetitled` |
| `Background.IsRestrictedUrl` | background.js:65-71 | a missing or empty URL is refused, and a URL starting with `h` (every `http`/`https` page) passes |
| `Background.RestrictedByScheme` | background.js:65-71 | for a URL `scheme://rest`, the filter refuses it exactly when the scheme is one of `chrome`, `chrome-extension`, `vivaldi`, `edge`, `brave` |
| `Background.WebUrlsAllowed` | background.js:65-71 | every `http://` and `https://` URL passes the filter, whatever follows the scheme |
| `Background.RestrictedSchemeKeepsRestricted` | background.js:65-71 | whatever follows a restricted scheme, the URL stays refused |
| `Background.Initial` | background.js:4-13 | at startup the settings are the empty defaults, no tab is ready, no interval runs, and the timers are consistent |
| `Background.PeriodicCheckStopped` | background.js:138-143 | afterwards no handle is kept and no interval runs; settings and ready tabs are untouched |
| `Background.PeriodicCheckStarted` | background.js:123-135 | the old interval is cleared first, so the new handle is the only interval running |
| `Background.StopIdempotent` | background.js:138-143 | stopping twice is the same as stopping once |
| `Background.StoredSettingsLoaded` | background.js:16-24 | only defined stored keys overwrite the defaults; the check starts when either setting is truthy and the timers are untouched otherwise |
| `Background.Merged` | background.js:28-33 | a storage change overwrites exactly the keys it carries, possibly with `undefined`, and keeps the other key |
| `Background.StorageChanged` | background.js:27-44 | after a change the settings are the merge, and the periodic check runs exactly when the prefix or the suffix is truthy |
| `Background.TabTitleUpdated` | background.js:47-60 | settings are sent only to a ready tab; a failed send removes that tab and no other |
| `Background.InjectedIfNeeded` | background.js:63-96 | a refused URL gets no ping and no injection; otherwise the tab is pinged first; a pong adds the tab before the settings are sent; a reply without `pong` leads to nothing more; a rejected ping leads to an injection; only this tab's readiness changes |
| `Background.TabUpdated` | background.js:99-104 | only a completed load with a URL leads to an injection check |
| `Background.TabRemoved` | background.js:107-109 | exactly the closed tab leaves `readyTabs` |
| `Background.ContentScriptReady` | background.js:150-155 | the sender's tab is added and the settings are returned exactly when `sender.tab.id` is present and non-zero |
| `Background.TabVisited` | background.js:115-117 | one loop iteration is exactly the injection check for that tab: the `if (tab.url)` guard refuses nothing the filter would let through |
| `Background.AppliedToAllTabs` | background.js:112-120 | a sweep changes only visited tabs' readiness, leaves settings and timers alone, and sends calls only to visited tabs whose URL passes the filter |
| `Background.SweepReachesEveryTab` | background.js:112-120 | a sweep pings every visited tab whose URL passes the filter, sends the settings to each that answers `pong` and injects the script into each whose ping was rejected; after its last visit such a tab is ready exactly when the send was delivered |
| `Background.PeriodicTick` | background.js:128-134 | a tick sweeps all tabs only while some setting is truthy |
| `Background.Step` | background.js:16-161 | every event keeps the timers consistent |
| `Background.RunKeepsOneInterval` | background.js:123-143 | from startup on, any run of events leaves at most one interval running, and it is the periodic check's handle |
| `Background.Coordinator.constructor` | background.js:4-13 | a fresh coordinator holds empty settings, no ready tabs and no interval |
| `Background.Coordinator.StopPeriodicCheck` | background.js:138-143 | the in-place stop is `PeriodicCheckStopped` |
| `Background.Coordinator.StartPeriodicCheck` | background.js:123-135 | the in-place start is `PeriodicCheckStarted` |
| `Background.Coordinator.OnStoredSettings` | background.js:16-24 | the in-place load is `StoredSettingsLoaded` |
| `Background.Coordinator.OnStorageChanged` | background.js:27-44 | the in-place change is `StorageChanged` |
| `Background.Coordinator.UpdateTabTitle` | background.js:47-60 | the in-place send and its calls are `TabTitleUpdated` |
| `Background.Coordinator.InjectContentScriptIfNeeded` | background.js:63-96 | the in-place check and its calls are `InjectedIfNeeded` |
| `Background.Coordinator.OnTabUpdated` | background.js:99-104 | the in-place listener is `TabUpdated` |
| `Background.Coordinator.OnTabRemoved` | background.js:107-109 | the in-place removal is `TabRemoved` |
| `Background.Coordinator.OnContentScriptReady` | background.js:150-155 | the in-place handler and its response are `ContentScriptReady` |
| `Background.Coordinator.ApplyToAllTabs` | background.js:112-120 | the loop over the queried tabs gives the state and the calls of `AppliedToAllTabs` |
| `Background.Coordinator.OnPeriodicTick` | background.js:128-134 | the in-place timer callback is `PeriodicTick` |

## Left out

- popup.js, the settings form, is not part of this model. It only reads and writes the two storage keys and shows a status message.
- Asynchrony: the model runs each promise chain to its end before the next event. In the program the continuations of different tabs interleave with each other and with later events, and the model does not capture that.
- Background.AppliedToAllTabs: the program's loop sends every tab's ping before any ping reply is handled, so the pings of a sweep come first and the sends and injections follow as the replies arrive. The model lists each tab's calls together, tab after tab. Only the order of the calls towards one tab, and which calls are made, carry meaning in the model; the order across tabs does not.
- The answers of `tabs.query`, `tabs.sendMessage`, `scripting.executeScript` and `storage.sync.get` are parameters. The host's behaviour behind them is not modelled.
- The `applyToAllTabs` call in the storage listener only starts a `tabs.query`. Its effect is the later sweep event (`AppliedToAllTabs`).
- The 200 ms `setTimeout` after an injection is modelled as a later `TabTitleUpdated` event, and the 30 s `setInterval` as `PeriodicTick` events. Only whether a handle is held and which timers run is modelled, not the timing.
- Content.TitleReconciler.SetupObserver: only whether an observer exists is modelled. The choice of the observed node (the title element, the head or the document element) and the disconnection of an old observer are DOM calls left out.
- The `ping` handler of the content script and the `{success: true}` responses change no state. They are not modelled.
- `console.log` calls are left out.
- Timer handles are taken to be positive integers, as `setInterval` returns them. A zero handle would be falsy, and `stopPeriodicCheck` would then keep it.
- The page title is a plain string that reads back exactly what was written. A browser's `document.title` getter strips and collapses ASCII whitespace, so a decoration with whitespace at its outer edge reads back differently. The model does not capture that difference.
- Content.ObserverQuietAfterUpdate: holds for the string model only. In a browser, a whitespace-only decoration (prefix `" "`, empty suffix) reads back as the bare baseline, so the callback would reapply it after every write.
- Content.UpdateIdempotentIff: for a decoration with whitespace at its outer edge, the browser's read-back title differs from the one written, and this equivalence is not promised there.
- Content.EmptyBaselineGrows: the growth `prefix^n + title + suffix^n` is stated for the written string. A browser would strip outer whitespace on each read-back, for example `"[Work] "` on an empty title reads back as `"[Work]"`.
- Settings values other than strings or `undefined` (for example a stored number) are not modelled.
