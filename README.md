# learn-service-worker, modelled in Dafny

An offline-capable commit-feed page. It has three parts:

- **The origin server.** Its `/api/commits` handler turns GitHub's event list into commit records.
- **The page script.** It shows a spinner, an offline icon, a ready-for-offline icon and the rendered feed. It reacts to messages from the service worker.
- **The service worker.** It refreshes the feed and broadcasts the outcome to every client. Its install and fetch listeners are registered with empty bodies, and there is no sync listener at all (src/service-worker.js:40-67). Nothing in the source calls `updateCommits`. The tests pin the install and fetch behaviour: a precache list, cache-first answers, populate on a miss, and never cache the commit API. The source is a workshop scaffold: every task test of test/service-worker.tests.js (Tasks 3-6 and 8) would fail against it as written, since the install and fetch bodies are empty and no sync listener exists.

The model follows the source file by file:

| Dafny file | module | models |
|---|---|---|
| `strings.dfy` | `Strings` | `indexOf`, `replace` with a string pattern and a replacement without `$` patterns, `Array.prototype.join` |
| `server.dfy` | `Server` | `server.js`: the `.filter().filter().map()` pipeline and the `{commits, timestamp}` / `{error}` reply, as functions over `seq` |
| `helpers.dfy` | `Helpers` | `src/helpers.js`: `render` as string building; the reply rule of `sendMessageToClient`; the message protocol; the show/hide helpers as a `Document` class whose fields are the page elements, specified by a `PageState` value |
| `page.dfy` | `Page` | `src/main.js`: `onReceiveCommits`, `onMessage` and the load path, as methods on a `Document`, each proved against a function on `PageState` |
| `service_worker.dfy` | `ServiceWorker` | `src/service-worker.js`: a `Worker` class with the client list, a log of posted messages, the cache map and a log of network requests. `updateCommits` and `sendMessageToClients` are loops over the clients. Install and fetch are **test-derived**: the source registers them with empty bodies. Sync is **design**: the source has no sync listener, and `Worker.OnSync` is the only caller of `UpdateCommits`. |
| `end_to_end.dfy` | `EndToEnd` | the worker's posts to one client, as handled by that client's page |

Decisions the code forced:

- **`render` throws on a body without `commits`.** It reads `data.commits`. So it throws on a missing body, and also on the server's `{error}` reply (server.js:26-28), which reaches the page as a resolved fetch.
  - In `onMessage` the exception leaves the page unchanged.
  - In the load path, the `.catch` shows the offline icon (main.js:52-56).
  - So after an upstream error, a refresh through the worker leaves the spinner on (`EndToEnd.UpstreamErrorLeavesSpinner`). A page load ends offline instead (`Page.LoadErrorBodyEffect`).
- **The two broadcasts of `updateCommits` are independent promise chains** (service-worker.js:24-29 and 31-37). The log records start-loading first. The per-client property is stated as a multiset, so it holds in either order. `EndToEnd.OutcomeFirstLeavesSpinner` shows what the other order does to the page.
- **The HTML around the inserted values is a `Markup` value.** `render` uses the constant `FeedMarkup`, which holds the source's literal strings. The rendering lemmas are stated for any markup, so they do not depend on the particular HTML; `BlockHeadOpensListElement` is about `FeedMarkup` itself.
- **The reply rule tests JavaScript truthiness of `error`.** A reply whose `error` is `""` or `0` resolves. In this source the page never replies: `onMessage` (src/main.js:15-32) never posts to `event.ports[0]`, so every `sendMessageToClient` promise stays pending and the rule is never exercised. It is modelled as written.
- **The commit API bypasses the cache on reads too, not only on writes.** The tests pin only "never `put`". The cache provably never holds an API entry (`Worker.Valid`), so on a valid cache reading it first would give the same answer.
- **The precache list is the one commented out next to the install handler.** The tests require four of its entries.
- **The sync handler reruns `updateCommits`.** The source has no sync listener and never calls `updateCommits`; the tests only require that a sync listener exists. Rerunning the refresh is the intended design, labelled (design).
- **A failed network request on a miss fails the request and stores nothing.** No test pins this; it is the intended design, labelled (design).
- **An API request is one whose URL contains `/api/commits` anywhere.** The source's fetch handler is empty and the tests use only `http://itera.no/api/commits`. A substring test is the simplest reading; it also treats a URL such as `http://h/static/api/commits.png` as an API request, which a path-prefix test would not.

## Model

| member | source | states |
|---|---|---|
| `Strings.IndexOfFrom` | server.js:34-35 | the result is an occurrence of the pattern, no earlier occurrence exists, and `None` means no occurrence at all |
| `Strings.ReplaceFirst` | server.js:34-35 | defines `replace` with a string pattern and a replacement without `$` patterns (such as `/avatar/`): the text before the first occurrence, the replacement, the text after it; unchanged without an occurrence |
| `Strings.Join` | src/helpers.js:62 | defines `join`: the parts with one separator between consecutive parts; `""` for no parts |
| `Strings.ReplaceFirstAt` | server.js:34-35 | `replace` with a string pattern and a `$`-free replacement replaces exactly the first occurrence |
| `Strings.ReplaceFirstAbsent` | server.js:34-35 | a string without the pattern is returned unchanged |
| `Strings.JoinPartAt` | src/helpers.js:62 | part `k` of `join` sits at its offset |
| `Strings.JoinSeparatorAt` | src/helpers.js:62 | every part but the last is followed by one separator |
| `Strings.JoinOffsetStep` | src/helpers.js:62 | consecutive parts of a join are exactly one separator apart |
| `Strings.JoinLength` | src/helpers.js:62 | the joined string ends where its last part ends |
| `Server.RewriteAvatar` | server.js:34-35 | defines the avatar rewrite: the first `https://avatars.githubusercontent.com/u/` becomes `/avatar/` |
| `Server.ToCommit` | server.js:33-39 | defines the `.map` step: avatar rewritten, `repo.name`, and author and message of `commits[0]` |
| `Server.RewriteGithubAvatar` | server.js:34-35 | a `https://avatars.githubusercontent.com/u/` URL becomes `/avatar/` plus the same user part |
| `Server.RewriteOtherAvatar` | server.js:34-35 | an avatar URL without that prefix anywhere is unchanged |
| `Server.RewriteFirstOccurrence` | server.js:34-35 | only the first occurrence of the prefix is replaced; the rest of the URL is kept |
| `Server.PushEvents` | server.js:31 | the first filter keeps only `PushEvent` events and never lengthens the list |
| `Server.WithCommits` | server.js:32 | the second filter keeps only events with a non-empty `payload.commits`, drawn from its input |
| `Server.ToCommits` | server.js:33-39 | the map yields one record per event |
| `Server.ExtractCommits` | server.js:30-39 | the pipeline never yields more records than events |
| `Server.HandleCommits` | server.js:24-44 | an upstream error gives `{error}` with that error and no commits; otherwise `{commits, timestamp}` with the extracted records and the current time |
| `Server.ExtractCommitsAppend` | server.js:31-39 | the pipeline handles each event on its own: it distributes over concatenation |
| `Server.ExtractCommitsSingle` | server.js:31-39 | one event yields its record exactly when it is a push event with commits |
| `Server.KeptIndicesExact` | server.js:31-32 | the surviving indices are in range, strictly increasing, name events that pass both filters, and include every such event |
| `Server.ExtractCommitsSnoc` | server.js:31-39 | appending an event appends its record exactly when it survives, and appends its index to the surviving indices |
| `Server.ExtractCommitsIndices` | server.js:31-39 | there are as many records as surviving events, and record `k` is the mapped form of the `k`-th surviving event (`KeptIndicesExact` says which events those are) |
| `Server.ExtractCommitsSources` | server.js:33-38 | every record comes from a push event with commits: avatar is its rewritten `avatar_url`, repo its `repo.name`, author and message those of `commits[0]` |
| `Server.NoKeptNoCommits` | server.js:31-32 | without push events that carry commits the feed is empty |
| `Helpers.CommitBlock` | src/helpers.js:45-56 | defines one `list-element` block: the markup pieces with message, avatar, author and repo inserted verbatim |
| `Helpers.RenderContent` | src/helpers.js:58-63 | defines the content: timestamp header, rendered date, then the blocks joined by the separator |
| `Helpers.TimestampHeader` | src/helpers.js:59-61 | defines the timestamp header: its opening text, the rendered date, the closing `</div>` |
| `Helpers.Renderable` | src/helpers.js:44 | defines when `render` does not throw: a body that has `commits` |
| `Helpers.RenderFeed` | src/helpers.js:43-64 | defines what `render` writes into `#root` for a body with `commits`, using the feed's markup |
| `Helpers.Blocks` | src/helpers.js:44-57 | one block per commit |
| `Helpers.CommitBlockFields` | src/helpers.js:45-56 | a block starts with the block head; it holds message, avatar, author and repo verbatim at fixed offsets; it ends with the tail (for the feed's markup, the unclosed `</span`) |
| `Helpers.BlockHeadOpensListElement` | src/helpers.js:45-47 | the feed's block head opens `<div class="list-element">` |
| `Helpers.RenderHeaderFirst` | src/helpers.js:58-62 | the content begins with the timestamp header, with the rendered date right after its opening text |
| `Helpers.RenderNoCommits` | src/helpers.js:58-62 | without commits the content is the header alone |
| `Helpers.RenderBlockAt` | src/helpers.js:44-63 | block `k` is commit `k`'s block, after the header and the earlier blocks; consecutive blocks are separated by exactly one `"\n"`; the last block ends the content |
| `Helpers.BlockShowsFields` | src/helpers.js:45-56 | a string holding a commit's block contains each of its four fields |
| `Helpers.RenderShowsFields` | src/helpers.js:43-64 | every commit's message, avatar, author and repo appear in the rendered content |
| `Helpers.Truthy` | src/helpers.js:72 | defines JavaScript truthiness of `error`: `undefined`, `null`, `false`, `0` and `""` are falsy |
| `Helpers.SettleReply` | src/helpers.js:71-77 | the reply rejects iff its `error` is truthy, with exactly that error; otherwise it resolves with the whole reply data |
| `Helpers.FalsyErrorResolves` | src/helpers.js:72-76 | a reply with a missing or falsy `error` resolves with its data |
| `Helpers.TagOf` | src/main.js:16-29 | defines which branch of `onMessage` a message type selects |
| `Helpers.TagNames` | src/main.js:15-32 | each known message type is recognised from its name; every other string is unknown |
| `Helpers.PageState.HideOfflineMessage` | src/helpers.js:19-21 | defines `hideOfflineMessage`: the offline icon's display becomes `none` |
| `Helpers.PageState.ShowOfflineMessage` | src/helpers.js:23-25 | defines `showOfflineMessage`: the offline icon's display becomes `block` |
| `Helpers.PageState.HideSpinner` | src/helpers.js:27-29 | defines `hideSpinner`: `spinner--active` is removed from the spinner's classes |
| `Helpers.PageState.ShowSpinner` | src/helpers.js:31-33 | defines `showSpinner`: `spinner--active` is added to the spinner's classes |
| `Helpers.PageState.FlashReadyForOfflineMessage` | src/helpers.js:35-36 | defines the immediate effect of `flashReadyForOfflineMessage`: the ready-for-offline icon is displayed |
| `Helpers.PageState.ReadyIconTimeout` | src/helpers.js:38-40 | defines the timer callback: the ready-for-offline icon is hidden |
| `Helpers.SpinnerHelpers` | src/helpers.js:27-33 | show/hide add/remove only `spinner--active`, are idempotent, and leave other classes and elements alone |
| `Helpers.OfflineHelpers` | src/helpers.js:19-25 | show/hide set the offline icon's display to `block`/`none` and change nothing else |
| `Helpers.Document.HideOfflineMessage` | src/helpers.js:19-21 | the document's new state is the old one with the offline icon hidden |
| `Helpers.Document.ShowOfflineMessage` | src/helpers.js:23-25 | the document's new state is the old one with the offline icon shown |
| `Helpers.Document.HideSpinner` | src/helpers.js:27-29 | the new state is the old one with `spinner--active` removed |
| `Helpers.Document.ShowSpinner` | src/helpers.js:31-33 | the new state is the old one with `spinner--active` added |
| `Helpers.Document.FlashReadyForOfflineMessage` | src/helpers.js:35-36 | the ready-for-offline icon is displayed |
| `Helpers.Document.ReadyIconTimeout` | src/helpers.js:38-40 | the timer callback hides the ready-for-offline icon |
| `Helpers.Document.Render` | src/helpers.js:43-65 | `#root` gets the rendered feed; a body without `commits` throws and changes nothing |
| `Page.ReceiveCommits` | src/main.js:5-13 | defines `onReceiveCommits` on the page state: render, hide the spinner, hide the offline icon; unchanged when render throws |
| `Page.Receive` | src/main.js:15-32 | defines `onMessage` on the page state, one case per message type |
| `Page.LoadSettled` | src/main.js:50-56 | defines the settled load: a renderable body is received; a failed fetch or a throwing render shows the offline icon and clears the spinner |
| `Page.OnReceiveCommits` | src/main.js:5-13 | renders, then hides spinner and offline icon; throws, changing nothing, on an unrenderable body |
| `Page.OnMessage` | src/main.js:15-32 | the document ends in the state `Receive` gives; it throws only on an unrenderable `commits` message |
| `Page.BeginLoad` | src/main.js:49 | the spinner is shown before the feed is fetched |
| `Page.FinishLoad` | src/main.js:50-56 | a renderable fetched body is received; a rejected fetch or a throwing render shows the offline icon and clears the spinner |
| `Page.Load` | src/main.js:49-56 | the whole load path: spinner first, then the settled outcome |
| `Page.CommitsMessageEffect` | src/main.js:5-18 | a renderable `commits` message renders its body, clears the spinner, hides the offline icon, leaves the ready icon |
| `Page.UnrenderableCommitsMessageIgnored` | src/main.js:16-18 | a `commits` message whose body lacks `commits` leaves the page unchanged |
| `Page.FailedToLoadEffect` | src/main.js:24-27 | `failed-to-load` shows the offline icon and clears the spinner; the content is kept |
| `Page.StartLoadingEffect` | src/main.js:29-31 | `start-loading` activates the spinner and changes nothing else |
| `Page.WorkerInstalledEffect` | src/main.js:20-22 | `worker-installed` displays the ready-for-offline icon and changes nothing else |
| `Page.UnknownMessageIgnored` | src/main.js:15-32 | a message of any other type leaves the page unchanged |
| `Page.UnknownMessagesIgnored` | src/main.js:15-32 | any run of unknown-type messages leaves the page unchanged |
| `Page.LoadFailureEffect` | src/main.js:49-56 | spinner on during the fetch; a failed fetch ends offline, spinner cleared, content kept |
| `Page.LoadErrorBodyEffect` | src/main.js:50-56 | a fetched `{error}` body ends exactly like a failed fetch |
| `Page.LoadSuccessEffect` | src/main.js:50-51 | a fetched feed is rendered, with neither spinner nor offline icon |
| `ServiceWorker.Worker.SendMessageToClients` | src/helpers.js:83-91 | one post, with a reply channel, to each client in order appended to the log |
| `ServiceWorker.Worker.UpdateCommits` | src/service-worker.js:23-38 | appends start-loading to every client, then `commits` with the body on success or `failed-to-load` with the error string on failure |
| `ServiceWorker.Worker.OnSync` | src/service-worker.js:64-67 | (design) the sync handler reruns the refresh workflow; the source has no sync listener |
| `ServiceWorker.Worker.OnInstall` | test/service-worker.tests.js:83-118 | (test-derived) precache with `addAll`: all responses stored or, when any request fails or answers with a status outside 200-299, the cache unchanged and `ok` false; keeps the cache free of API entries |
| `ServiceWorker.Worker.OnFetch` | test/service-worker.tests.js:120-213 | (test-derived) answer, network use and new cache are those `Intercept` gives; at most one network request, for the request URL; the cache stays API-free |
| `ServiceWorker.OutcomeMessage` | src/service-worker.js:31-37 | defines the outcome message: `commits` with the body on success, `failed-to-load` with the error string on failure |
| `ServiceWorker.RefreshPosts` | src/service-worker.js:23-38 | defines the posts of one refresh: start-loading without a reply channel to every client, then the outcome with one |
| `ServiceWorker.Broadcast` | src/helpers.js:85-87 | defines one `forEach` over the client list: one post of the message to each client, in list order, with or without a reply channel (also src/service-worker.js:26-28) |
| `ServiceWorker.MessagesToBroadcast` | src/helpers.js:83-90 | a broadcast reaches each listed client exactly once and no other client |
| `ServiceWorker.OutcomeMessageKind` | src/service-worker.js:31-37 | `commits` with the fetched body iff the fetch succeeded, `failed-to-load` with the error iff it failed |
| `ServiceWorker.RefreshMessagesPerClient` | src/service-worker.js:23-38 | per listed client, exactly one start-loading and exactly one outcome message, in whatever order; unlisted clients get nothing |
| `ServiceWorker.RefreshReplyPorts` | src/service-worker.js:24-37 | start-loading posts carry no reply channel; outcome posts do; all go to listed clients |
| `ServiceWorker.IsApiUrl` | test/service-worker.tests.js:23-31 | (test-derived) defines an API request: its URL contains `/api/commits` |
| `ServiceWorker.Intercept` | test/service-worker.tests.js:120-213 | (test-derived) defines the fetch policy: API requests go to the network and are not stored; a hit answers from the cache; a miss asks the network and stores the network's response, whatever its status; a failed request stores nothing |
| `ServiceWorker.CacheHit` | test/service-worker.tests.js:120-144 | (test-derived) a hit answers with the stored response unchanged and no network request |
| `ServiceWorker.CacheMissStores` | test/service-worker.tests.js:146-180 | (test-derived) a miss asks the network, answers with its response and stores that same response under the request URL, keeping other entries |
| `ServiceWorker.CacheMissNetworkFailure` | src/service-worker.js:53-56 | (design) a failed network request on a miss fails the request and stores nothing |
| `ServiceWorker.ApiNeverCached` | test/service-worker.tests.js:182-213 | (test-derived) a `/api/commits` request is answered by the network and never written to the cache, hit or miss |
| `ServiceWorker.StoredThenHit` | src/service-worker.js:47-62 | (test-derived) after a miss stored a response, the next request for that URL is a hit on it |
| `ServiceWorker.InterceptKeepsApiFree` | src/service-worker.js:58-61 | (test-derived) the fetch policy never puts an API entry into the cache |
| `ServiceWorker.AddAll` | test/service-worker.tests.js:88-112 | (test-derived) defines `cache.addAll`: every URL's response added, or no change when some request fails or its status is outside 200-299 |
| `ServiceWorker.AddAllAtomic` | test/service-worker.tests.js:88-112 | (test-derived) `addAll` fails iff some URL's request fails or answers with a status outside 200-299; on success each URL maps to its response and other entries stay |
| `ServiceWorker.PrecacheListed` | test/service-worker.tests.js:104-116 | the precache list contains `/`, `/helpers.js`, `/main.css` and `/main.js` |
| `ServiceWorker.PrecacheNotApi` | src/service-worker.js:13-20 | no precached URL is a commit API URL |
| `EndToEnd.RefreshDelivered` | src/service-worker.js:23-38 | with the log's order, a listed client receives start-loading, then the outcome |
| `EndToEnd.RefreshSettlesPage` | src/main.js:15-32 | start-loading, then the outcome: a feed leaves the page rendered, no spinner, no offline icon; a failure leaves it offline, no spinner, old content |
| `EndToEnd.UpstreamErrorLeavesSpinner` | server.js:26-28 | the server's `{error}` reply, relayed as `commits`, leaves the page with the spinner on and nothing else changed |
| `EndToEnd.OutcomeFirstLeavesSpinner` | src/service-worker.js:24-37 | if the outcome arrives before start-loading, the spinner stays on |
| `EndToEnd.RefreshedClientPage` | src/service-worker.js:23-38 | a refreshed client ends without spinner, its offline icon hidden after a fetched feed and shown after a failure, whatever messages it handled before |
| `Page.ReceiveAllAppend` | src/main.js:15-32 | handling two runs of messages one after the other is handling their concatenation |
| `EndToEnd.OneCommitFeedShown` | src/helpers.js:43-64 | after refreshing with the one-commit feed by Ada, the page shows `Ada`, `fix bug` and `org/repo`, with no spinner and no offline icon |

## Left out

- Express setup, static serving, `/manifest.json`, the upstream `request` call, `JSON.parse`, the `/avatar/:userId` relay and `listen` (server.js:11-17, 25, 48-68): HTTP I/O. The model takes the parsed event list or the upstream error.
- Missing fields of an event: any missing field read by the second filter or the map (`payload.commits`, `actor.avatar_url`, `repo`, `commits[0].author`; server.js:32-38) makes the source throw. `Server.Event` carries all of them.
- `renderDate` (src/helpers.js:10-17): it depends on `Date` and locale formatting. It is a parameter `renderDate: string -> string`.
- `fetchCommits` (src/helpers.js:3-8): network. Its settled value is the input `FetchOutcome`.
- `MessageChannel` and `postMessage` transport: platform calls. A post records only whether a reply channel was attached. `Helpers.SettleReply` is the reply rule; the page never replies, so no reply is modelled as arriving.
- The `console.log` in `sendMessageToClients` (src/helpers.js:88) and the `console.error` in the load path's `.catch` (src/main.js:53): logging only.
- The 5-second timer of `flashReadyForOfflineMessage`: its callback is a separate transition (`Document.ReadyIconTimeout`). No clock is modelled.
- Relative order of the start-loading and outcome broadcasts. The log fixes one order. `RefreshMessagesPerClient` holds in any order. `RefreshSettlesPage` and `RefreshedClientPage` assume start-loading arrives first.
- The client list seen by the two `matchAll` calls is one fixed list. Clients that come or go between the calls are not modelled.
- Concurrency between handler invocations: each handler call is one atomic step.
- `Helpers.JsValue`: numbers are integers, so `NaN` (also falsy) is not modelled.
- `ServiceWorker.Worker.OnFetch`: a failed network request on a miss fails the request. The source defines no offline fallback.
- Cache generations and activation: only the one cache named `awesome-app--cache-v1` is modelled. The source has no activate handler.
- Background-sync registration by the page (src/main.js:42-46) and by the worker on failure: empty in the source.
- Sending `worker-installed`: nothing in the source sends it. Only the page's reaction is modelled.
- src/vendor/idb-keyval-min.js, src/manifest.js, `importScripts`, listener registration and the empty Task 2/7 stubs: no behaviour there.
