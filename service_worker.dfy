/**
 * The service worker: the commit refresh workflow (`updateCommits`) with its
 * broadcasts, and the install, fetch and sync handlers. The install and fetch
 * listeners are registered with empty bodies in the source, and there is no
 * sync listener at all; their policy here is the one the service-worker tests
 * pin down (precache list, cache-first answers, populate on miss, never cache
 * the commit API), labelled test-derived, and, where no test pins it (a failed
 * network request on a miss, what sync does), the application's intended
 * design, labelled design.
 */
module ServiceWorker {
  import opened Wrappers
  import opened Strings
  import opened Helpers

  type Url = string
  type ClientId = nat

  /** A network or cached response; cloning yields an equal value. */
  datatype Response = Response(status: int, responseType: string, body: string)

  /** What the network gives for one request. */
  datatype NetResult = NetOk(response: Response) | NetFailed(reason: string)

  /** One `postMessage` to a client; `replyPort` tells whether a reply channel was attached. */
  datatype Post = Post(client: ClientId, message: Message, replyPort: bool)

  /** `CACHE_NAME`, the name of the one cache the worker uses. */
  const CacheName := "awesome-app--cache-v1"
  /** The files to precache (the list prepared, commented out, next to the install handler). */
  const PrecacheUrls: seq<Url> := ["/", "/vendor/idb-keyval-min.js", "/icons/github.png", "/helpers.js", "/main.css", "/main.js"]
  /** The commit feed endpoint, never cached. */
  const ApiPath := "/api/commits"

  /** A request for the commit feed: its URL contains the API path anywhere. */
  predicate IsApiUrl(url: Url)
  {
    Contains(url, ApiPath)
  }

  /** The client list `matchAll()` resolves with holds each client once. */
  predicate Distinct(cs: seq<ClientId>)
  {
    forall i, j :: 0 <= i < j < |cs| ==> cs[i] != cs[j]
  }

  /** No commit API response is held in the cache. */
  predicate ApiFree(cache: map<Url, Response>)
  {
    forall u :: u in cache ==> !IsApiUrl(u)
  }

  // ---------------------------------------------------------------------------
  // The commit refresh workflow
  // ---------------------------------------------------------------------------

  /** One post of `m` to each client, in client-list order. */
  function Broadcast(cs: seq<ClientId>, m: Message, replyPort: bool): (r: seq<Post>)
    ensures |r| == |cs|
  {
    seq(|cs|, i requires 0 <= i < |cs| => Post(cs[i], m, replyPort))
  }

  const StartLoadingMessage := Message(StartLoadingType, None, None)

  /** `{type: 'commits', body}` on success, `{type: 'failed-to-load', error}` on failure. */
  function OutcomeMessage(outcome: FetchOutcome): Message
  {
    match outcome
    case Fetched(data) => Message(CommitsType, Some(data), None)
    case FetchFailed(e) => Message(FailedToLoadType, None, Some(e))
  }

  /**
   * The posts of one `updateCommits` call. The source runs the two broadcasts
   * as independent promise chains; this sequence puts the start-loading posts
   * first, and the lemmas below do not depend on that order.
   */
  function RefreshPosts(cs: seq<ClientId>, outcome: FetchOutcome): seq<Post>
  {
    Broadcast(cs, StartLoadingMessage, false) + Broadcast(cs, OutcomeMessage(outcome), true)
  }

  /** The messages posted to client `c`, in posting order. */
  function MessagesTo(posts: seq<Post>, c: ClientId): seq<Message>
  {
    if posts == [] then []
    else (if posts[0].client == c then [posts[0].message] else []) + MessagesTo(posts[1..], c)
  }

  lemma {:induction false} MessagesToAppend(a: seq<Post>, b: seq<Post>, c: ClientId)
    ensures MessagesTo(a + b, c) == MessagesTo(a, c) + MessagesTo(b, c)
  {
    if a != [] {
      assert (a + b)[1..] == a[1..] + b;
      MessagesToAppend(a[1..], b, c);
    } else {
      assert a + b == b;
    }
  }

  /** A broadcast to distinct clients reaches each listed client exactly once and no other. */
  lemma {:induction false} MessagesToBroadcast(cs: seq<ClientId>, m: Message, replyPort: bool, c: ClientId)
    requires Distinct(cs)
    ensures MessagesTo(Broadcast(cs, m, replyPort), c) == if c in cs then [m] else []
  {
    if cs != [] {
      var rest := cs[1..];
      assert Broadcast(cs, m, replyPort) == [Post(cs[0], m, replyPort)] + Broadcast(rest, m, replyPort);
      MessagesToAppend([Post(cs[0], m, replyPort)], Broadcast(rest, m, replyPort), c);
      assert [Post(cs[0], m, replyPort)][1..] == [];
      MessagesToBroadcast(rest, m, replyPort, c);
      assert cs == [cs[0]] + rest;
      assert cs[0] !in rest by {
        forall j | 0 <= j < |rest| ensures rest[j] != cs[0] {
          assert rest[j] == cs[j + 1];
        }
      }
    }
  }

  /** The outcome message is `commits` with the fetched body exactly on success, `failed-to-load` with the error otherwise. */
  lemma OutcomeMessageKind(outcome: FetchOutcome)
    ensures OutcomeMessage(outcome).messageType == CommitsType <==> outcome.Fetched?
    ensures OutcomeMessage(outcome).messageType == FailedToLoadType <==> outcome.FetchFailed?
    ensures outcome.Fetched? ==> OutcomeMessage(outcome).body == Some(outcome.data)
    ensures outcome.FetchFailed? ==> OutcomeMessage(outcome).error == Some(outcome.error)
  {
  }

  /**
   * Per client, one refresh delivers exactly one `start-loading` and exactly
   * one outcome message, whatever the order; clients not listed get nothing.
   */
  lemma RefreshMessagesPerClient(cs: seq<ClientId>, outcome: FetchOutcome, c: ClientId)
    requires Distinct(cs)
    ensures c in cs ==> multiset(MessagesTo(RefreshPosts(cs, outcome), c))
                        == multiset{StartLoadingMessage, OutcomeMessage(outcome)}
    ensures c !in cs ==> MessagesTo(RefreshPosts(cs, outcome), c) == []
  {
    MessagesToAppend(Broadcast(cs, StartLoadingMessage, false), Broadcast(cs, OutcomeMessage(outcome), true), c);
    MessagesToBroadcast(cs, StartLoadingMessage, false, c);
    MessagesToBroadcast(cs, OutcomeMessage(outcome), true, c);
  }

  /** Start-loading posts carry no reply channel; outcome posts do (they go through `sendMessageToClient`). */
  lemma RefreshReplyPorts(cs: seq<ClientId>, outcome: FetchOutcome, p: Post)
    requires p in RefreshPosts(cs, outcome)
    ensures (p.message == StartLoadingMessage && !p.replyPort) || (p.message == OutcomeMessage(outcome) && p.replyPort)
    ensures p.client in cs
  {
  }

  // ---------------------------------------------------------------------------
  // The fetch handler (test-derived)
  // ---------------------------------------------------------------------------

  /** What one interception does: the answer, whether the network was asked, and the cache after it. */
  datatype Interception = Interception(answer: NetResult, networkCalled: bool, cache: map<Url, Response>)

  /**
   * The fetch policy: the commit API goes to the network and is never stored;
   * any other URL is answered from the cache on a hit, and on a miss from the
   * network, with a successful response stored under the request URL.
   */
  function Intercept(cache: map<Url, Response>, url: Url, network: NetResult): Interception
  {
    if IsApiUrl(url) then Interception(network, true, cache)
    else if url in cache then Interception(NetOk(cache[url]), false, cache)
    else Interception(network, true, if network.NetOk? then cache[url := network.response] else cache)
  }

  /** A hit answers with the stored response, unchanged, without a network request. */
  lemma CacheHit(cache: map<Url, Response>, url: Url, network: NetResult)
    requires !IsApiUrl(url) && url in cache
    ensures Intercept(cache, url, network) == Interception(NetOk(cache[url]), false, cache)
  {
  }

  /** A miss asks the network once, answers with its response and stores that response (same status and type) under the URL. */
  lemma CacheMissStores(cache: map<Url, Response>, url: Url, response: Response)
    requires !IsApiUrl(url) && url !in cache
    ensures Intercept(cache, url, NetOk(response)).answer == NetOk(response)
    ensures Intercept(cache, url, NetOk(response)).networkCalled
    ensures Intercept(cache, url, NetOk(response)).cache.Keys == cache.Keys + {url}
    ensures Intercept(cache, url, NetOk(response)).cache[url] == response
    ensures forall u :: u in cache ==> Intercept(cache, url, NetOk(response)).cache[u] == cache[u]
  {
  }

  /** A miss whose network request fails fails the request and stores nothing. */
  lemma CacheMissNetworkFailure(cache: map<Url, Response>, url: Url, reason: string)
    requires !IsApiUrl(url) && url !in cache
    ensures Intercept(cache, url, NetFailed(reason)) == Interception(NetFailed(reason), true, cache)
  {
  }

  /** A commit API request, hit or miss, is answered by the network and never written to the cache. */
  lemma ApiNeverCached(cache: map<Url, Response>, url: Url, network: NetResult)
    requires IsApiUrl(url)
    ensures Intercept(cache, url, network) == Interception(network, true, cache)
  {
  }

  /** After a miss has stored a response, the next request for that URL is a hit on it. */
  lemma StoredThenHit(cache: map<Url, Response>, url: Url, response: Response, later: NetResult)
    requires !IsApiUrl(url) && url !in cache
    ensures var after := Intercept(cache, url, NetOk(response)).cache;
            Intercept(after, url, later) == Interception(NetOk(response), false, after)
  {
  }

  /** The fetch policy keeps the cache free of commit API entries. */
  lemma InterceptKeepsApiFree(cache: map<Url, Response>, url: Url, network: NetResult)
    requires ApiFree(cache)
    ensures ApiFree(Intercept(cache, url, network).cache)
  {
  }

  // ---------------------------------------------------------------------------
  // The install handler (test-derived)
  // ---------------------------------------------------------------------------

  /** A request that `addAll` accepts: it got a response whose status is in 200-299 (`response.ok`). */
  predicate OkFetch(r: NetResult)
  {
    r.NetOk? && 200 <= r.response.status < 300
  }

  /** Every URL of the list is fetched with an ok status. */
  predicate AllFetchable(urls: seq<Url>, fetch: Url -> NetResult)
  {
    forall i :: 0 <= i < |urls| ==> OkFetch(fetch(urls[i]))
  }

  /** The fetched responses of the list, keyed by URL. */
  function FetchedResponses(urls: seq<Url>, fetch: Url -> NetResult): map<Url, Response>
  {
    map u | u in urls && fetch(u).NetOk? :: fetch(u).response
  }

  /**
   * `cache.addAll(urls)`: all responses stored, or none when any request fails
   * or answers with a status outside 200-299.
   */
  function AddAll(cache: map<Url, Response>, urls: seq<Url>, fetch: Url -> NetResult): Option<map<Url, Response>>
  {
    if AllFetchable(urls, fetch) then Some(cache + FetchedResponses(urls, fetch)) else None
  }

  /**
   * `addAll` is all-or-nothing: it fails exactly when some request fails or is
   * not ok; on success every URL maps to its fetched response and other entries stay.
   */
  lemma AddAllAtomic(cache: map<Url, Response>, urls: seq<Url>, fetch: Url -> NetResult)
    ensures AddAll(cache, urls, fetch).None? <==>
      exists i :: 0 <= i < |urls| && (fetch(urls[i]).NetFailed? || !(200 <= fetch(urls[i]).response.status < 300))
    ensures AddAll(cache, urls, fetch).Some? ==>
      && (forall i :: 0 <= i < |urls| ==> AddAll(cache, urls, fetch).value[urls[i]] == fetch(urls[i]).response)
      && (forall u :: u in cache && u !in urls ==> AddAll(cache, urls, fetch).value[u] == cache[u])
      && AddAll(cache, urls, fetch).value.Keys == cache.Keys + set u | u in urls
  {
  }

  /** The precache list holds the page shell, its scripts and its stylesheet. */
  lemma PrecacheListed()
    ensures "/" in PrecacheUrls && "/helpers.js" in PrecacheUrls
    ensures "/main.css" in PrecacheUrls && "/main.js" in PrecacheUrls
  {
  }

  /**
   * No precached URL is a commit API URL: each lacks a character of the API
   * path (`missing[i]` for URL `i`).
   */
  lemma PrecacheNotApi()
    ensures forall i :: 0 <= i < |PrecacheUrls| ==> !IsApiUrl(PrecacheUrls[i])
  {
    var urls := PrecacheUrls;
    var missing := ['a', 'p', 'a', 'a', 'p', 'p'];
    assert urls == ["/", "/vendor/idb-keyval-min.js", "/icons/github.png", "/helpers.js", "/main.css", "/main.js"];
    forall i | 0 <= i < |urls| ensures !IsApiUrl(urls[i]) {
      MissingCharNotContained(urls[i], ApiPath, missing[i]);
    }
  }

  // ---------------------------------------------------------------------------
  // The worker
  // ---------------------------------------------------------------------------

  class Worker {
    /** What `clients.matchAll()` resolves with. */
    var clients: seq<ClientId>
    /** Every `postMessage` made to a client, in order. */
    var posted: seq<Post>
    /** The cache named `CacheName`: request URL to stored response. */
    var cache: map<Url, Response>
    /** The URLs the fetch handler forwarded to the network, in order. */
    var networkRequests: seq<Url>

    ghost predicate Valid()
      reads this
    {
      Distinct(clients) && ApiFree(cache)
    }

    constructor (clients: seq<ClientId>)
      requires Distinct(clients)
      ensures Valid()
      ensures this.clients == clients && posted == [] && cache == map[] && networkRequests == []
    {
      this.clients := clients;
      posted := [];
      cache := map[];
      networkRequests := [];
    }

    /** `sendMessageToClients(message)`: one post with a reply channel to every client. */
    method SendMessageToClients(m: Message)
      modifies this`posted
      ensures posted == old(posted) + Broadcast(clients, m, true)
    {
      var i := 0;
      while i < |clients|
        invariant 0 <= i <= |clients|
        invariant posted == old(posted) + Broadcast(clients[..i], m, true)
      {
        assert Broadcast(clients[..i + 1], m, true) == Broadcast(clients[..i], m, true) + [Post(clients[i], m, true)];
        posted := posted + [Post(clients[i], m, true)];
        i := i + 1;
      }
      assert clients[..i] == clients;
    }

    /** `updateCommits()`, with the fetch outcome as input. */
    method UpdateCommits(outcome: FetchOutcome)
      modifies this`posted
      ensures posted == old(posted) + RefreshPosts(clients, outcome)
    {
      var i := 0;
      while i < |clients|
        invariant 0 <= i <= |clients|
        invariant posted == old(posted) + Broadcast(clients[..i], StartLoadingMessage, false)
      {
        assert Broadcast(clients[..i + 1], StartLoadingMessage, false)
            == Broadcast(clients[..i], StartLoadingMessage, false) + [Post(clients[i], StartLoadingMessage, false)];
        posted := posted + [Post(clients[i], StartLoadingMessage, false)];
        i := i + 1;
      }
      assert clients[..i] == clients;
      match outcome {
        case Fetched(data) =>
          SendMessageToClients(Message(CommitsType, Some(data), None));
        case FetchFailed(e) =>
          SendMessageToClients(Message(FailedToLoadType, None, Some(e)));
      }
    }

    /**
     * The sync handler (design): it reruns the refresh workflow. The source has
     * no sync listener, so this is the only caller of `UpdateCommits`.
     */
    method OnSync(outcome: FetchOutcome)
      modifies this`posted
      ensures posted == old(posted) + RefreshPosts(clients, outcome)
    {
      UpdateCommits(outcome);
    }

    /** The install handler (test-derived): precache the list with `addAll`, all or nothing. */
    method OnInstall(fetch: Url -> NetResult) returns (ok: bool)
      requires Valid()
      modifies this`cache
      ensures Valid()
      ensures ok <==> AddAll(old(cache), PrecacheUrls, fetch).Some?
      ensures cache == if ok then AddAll(old(cache), PrecacheUrls, fetch).value else old(cache)
    {
      var urls := PrecacheUrls;
      var staged: map<Url, Response> := map[];
      var i := 0;
      while i < |urls|
        invariant 0 <= i <= |urls|
        invariant AllFetchable(urls[..i], fetch)
        invariant staged == FetchedResponses(urls[..i], fetch)
      {
        var r := fetch(urls[i]);
        if !OkFetch(r) {
          assert !AllFetchable(urls, fetch);
          return false;
        }
        assert urls[..i + 1] == urls[..i] + [urls[i]];
        staged := staged[urls[i] := r.response];
        i := i + 1;
      }
      assert urls[..i] == urls;
      PrecacheNotApi();
      cache := cache + staged;
      ok := true;
    }

    /** The fetch handler (test-derived), with the network's answer for this request as input. */
    method OnFetch(url: Url, network: NetResult) returns (answer: NetResult)
      requires Valid()
      modifies this`cache, this`networkRequests
      ensures Valid()
      ensures Intercept(old(cache), url, network) == Interception(answer, networkRequests != old(networkRequests), cache)
      ensures networkRequests == old(networkRequests) || networkRequests == old(networkRequests) + [url]
    {
      if !IsApiUrl(url) && url in cache {
        return NetOk(cache[url]);
      }
      networkRequests := networkRequests + [url];
      answer := network;
      if !IsApiUrl(url) && network.NetOk? {
        cache := cache[url := network.response];
      }
    }
  }
}
