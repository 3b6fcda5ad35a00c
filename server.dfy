/**
 * The `/api/commits` handler of the origin server: the upstream GitHub event
 * list, already parsed, is filtered down to push events that carry commits and
 * each is mapped to the record the page renders.
 */
module Server {
  import opened Wrappers
  import opened Strings

  /** One commit of a push event's payload: `commits[i].author.name`, `commits[i].message`. */
  datatype PushCommit = PushCommit(authorName: string, message: string)

  /** A parsed upstream event: `type` (as `eventType`), `actor.avatar_url`, `repo.name`, `payload.commits`. */
  datatype Event = Event(eventType: string, avatarUrl: string, repoName: string, commits: seq<PushCommit>)

  /** The record sent to the page. */
  datatype Commit = Commit(avatar: string, repo: string, author: string, message: string)

  /** The JSON body of `/api/commits`: `{commits, timestamp}` or `{error}`. */
  datatype FeedResponse = Feed(commits: seq<Commit>, timestamp: string) | ErrorResponse(error: string)

  /** What the upstream request delivered: an error, or the parsed event list. */
  datatype Upstream = UpstreamFailed(error: string) | UpstreamOk(events: seq<Event>)

  const PushEventType := "PushEvent"
  const GithubAvatarPrefix := "https://avatars.githubusercontent.com/u/"
  const LocalAvatarPrefix := "/avatar/"

  /** The avatar URL, pointed at the server's own `/avatar/` relay. */
  function RewriteAvatar(url: string): string
  {
    ReplaceFirst(url, GithubAvatarPrefix, LocalAvatarPrefix)
  }

  /** A GitHub avatar URL keeps its user part and gets the local prefix. */
  lemma RewriteGithubAvatar(userPart: string)
    ensures RewriteAvatar(GithubAvatarPrefix + userPart) == LocalAvatarPrefix + userPart
  {
    ReplaceFirstPrefix(GithubAvatarPrefix, userPart, LocalAvatarPrefix);
  }

  /** A URL without the GitHub prefix anywhere is passed through unchanged. */
  lemma RewriteOtherAvatar(url: string)
    requires !Contains(url, GithubAvatarPrefix)
    ensures RewriteAvatar(url) == url
  {
    ReplaceFirstAbsent(url, GithubAvatarPrefix, LocalAvatarPrefix);
  }

  /** Only the first occurrence of the GitHub prefix is replaced. */
  lemma RewriteFirstOccurrence(url: string, i: nat)
    requires OccursAt(GithubAvatarPrefix, url, i)
    requires forall j: nat :: j < i ==> !OccursAt(GithubAvatarPrefix, url, j)
    ensures RewriteAvatar(url) == url[..i] + LocalAvatarPrefix + url[i + |GithubAvatarPrefix|..]
  {
    ReplaceFirstAt(url, GithubAvatarPrefix, LocalAvatarPrefix, i);
  }

  predicate IsPush(e: Event)
  {
    e.eventType == PushEventType
  }

  predicate HasCommits(e: Event)
  {
    |e.commits| > 0
  }

  /** An event survives both filters. */
  predicate Kept(e: Event)
  {
    IsPush(e) && HasCommits(e)
  }

  /** The `.map` step: fields come from the first commit of the payload. */
  function ToCommit(e: Event): Commit
    requires HasCommits(e)
  {
    Commit(RewriteAvatar(e.avatarUrl), e.repoName, e.commits[0].authorName, e.commits[0].message)
  }

  /** `.filter(result => result.type === 'PushEvent')` */
  function PushEvents(events: seq<Event>): (r: seq<Event>)
    ensures |r| <= |events|
    ensures forall e <- r :: IsPush(e)
  {
    if events == [] then []
    else (if IsPush(events[0]) then [events[0]] else []) + PushEvents(events[1..])
  }

  /** `.filter(result => result.payload.commits.length > 0)` */
  function WithCommits(events: seq<Event>): (r: seq<Event>)
    ensures |r| <= |events|
    ensures forall e <- r :: HasCommits(e)
    ensures forall e <- r :: e in events
  {
    if events == [] then []
    else (if HasCommits(events[0]) then [events[0]] else []) + WithCommits(events[1..])
  }

  /** `.map(result => ({avatar, repo, author, message}))` */
  function ToCommits(events: seq<Event>): (r: seq<Commit>)
    requires forall e <- events :: HasCommits(e)
    ensures |r| == |events|
  {
    if events == [] then [] else [ToCommit(events[0])] + ToCommits(events[1..])
  }

  /** The whole filter/filter/map chain. */
  function ExtractCommits(events: seq<Event>): (r: seq<Commit>)
    ensures |r| <= |events|
  {
    ToCommits(WithCommits(PushEvents(events)))
  }

  /** The handler's reply: `{error}` on an upstream error, otherwise `{commits, timestamp}`. */
  function HandleCommits(upstream: Upstream, now: string): (r: FeedResponse)
    ensures r.ErrorResponse? <==> upstream.UpstreamFailed?
    ensures upstream.UpstreamFailed? ==> r.error == upstream.error
    ensures upstream.UpstreamOk? ==> r.commits == ExtractCommits(upstream.events) && r.timestamp == now
  {
    match upstream
    case UpstreamFailed(err) => ErrorResponse(err)
    case UpstreamOk(events) => Feed(ExtractCommits(events), now)
  }

  lemma {:induction false} PushEventsAppend(a: seq<Event>, b: seq<Event>)
    ensures PushEvents(a + b) == PushEvents(a) + PushEvents(b)
  {
    if a != [] {
      assert (a + b)[1..] == a[1..] + b;
      PushEventsAppend(a[1..], b);
    } else {
      assert a + b == b;
    }
  }

  lemma {:induction false} WithCommitsAppend(a: seq<Event>, b: seq<Event>)
    ensures WithCommits(a + b) == WithCommits(a) + WithCommits(b)
  {
    if a != [] {
      assert (a + b)[1..] == a[1..] + b;
      WithCommitsAppend(a[1..], b);
    } else {
      assert a + b == b;
    }
  }

  lemma {:induction false} ToCommitsAppend(a: seq<Event>, b: seq<Event>)
    requires forall e <- a :: HasCommits(e)
    requires forall e <- b :: HasCommits(e)
    ensures ToCommits(a + b) == ToCommits(a) + ToCommits(b)
  {
    if a != [] {
      assert (a + b)[1..] == a[1..] + b;
      ToCommitsAppend(a[1..], b);
    } else {
      assert a + b == b;
    }
  }

  /** The pipeline treats each event on its own: it distributes over concatenation. */
  lemma ExtractCommitsAppend(a: seq<Event>, b: seq<Event>)
    ensures ExtractCommits(a + b) == ExtractCommits(a) + ExtractCommits(b)
  {
    PushEventsAppend(a, b);
    WithCommitsAppend(PushEvents(a), PushEvents(b));
    ToCommitsAppend(WithCommits(PushEvents(a)), WithCommits(PushEvents(b)));
  }

  /** A single event yields its record exactly when it survives both filters. */
  lemma ExtractCommitsSingle(e: Event)
    ensures ExtractCommits([e]) == if Kept(e) then [ToCommit(e)] else []
  {
    assert [e][1..] == [];
  }

  /** The indices, in increasing order, of the events that survive both filters. */
  function KeptIndices(events: seq<Event>): (r: seq<nat>)
  {
    if events == [] then []
    else
      var n := |events| - 1;
      KeptIndices(events[..n]) + (if Kept(events[n]) then [n] else [])
  }

  /** Each surviving index is in range and names a surviving event. */
  lemma {:induction false} KeptIndicesSound(events: seq<Event>)
    ensures forall k :: 0 <= k < |KeptIndices(events)| ==>
      KeptIndices(events)[k] < |events| && Kept(events[KeptIndices(events)[k]])
  {
    if events != [] {
      var n := |events| - 1;
      var init := events[..n];
      KeptIndicesSound(init);
      var r, ri := KeptIndices(events), KeptIndices(init);
      forall k | 0 <= k < |r| ensures r[k] < |events| && Kept(events[r[k]]) {
        if k < |ri| {
          assert r[k] == ri[k] && events[ri[k]] == init[ri[k]];
        }
      }
    }
  }

  /** The surviving indices are strictly increasing. */
  lemma {:induction false} KeptIndicesIncreasing(events: seq<Event>)
    ensures forall k, l :: 0 <= k < l < |KeptIndices(events)| ==> KeptIndices(events)[k] < KeptIndices(events)[l]
  {
    if events != [] {
      var n := |events| - 1;
      var init := events[..n];
      KeptIndicesIncreasing(init);
      KeptIndicesSound(init);
      var r, ri := KeptIndices(events), KeptIndices(init);
      assert forall k :: 0 <= k < |ri| ==> r[k] == ri[k] && ri[k] < n;
    }
  }

  /** Every surviving event's index is among the surviving indices. */
  lemma {:induction false} KeptIndicesComplete(events: seq<Event>)
    ensures forall i :: 0 <= i < |events| && Kept(events[i]) ==> i in KeptIndices(events)
  {
    if events != [] {
      var n := |events| - 1;
      var init := events[..n];
      KeptIndicesComplete(init);
      forall i | 0 <= i < |events| && Kept(events[i]) ensures i in KeptIndices(events) {
        if i < n {
          assert init[i] == events[i];
        }
      }
    }
  }

  /**
   * The surviving indices are in range, strictly increasing, each names a
   * surviving event, and every surviving event's index is among them.
   */
  lemma KeptIndicesExact(events: seq<Event>)
    ensures forall k :: 0 <= k < |KeptIndices(events)| ==>
      KeptIndices(events)[k] < |events| && Kept(events[KeptIndices(events)[k]])
    ensures forall k, l :: 0 <= k < l < |KeptIndices(events)| ==> KeptIndices(events)[k] < KeptIndices(events)[l]
    ensures forall i :: 0 <= i < |events| && Kept(events[i]) ==> i in KeptIndices(events)
  {
    KeptIndicesSound(events);
    KeptIndicesIncreasing(events);
    KeptIndicesComplete(events);
  }

  /** The last event contributes one record exactly when it contributes one index. */
  lemma ExtractCommitsSnoc(init: seq<Event>, last: Event)
    ensures ExtractCommits(init + [last]) == ExtractCommits(init) + (if Kept(last) then [ToCommit(last)] else [])
    ensures KeptIndices(init + [last]) == KeptIndices(init) + (if Kept(last) then [|init|] else [])
  {
    ExtractCommitsAppend(init, [last]);
    ExtractCommitsSingle(last);
    assert (init + [last])[..|init|] == init;
  }

  /**
   * What the pipeline produces, event by event: record `k` is the mapped form
   * of the `k`-th surviving event (see `KeptIndicesExact` for which those are).
   */
  lemma {:induction false} ExtractCommitsIndices(events: seq<Event>)
    ensures |ExtractCommits(events)| == |KeptIndices(events)|
    ensures forall k :: 0 <= k < |KeptIndices(events)| ==>
      KeptIndices(events)[k] < |events| && Kept(events[KeptIndices(events)[k]]) &&
      ExtractCommits(events)[k] == ToCommit(events[KeptIndices(events)[k]])
  {
    KeptIndicesSound(events);
    if events != [] {
      var n := |events| - 1;
      var init, last := events[..n], events[n];
      assert events == init + [last];
      ExtractCommitsSnoc(init, last);
      ExtractCommitsIndices(init);
      var r, ri := KeptIndices(events), KeptIndices(init);
      var c, ci := ExtractCommits(events), ExtractCommits(init);
      forall k | 0 <= k < |r| ensures c[k] == ToCommit(events[r[k]]) {
        if k < |ri| {
          assert r[k] == ri[k] && c[k] == ci[k] && events[ri[k]] == init[ri[k]];
        }
      }
    }
  }

  /** Every record comes from a push event with commits, and its fields come from that event. */
  lemma ExtractCommitsSources(events: seq<Event>, k: nat)
    requires k < |ExtractCommits(events)|
    ensures exists i ::
              && 0 <= i < |events| && IsPush(events[i]) && HasCommits(events[i])
              && ExtractCommits(events)[k] == Commit(RewriteAvatar(events[i].avatarUrl), events[i].repoName,
                                                     events[i].commits[0].authorName, events[i].commits[0].message)
  {
    ExtractCommitsIndices(events);
    var i := KeptIndices(events)[k];
    assert IsPush(events[i]) && HasCommits(events[i]);
  }

  /** An event list without push events that carry commits yields no records. */
  lemma {:induction false} NoKeptNoCommits(events: seq<Event>)
    requires forall e <- events :: !Kept(e)
    ensures ExtractCommits(events) == []
  {
    if events != [] {
      assert events == [events[0]] + events[1..];
      ExtractCommitsAppend([events[0]], events[1..]);
      ExtractCommitsSingle(events[0]);
      NoKeptNoCommits(events[1..]);
    }
  }
}
