/**
 * The page script: how each message from the service worker changes the page
 * (`onMessage`, `onReceiveCommits`) and the load-time fetch of the feed.
 */
module Page {
  import opened Wrappers
  import opened Server
  import opened Helpers

  /** `onReceiveCommits(body)`: render, then clear the spinner and the offline icon; a throwing render changes nothing. */
  function ReceiveCommits(s: PageState, body: Option<FeedResponse>, renderDate: string -> string): PageState
  {
    if Renderable(body) then s.WithRootHtml(RenderFeed(body.value, renderDate)).HideSpinner().HideOfflineMessage()
    else s
  }

  /** `onMessage(event)`: the page state after one message. */
  function Receive(s: PageState, m: Message, renderDate: string -> string): PageState
  {
    match TagOf(m.messageType)
    case CommitsTag => ReceiveCommits(s, m.body, renderDate)
    case WorkerInstalledTag => s.FlashReadyForOfflineMessage()
    case FailedToLoadTag => s.ShowOfflineMessage().HideSpinner()
    case StartLoadingTag => s.ShowSpinner()
    case UnknownTag => s
  }

  /** The page state after a sequence of messages, handled in order. */
  function ReceiveAll(s: PageState, ms: seq<Message>, renderDate: string -> string): PageState
    decreases ms
  {
    if ms == [] then s else ReceiveAll(Receive(s, ms[0], renderDate), ms[1..], renderDate)
  }

  /** The `.then(onReceiveCommits).catch(...)` tail of the load path; the catch also catches a throwing render. */
  function LoadSettled(s: PageState, outcome: FetchOutcome, renderDate: string -> string): PageState
  {
    match outcome
    case Fetched(data) =>
      if Renderable(Some(data)) then ReceiveCommits(s, Some(data), renderDate)
      else s.ShowOfflineMessage().HideSpinner()
    case FetchFailed(_) => s.ShowOfflineMessage().HideSpinner()
  }

  method OnReceiveCommits(d: Document, body: Option<FeedResponse>, renderDate: string -> string) returns (thrown: bool)
    modifies d
    ensures thrown <==> !Renderable(body)
    ensures d.State() == ReceiveCommits(old(d.State()), body, renderDate)
  {
    thrown := d.Render(body, renderDate);
    if thrown {
      return;
    }
    d.HideSpinner();
    d.HideOfflineMessage();
  }

  /** `onMessage`: one `if` per message type; an exception from render ends the handler. */
  method OnMessage(d: Document, m: Message, renderDate: string -> string) returns (thrown: bool)
    modifies d
    ensures thrown <==> m.messageType == CommitsType && !Renderable(m.body)
    ensures d.State() == Receive(old(d.State()), m, renderDate)
  {
    thrown := false;
    if m.messageType == CommitsType {
      thrown := OnReceiveCommits(d, m.body, renderDate);
      if thrown {
        return;
      }
    }
    if m.messageType == WorkerInstalledType {
      d.FlashReadyForOfflineMessage();
    }
    if m.messageType == FailedToLoadType {
      d.ShowOfflineMessage();
      d.HideSpinner();
    }
    if m.messageType == StartLoadingType {
      d.ShowSpinner();
    }
  }

  /** The load path up to the fetch: the spinner is shown first. */
  method BeginLoad(d: Document)
    modifies d
    ensures d.State() == old(d.State()).ShowSpinner()
  {
    d.ShowSpinner();
  }

  /** The load path once the fetch has settled. */
  method FinishLoad(d: Document, outcome: FetchOutcome, renderDate: string -> string)
    modifies d
    ensures d.State() == LoadSettled(old(d.State()), outcome, renderDate)
  {
    match outcome {
      case Fetched(data) =>
        var thrown := OnReceiveCommits(d, Some(data), renderDate);
        if thrown {
          d.ShowOfflineMessage();
          d.HideSpinner();
        }
      case FetchFailed(_) =>
        d.ShowOfflineMessage();
        d.HideSpinner();
    }
  }

  /** The whole load path, with the fetch outcome as input. */
  method Load(d: Document, outcome: FetchOutcome, renderDate: string -> string)
    modifies d
    ensures d.State() == LoadSettled(old(d.State()).ShowSpinner(), outcome, renderDate)
  {
    BeginLoad(d);
    FinishLoad(d, outcome, renderDate);
  }

  /** A renderable `commits` message renders its body and clears the spinner and the offline icon. */
  lemma CommitsMessageEffect(s: PageState, m: Message, renderDate: string -> string)
    requires m.messageType == CommitsType && Renderable(m.body)
    ensures Receive(s, m, renderDate).rootHtml == RenderFeed(m.body.value, renderDate)
    ensures !Receive(s, m, renderDate).SpinnerActive()
    ensures Receive(s, m, renderDate).offlineIconDisplay == DisplayNone
    ensures Receive(s, m, renderDate).readyIconDisplay == s.readyIconDisplay
  {
  }

  /** A `commits` message without a renderable body (missing, or `{error}`) leaves the page as it was. */
  lemma UnrenderableCommitsMessageIgnored(s: PageState, m: Message, renderDate: string -> string)
    requires m.messageType == CommitsType && !Renderable(m.body)
    ensures Receive(s, m, renderDate) == s
  {
  }

  /** `failed-to-load` shows the offline icon and clears the spinner; the rendered content stays. */
  lemma FailedToLoadEffect(s: PageState, m: Message, renderDate: string -> string)
    requires m.messageType == FailedToLoadType
    ensures Receive(s, m, renderDate) == s.ShowOfflineMessage().HideSpinner()
    ensures Receive(s, m, renderDate).offlineIconDisplay == DisplayBlock
    ensures !Receive(s, m, renderDate).SpinnerActive()
    ensures Receive(s, m, renderDate).rootHtml == s.rootHtml
  {
  }

  /** `start-loading` makes the spinner active and changes nothing else. */
  lemma StartLoadingEffect(s: PageState, m: Message, renderDate: string -> string)
    requires m.messageType == StartLoadingType
    ensures Receive(s, m, renderDate).SpinnerActive()
    ensures Receive(s, m, renderDate) == s.(spinnerClasses := s.spinnerClasses + {SpinnerActiveClass})
  {
  }

  /** `worker-installed` shows the ready-for-offline icon and changes nothing else. */
  lemma WorkerInstalledEffect(s: PageState, m: Message, renderDate: string -> string)
    requires m.messageType == WorkerInstalledType
    ensures Receive(s, m, renderDate) == s.(readyIconDisplay := DisplayBlock)
  {
  }

  /** A message of any other type leaves the page as it was. */
  lemma UnknownMessageIgnored(s: PageState, m: Message, renderDate: string -> string)
    requires m.messageType !in {CommitsType, FailedToLoadType, StartLoadingType, WorkerInstalledType}
    ensures Receive(s, m, renderDate) == s
  {
  }

  /** At load the spinner is on while the fetch runs; a failed fetch ends offline with the spinner cleared. */
  lemma LoadFailureEffect(s: PageState, error: string, renderDate: string -> string)
    ensures s.ShowSpinner().SpinnerActive()
    ensures LoadSettled(s.ShowSpinner(), FetchFailed(error), renderDate).offlineIconDisplay == DisplayBlock
    ensures !LoadSettled(s.ShowSpinner(), FetchFailed(error), renderDate).SpinnerActive()
    ensures LoadSettled(s.ShowSpinner(), FetchFailed(error), renderDate).rootHtml == s.rootHtml
  {
  }

  /** A fetched `{error}` body makes render throw, so the load ends on the offline path too. */
  lemma LoadErrorBodyEffect(s: PageState, error: string, renderDate: string -> string)
    ensures LoadSettled(s.ShowSpinner(), Fetched(ErrorResponse(error)), renderDate)
         == LoadSettled(s.ShowSpinner(), FetchFailed(error), renderDate)
  {
  }

  /** A fetched feed is rendered, with neither spinner nor offline icon left. */
  lemma LoadSuccessEffect(s: PageState, commits: seq<Commit>, timestamp: string, renderDate: string -> string)
    ensures LoadSettled(s.ShowSpinner(), Fetched(Feed(commits, timestamp)), renderDate).rootHtml
         == RenderContent(FeedMarkup, commits, renderDate(timestamp))
    ensures !LoadSettled(s.ShowSpinner(), Fetched(Feed(commits, timestamp)), renderDate).SpinnerActive()
    ensures LoadSettled(s.ShowSpinner(), Fetched(Feed(commits, timestamp)), renderDate).offlineIconDisplay
         == DisplayNone
  {
  }

  /** Handling two message sequences one after the other is handling their concatenation. */
  lemma {:induction false} ReceiveAllAppend(s: PageState, a: seq<Message>, b: seq<Message>, renderDate: string -> string)
    ensures ReceiveAll(s, a + b, renderDate) == ReceiveAll(ReceiveAll(s, a, renderDate), b, renderDate)
    decreases a
  {
    if a != [] {
      assert (a + b)[1..] == a[1..] + b;
      ReceiveAllAppend(Receive(s, a[0], renderDate), a[1..], b, renderDate);
    } else {
      assert a + b == b;
    }
  }

  /** Messages of unknown types anywhere in a sequence have no effect. */
  lemma {:induction false} UnknownMessagesIgnored(s: PageState, ms: seq<Message>, renderDate: string -> string)
    requires forall m <- ms :: TagOf(m.messageType) == UnknownTag
    ensures ReceiveAll(s, ms, renderDate) == s
    decreases ms
  {
    if ms != [] {
      assert ms[0] in ms;
      UnknownMessagesIgnored(s, ms[1..], renderDate);
    }
  }
}
