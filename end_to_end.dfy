/**
 * The refresh workflow seen from a page: the messages the service worker posts
 * to one client, handled by that client's `onMessage`.
 */
module EndToEnd {
  import opened Strings
  import opened Server
  import opened Helpers
  import opened Page
  import opened ServiceWorker

  /** With this model's posting order, a listed client receives start-loading, then the outcome. */
  lemma RefreshDelivered(cs: seq<ClientId>, outcome: FetchOutcome, c: ClientId)
    requires Distinct(cs) && c in cs
    ensures MessagesTo(RefreshPosts(cs, outcome), c) == [StartLoadingMessage, OutcomeMessage(outcome)]
  {
    MessagesToAppend(Broadcast(cs, StartLoadingMessage, false), Broadcast(cs, OutcomeMessage(outcome), true), c);
    MessagesToBroadcast(cs, StartLoadingMessage, false, c);
    MessagesToBroadcast(cs, OutcomeMessage(outcome), true, c);
  }

  lemma ReceiveTwo(s: PageState, m1: Message, m2: Message, renderDate: string -> string)
    ensures ReceiveAll(s, [m1, m2], renderDate) == Receive(Receive(s, m1, renderDate), m2, renderDate)
  {
    var s1 := Receive(s, m1, renderDate);
    assert [m1, m2][1..] == [m2];
    assert ReceiveAll(s, [m1, m2], renderDate) == ReceiveAll(s1, [m2], renderDate);
    assert [m2][1..] == [];
    assert ReceiveAll(s1, [m2], renderDate) == ReceiveAll(Receive(s1, m2, renderDate), [], renderDate);
  }

  /**
   * Start-loading followed by the outcome: a fetched feed leaves the page
   * rendered with neither spinner nor offline icon; a failed fetch leaves it
   * offline with the spinner cleared and the old content.
   */
  lemma RefreshSettlesPage(s: PageState, outcome: FetchOutcome, renderDate: string -> string)
    ensures outcome.Fetched? && outcome.data.Feed? ==>
      && ReceiveAll(s, [StartLoadingMessage, OutcomeMessage(outcome)], renderDate).rootHtml
         == RenderContent(FeedMarkup, outcome.data.commits, renderDate(outcome.data.timestamp))
      && !ReceiveAll(s, [StartLoadingMessage, OutcomeMessage(outcome)], renderDate).SpinnerActive()
      && ReceiveAll(s, [StartLoadingMessage, OutcomeMessage(outcome)], renderDate).offlineIconDisplay == DisplayNone
    ensures outcome.FetchFailed? ==>
      && ReceiveAll(s, [StartLoadingMessage, OutcomeMessage(outcome)], renderDate).rootHtml == s.rootHtml
      && !ReceiveAll(s, [StartLoadingMessage, OutcomeMessage(outcome)], renderDate).SpinnerActive()
      && ReceiveAll(s, [StartLoadingMessage, OutcomeMessage(outcome)], renderDate).offlineIconDisplay == DisplayBlock
  {
    ReceiveTwo(s, StartLoadingMessage, OutcomeMessage(outcome), renderDate);
  }

  /**
   * The fetched body is the server's `{error}` reply: the page's render throws
   * on it, so after start-loading the spinner stays on and nothing else changes.
   */
  lemma UpstreamErrorLeavesSpinner(s: PageState, error: string, now: string, renderDate: string -> string)
    ensures ReceiveAll(s, [StartLoadingMessage, OutcomeMessage(Fetched(HandleCommits(UpstreamFailed(error), now)))],
                       renderDate)
         == s.ShowSpinner()
  {
    ReceiveTwo(s, StartLoadingMessage, OutcomeMessage(Fetched(HandleCommits(UpstreamFailed(error), now))), renderDate);
  }

  /** The two broadcasts are not ordered: if the outcome arrives first, start-loading leaves the spinner on. */
  lemma OutcomeFirstLeavesSpinner(s: PageState, outcome: FetchOutcome, renderDate: string -> string)
    ensures ReceiveAll(s, [OutcomeMessage(outcome), StartLoadingMessage], renderDate).SpinnerActive()
  {
    ReceiveTwo(s, OutcomeMessage(outcome), StartLoadingMessage, renderDate);
  }

  /**
   * A client the worker posts to during a refresh ends, in this model's order,
   * as `RefreshSettlesPage` says, whatever messages it handled before.
   */
  lemma RefreshedClientPage(cs: seq<ClientId>, outcome: FetchOutcome, c: ClientId, s: PageState,
                            earlier: seq<Message>, renderDate: string -> string)
    requires Distinct(cs) && c in cs
    requires outcome.FetchFailed? || outcome.data.Feed?
    ensures !ReceiveAll(s, earlier + MessagesTo(RefreshPosts(cs, outcome), c), renderDate).SpinnerActive()
    ensures ReceiveAll(s, earlier + MessagesTo(RefreshPosts(cs, outcome), c), renderDate).offlineIconDisplay
         == if outcome.Fetched? then DisplayNone else DisplayBlock
  {
    RefreshDelivered(cs, outcome, c);
    ReceiveAllAppend(s, earlier, MessagesTo(RefreshPosts(cs, outcome), c), renderDate);
    RefreshSettlesPage(ReceiveAll(s, earlier, renderDate), outcome, renderDate);
  }

  /** A one-commit feed: after the refresh the page shows the author, the message and the repository. */
  lemma OneCommitFeedShown(s: PageState, renderDate: string -> string)
    ensures var data := Feed([Commit("/avatar/1", "org/repo", "Ada", "fix bug")], "2024-01-01T00:00:00Z");
            var page := ReceiveAll(s, [StartLoadingMessage, OutcomeMessage(Fetched(data))], renderDate);
            && !page.SpinnerActive() && page.offlineIconDisplay == DisplayNone
            && Contains(page.rootHtml, "Ada") && Contains(page.rootHtml, "fix bug")
            && Contains(page.rootHtml, "org/repo")
  {
    var commits := [Commit("/avatar/1", "org/repo", "Ada", "fix bug")];
    var data := Feed(commits, "2024-01-01T00:00:00Z");
    RefreshSettlesPage(s, Fetched(data), renderDate);
    RenderShowsFields(FeedMarkup, commits, renderDate(data.timestamp), 0);
  }
}
