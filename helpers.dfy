/**
 * The helpers shared by the page and the service worker: the message protocol
 * between them, the reply rule of a request/reply exchange, the HTML rendering
 * of the commit feed, and the page elements that the show/hide helpers change.
 */
module Helpers {
  import opened Wrappers
  import opened Strings
  import opened Server

  // ---------------------------------------------------------------------------
  // Rendering of the commit feed (`render`)
  // ---------------------------------------------------------------------------

  const ListElementOpen := "<div class=\"list-element\">"
  /** The text of a commit block before the commit message. */
  const BlockHead := ListElementOpen + "<img class=\"commit-icon\" src=\"../icons/commit.png\" />" + "<pre class=\"commit-title\">"
  /** Between the message and the avatar URL. */
  const BlockAvatarOpen := "</pre>" + "<p class=\"commit-author\">" + "<img src=\""
  /** Between the avatar URL and the author. */
  const BlockAvatarClose := "\" class=\"commit-avatar\"/>" + "<span>"
  /** Between the author and the repository name (the source spells it "commited"). */
  const BlockCommitted := " <strong>commited to</strong> "
  /** After the repository name; the span is left unclosed (`</span` without `>`). */
  const BlockTail := "</span" + "</p>" + "</div>"
  /** The timestamp header before the rendered date, and after it. */
  const HeaderOpen := "<div class=\"timestamp\">" + "<strong>Last updated: </strong>"
  const HeaderClose := "</div>"
  const BlockSeparator := "\n"

  /**
   * The fixed text around the inserted values. `render` uses `FeedMarkup`;
   * the rendering lemmas below hold for any markup, so they do not depend on
   * the particular HTML.
   */
  datatype Markup = Markup(blockHead: string, avatarOpen: string, avatarClose: string,
                           committed: string, blockTail: string,
                           headerOpen: string, headerClose: string, separator: string)

  const FeedMarkup := Markup(BlockHead, BlockAvatarOpen, BlockAvatarClose, BlockCommitted, BlockTail,
                             HeaderOpen, HeaderClose, BlockSeparator)

  /** One `list-element` block; the fields are inserted verbatim, without escaping. */
  function CommitBlock(m: Markup, c: Commit): string
  {
    m.blockHead + c.message + m.avatarOpen + c.avatar + m.avatarClose + c.author
      + m.committed + c.repo + m.blockTail
  }

  /** One block per commit, in the commits' order. */
  function Blocks(m: Markup, commits: seq<Commit>): (r: seq<string>)
    ensures |r| == |commits|
  {
    seq(|commits|, i requires 0 <= i < |commits| => CommitBlock(m, commits[i]))
  }

  function TimestampHeader(m: Markup, renderedDate: string): string
  {
    m.headerOpen + renderedDate + m.headerClose
  }

  /** The content put into `#root`: the header, then the blocks joined by newlines. */
  function RenderContent(m: Markup, commits: seq<Commit>, renderedDate: string): string
  {
    TimestampHeader(m, renderedDate) + Join(Blocks(m, commits), m.separator)
  }

  /** `render(data)` succeeds only on a body that has `commits`; otherwise it throws. */
  predicate Renderable(body: Option<FeedResponse>)
  {
    body.Some? && body.value.Feed?
  }

  /** What `render` writes into `#root`; `renderDate` is the runtime's date formatting. */
  function RenderFeed(data: FeedResponse, renderDate: string -> string): string
    requires data.Feed?
  {
    RenderContent(FeedMarkup, data.commits, renderDate(data.timestamp))
  }

  /** The fields of a commit sit verbatim at fixed positions inside its block. */
  lemma CommitBlockFields(m: Markup, c: Commit)
    ensures OccursAt(m.blockHead, CommitBlock(m, c), 0)
    ensures OccursAt(c.message, CommitBlock(m, c), |m.blockHead|)
    ensures OccursAt(c.avatar, CommitBlock(m, c), |m.blockHead| + |c.message| + |m.avatarOpen|)
    ensures OccursAt(c.author, CommitBlock(m, c),
                     |m.blockHead| + |c.message| + |m.avatarOpen| + |c.avatar| + |m.avatarClose|)
    ensures OccursAt(c.repo, CommitBlock(m, c),
                     |m.blockHead| + |c.message| + |m.avatarOpen| + |c.avatar| + |m.avatarClose|
                     + |c.author| + |m.committed|)
    ensures OccursAt(m.blockTail, CommitBlock(m, c), |CommitBlock(m, c)| - |m.blockTail|)
  {
    FourFieldsAt(m.blockHead, c.message, m.avatarOpen, c.avatar, m.avatarClose, c.author,
                 m.committed, c.repo, m.blockTail);
  }

  /** Every block of the feed opens a `list-element` division. */
  lemma BlockHeadOpensListElement()
    ensures OccursAt(ListElementOpen, FeedMarkup.blockHead, 0)
  {
    OccursAtEnd([], ListElementOpen);
    assert [] + ListElementOpen == ListElementOpen;
    var h := ListElementOpen + "<img class=\"commit-icon\" src=\"../icons/commit.png\" />";
    OccursExtend(ListElementOpen, ListElementOpen, 0, "<img class=\"commit-icon\" src=\"../icons/commit.png\" />");
    OccursExtend(ListElementOpen, h, 0, "<pre class=\"commit-title\">");
  }

  /** The rendered content begins with the timestamp header and the rendered date. */
  lemma RenderHeaderFirst(m: Markup, commits: seq<Commit>, renderedDate: string)
    ensures OccursAt(TimestampHeader(m, renderedDate), RenderContent(m, commits, renderedDate), 0)
    ensures OccursAt(renderedDate, RenderContent(m, commits, renderedDate), |m.headerOpen|)
  {
    var content := RenderContent(m, commits, renderedDate);
    assert content[0..|TimestampHeader(m, renderedDate)|] == TimestampHeader(m, renderedDate);
    OccursMiddle(m.headerOpen, renderedDate, m.headerClose + Join(Blocks(m, commits), m.separator));
  }

  /** Without commits only the header is rendered. */
  lemma RenderNoCommits(m: Markup, renderedDate: string)
    ensures RenderContent(m, [], renderedDate) == TimestampHeader(m, renderedDate)
  {
  }

  /** Where block `k` starts in the rendered content. */
  function BlockOffset(m: Markup, commits: seq<Commit>, renderedDate: string, k: nat): nat
    requires k <= |commits|
  {
    |TimestampHeader(m, renderedDate)| + JoinOffset(Blocks(m, commits), m.separator, k)
  }

  /**
   * The layout of the rendered content: block `k` is the block of commit `k`,
   * placed after the header and after the blocks of the commits before it,
   * each pair of consecutive blocks separated by exactly one separator, and
   * the last block ends the content.
   */
  lemma RenderBlockAt(m: Markup, commits: seq<Commit>, renderedDate: string, k: nat)
    requires k < |commits|
    ensures OccursAt(CommitBlock(m, commits[k]), RenderContent(m, commits, renderedDate),
                     BlockOffset(m, commits, renderedDate, k))
    ensures k + 1 < |commits| ==>
      && OccursAt(m.separator, RenderContent(m, commits, renderedDate),
                  BlockOffset(m, commits, renderedDate, k) + |CommitBlock(m, commits[k])|)
      && BlockOffset(m, commits, renderedDate, k + 1)
         == BlockOffset(m, commits, renderedDate, k) + |CommitBlock(m, commits[k])| + |m.separator|
    ensures k + 1 == |commits| ==>
      |RenderContent(m, commits, renderedDate)|
      == BlockOffset(m, commits, renderedDate, k) + |CommitBlock(m, commits[k])|
  {
    JoinPartAfter(TimestampHeader(m, renderedDate), Blocks(m, commits), m.separator, k);
  }

  /** A string holding a commit's block holds each of the commit's fields. */
  lemma BlockShowsFields(m: Markup, c: Commit, content: string, off: nat)
    requires OccursAt(CommitBlock(m, c), content, off)
    ensures Contains(content, c.message) && Contains(content, c.avatar)
    ensures Contains(content, c.author) && Contains(content, c.repo)
  {
    FourFieldsContained(m.blockHead, c.message, m.avatarOpen, c.avatar, m.avatarClose, c.author,
                        m.committed, c.repo, m.blockTail, content, off);
  }

  /** Every commit's message, avatar, author and repository appear in the rendered content. */
  lemma RenderShowsFields(m: Markup, commits: seq<Commit>, renderedDate: string, k: nat)
    requires k < |commits|
    ensures Contains(RenderContent(m, commits, renderedDate), commits[k].message)
    ensures Contains(RenderContent(m, commits, renderedDate), commits[k].avatar)
    ensures Contains(RenderContent(m, commits, renderedDate), commits[k].author)
    ensures Contains(RenderContent(m, commits, renderedDate), commits[k].repo)
  {
    RenderBlockAt(m, commits, renderedDate, k);
    BlockShowsFields(m, commits[k], RenderContent(m, commits, renderedDate), BlockOffset(m, commits, renderedDate, k));
  }

  // ---------------------------------------------------------------------------
  // The reply rule of `sendMessageToClient`
  // ---------------------------------------------------------------------------

  /** The JavaScript values an `error` property can hold, as far as truthiness goes. */
  datatype JsValue = Undefined | Null | Bool(b: bool) | Number(n: int) | Str(s: string) | Object

  /** JavaScript truthiness: `undefined`, `null`, `false`, `0` and `""` are falsy. */
  predicate Truthy(v: JsValue)
  {
    match v
    case Undefined => false
    case Null => false
    case Bool(b) => b
    case Number(n) => n != 0
    case Str(s) => s != ""
    case Object => true
  }

  /** The data of a reply: its `error` property and the rest of it. */
  datatype ReplyData = ReplyData(error: JsValue, payload: JsValue)

  /** How the promise returned by `sendMessageToClient` settles. */
  datatype Settlement = Resolved(value: ReplyData) | Rejected(reason: JsValue)

  /** A reply with a truthy `error` rejects with that error; any other reply resolves with the whole data. */
  function SettleReply(data: ReplyData): (r: Settlement)
    ensures r.Rejected? <==> Truthy(data.error)
    ensures r.Rejected? ==> r.reason == data.error
    ensures r.Resolved? ==> r.value == data
  {
    if Truthy(data.error) then Rejected(data.error) else Resolved(data)
  }

  /** A reply whose `error` is absent or falsy (such as `""` or `0`) resolves, with the error field kept. */
  lemma FalsyErrorResolves(data: ReplyData)
    requires data.error in {Undefined, Null, Bool(false), Number(0), Str("")}
    ensures SettleReply(data) == Resolved(data)
  {
  }

  // ---------------------------------------------------------------------------
  // `fetchCommits`
  // ---------------------------------------------------------------------------

  /**
   * What `fetchCommits()` settles with: the parsed `/api/commits` body, or a
   * rejection carrying the error's string form.
   */
  datatype FetchOutcome = Fetched(data: FeedResponse) | FetchFailed(error: string)

  // ---------------------------------------------------------------------------
  // The message protocol
  // ---------------------------------------------------------------------------

  /** A message posted to a page: `{type, body?, error?}`. */
  datatype Message = Message(messageType: string, body: Option<FeedResponse>, error: Option<string>)

  const CommitsType := "commits"
  const FailedToLoadType := "failed-to-load"
  const StartLoadingType := "start-loading"
  const WorkerInstalledType := "worker-installed"

  /** The message types the page reacts to, and every other string. */
  datatype Tag = CommitsTag | FailedToLoadTag | StartLoadingTag | WorkerInstalledTag | UnknownTag

  function TagOf(messageType: string): Tag
  {
    if messageType == CommitsType then CommitsTag
    else if messageType == FailedToLoadType then FailedToLoadTag
    else if messageType == StartLoadingType then StartLoadingTag
    else if messageType == WorkerInstalledType then WorkerInstalledTag
    else UnknownTag
  }

  function TagName(t: Tag): string
    requires !t.UnknownTag?
  {
    match t
    case CommitsTag => CommitsType
    case FailedToLoadTag => FailedToLoadType
    case StartLoadingTag => StartLoadingType
    case WorkerInstalledTag => WorkerInstalledType
  }

  /** Each known tag is recognised from its name, and only the four names are known. */
  lemma TagNames(t: Tag, messageType: string)
    ensures !t.UnknownTag? ==> TagOf(TagName(t)) == t
    ensures TagOf(messageType) == UnknownTag <==>
      messageType !in {CommitsType, FailedToLoadType, StartLoadingType, WorkerInstalledType}
  {
  }

  // ---------------------------------------------------------------------------
  // Page elements changed by the show/hide helpers
  // ---------------------------------------------------------------------------

  const SpinnerActiveClass := "spinner--active"
  const DisplayBlock := "block"
  const DisplayNone := "none"

  /**
   * The page state the helpers touch: the class list of `#spinner`, the
   * `style.display` of `#fancy-offline-icon` and `#ready-for-offline-icon`,
   * and the `innerHTML` of `#root`.
   */
  datatype PageState = PageState(spinnerClasses: set<string>, offlineIconDisplay: string,
                                 readyIconDisplay: string, rootHtml: string)
  {
    predicate SpinnerActive()
    {
      SpinnerActiveClass in spinnerClasses
    }

    function HideOfflineMessage(): PageState
    {
      this.(offlineIconDisplay := DisplayNone)
    }

    function ShowOfflineMessage(): PageState
    {
      this.(offlineIconDisplay := DisplayBlock)
    }

    function HideSpinner(): PageState
    {
      this.(spinnerClasses := spinnerClasses - {SpinnerActiveClass})
    }

    function ShowSpinner(): PageState
    {
      this.(spinnerClasses := spinnerClasses + {SpinnerActiveClass})
    }

    /** The immediate part of `flashReadyForOfflineMessage`. */
    function FlashReadyForOfflineMessage(): PageState
    {
      this.(readyIconDisplay := DisplayBlock)
    }

    /** The timer callback of `flashReadyForOfflineMessage`, run 5 seconds later. */
    function ReadyIconTimeout(): PageState
    {
      this.(readyIconDisplay := DisplayNone)
    }

    function WithRootHtml(html: string): PageState
    {
      this.(rootHtml := html)
    }
  }

  /**
   * The spinner helpers toggle the single class `spinner--active`, are
   * idempotent, and leave the other classes and the rest of the page alone.
   */
  lemma SpinnerHelpers(s: PageState)
    ensures s.ShowSpinner().SpinnerActive() && !s.HideSpinner().SpinnerActive()
    ensures s.ShowSpinner().ShowSpinner() == s.ShowSpinner()
    ensures s.HideSpinner().HideSpinner() == s.HideSpinner()
    ensures s.ShowSpinner().spinnerClasses - {SpinnerActiveClass} == s.spinnerClasses - {SpinnerActiveClass}
    ensures s.HideSpinner().spinnerClasses + {SpinnerActiveClass} == s.spinnerClasses + {SpinnerActiveClass}
    ensures s.ShowSpinner().(spinnerClasses := s.spinnerClasses) == s
    ensures s.HideSpinner().(spinnerClasses := s.spinnerClasses) == s
  {
  }

  /** The offline-icon helpers set its display to `block` / `none` and change nothing else. */
  lemma OfflineHelpers(s: PageState)
    ensures s.ShowOfflineMessage().offlineIconDisplay == DisplayBlock
    ensures s.HideOfflineMessage().offlineIconDisplay == DisplayNone
    ensures s.ShowOfflineMessage().(offlineIconDisplay := s.offlineIconDisplay) == s
    ensures s.HideOfflineMessage().(offlineIconDisplay := s.offlineIconDisplay) == s
  {
  }

  /** The document: the page elements as mutable fields. */
  class Document {
    var spinnerClasses: set<string>
    var offlineIconDisplay: string
    var readyIconDisplay: string
    var rootHtml: string

    function State(): PageState
      reads this
    {
      PageState(spinnerClasses, offlineIconDisplay, readyIconDisplay, rootHtml)
    }

    constructor (initial: PageState)
      ensures State() == initial
    {
      spinnerClasses := initial.spinnerClasses;
      offlineIconDisplay := initial.offlineIconDisplay;
      readyIconDisplay := initial.readyIconDisplay;
      rootHtml := initial.rootHtml;
    }

    method HideOfflineMessage()
      modifies this
      ensures State() == old(State()).HideOfflineMessage()
    {
      offlineIconDisplay := DisplayNone;
    }

    method ShowOfflineMessage()
      modifies this
      ensures State() == old(State()).ShowOfflineMessage()
    {
      offlineIconDisplay := DisplayBlock;
    }

    method HideSpinner()
      modifies this
      ensures State() == old(State()).HideSpinner()
    {
      spinnerClasses := spinnerClasses - {SpinnerActiveClass};
    }

    method ShowSpinner()
      modifies this
      ensures State() == old(State()).ShowSpinner()
    {
      spinnerClasses := spinnerClasses + {SpinnerActiveClass};
    }

    method FlashReadyForOfflineMessage()
      modifies this
      ensures State() == old(State()).FlashReadyForOfflineMessage()
    {
      readyIconDisplay := DisplayBlock;
    }

    /** The `setTimeout` callback that hides the ready-for-offline icon again. */
    method ReadyIconTimeout()
      modifies this
      ensures State() == old(State()).ReadyIconTimeout()
    {
      readyIconDisplay := DisplayNone;
    }

    /**
     * `render(data)`: sets `#root` to the rendered feed, or throws (reading
     * `commits` of a missing body or of an `{error}` body) before changing anything.
     */
    method Render(data: Option<FeedResponse>, renderDate: string -> string) returns (thrown: bool)
      modifies this
      ensures thrown <==> !Renderable(data)
      ensures State() == if thrown then old(State()) else old(State()).WithRootHtml(RenderFeed(data.value, renderDate))
    {
      if !Renderable(data) {
        return true;
      }
      rootHtml := RenderFeed(data.value, renderDate);
      thrown := false;
    }
  }
}
