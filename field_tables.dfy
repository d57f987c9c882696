/** The field tables of the notification builders. For each watched event type
    they list the InsertField requests a builder issues, in call order, as a
    function of the event's action (or ref_type). Both builder revisions issue
    exactly these requests; the current one then drops the fields whose title
    or value is empty (AttachmentBuilder.Filled), the older one keeps them all. */
module FieldTables {
  import opened Wrappers
  import opened Wire
  import opened GitHubEvents
  import opened AttachmentBuilder

  const Account := "アカウント"
  const Action := "アクション"
  const Link := "リンク"

  /** One line of the push summary: the commit url and the first seven
      characters of its id as a Slack link, the message, and a newline. */
  function CommitLine(c: Commit): string {
    "<" + c.url + "|" + c.id[..7] + "> " + c.message + "\n"
  }

  /** The push summary: the lines of all commits, in order. */
  function CommitLines(cs: seq<Commit>): string
    decreases |cs|
  {
    if cs == [] then "" else CommitLines(cs[..|cs| - 1]) + CommitLine(cs[|cs| - 1])
  }

  /** The push summary, written one commit at a time. */
  method CommitText(commits: seq<Commit>) returns (text: string)
    ensures text == CommitLines(commits)
  {
    text := "";
    var i := 0;
    while i < |commits|
      invariant 0 <= i <= |commits|
      invariant text == CommitLines(commits[..i])
    {
      assert commits[..i + 1][..i] == commits[..i];
      text := text + CommitLine(commits[i]);
      i := i + 1;
    }
    assert commits[..|commits|] == commits;
  }

  function CommitCommentRequests(e: CommitCommentEvent): (rs: seq<Field>)
    ensures |rs| >= 1 && rs[0] == Field(Account, Login(e.sender), true)
  {
    var r := [Field(Account, Login(e.sender), true)];
    match e.action
    case "created" => r + [Field(Action, "コメントされました", true)] + [Field("コメント", CommentBody(e.comment), false)] + [Field("CommitID", CommentCommitId(e.comment), false)] + [Field(Link, CommentUrl(e.comment), false)]
    case _ => r + [Field(Action, "CommitCommentEvent (" + e.action + ")", false)]
  }

  function CreateRequests(e: RefEvent): (rs: seq<Field>)
    ensures |rs| >= 1 && rs[0] == Field(Account, Login(e.sender), true)
  {
    var r := [Field(Account, Login(e.sender), true)];
    match e.refType
    case "branch" => r + [Field(Action, "ブランチが作成されました", true)] + [Field("ブランチ名", e.ref, false)] + [Field(Link, e.repoUrl, false)]
    case "tag" => r + [Field(Action, "タグが作成されました", true)] + [Field("タグ名", e.ref, false)] + [Field(Link, e.repoUrl, false)]
    case _ => r
  }

  function DeleteRequests(e: RefEvent): (rs: seq<Field>)
    ensures |rs| >= 1 && rs[0] == Field(Account, Login(e.sender), true)
  {
    var r := [Field(Account, Login(e.sender), true)];
    match e.refType
    case "branch" => r + [Field(Action, "ブランチが削除されました", true)] + [Field("ブランチ名", e.ref, false)] + [Field(Link, e.repoUrl, false)]
    case "tag" => r + [Field(Action, "タグが削除されました", true)] + [Field("タグ名", e.ref, false)] + [Field(Link, e.repoUrl, false)]
    case _ => r
  }

  function IssueCommentRequests(e: IssueCommentEvent): (rs: seq<Field>)
    ensures |rs| >= 1 && rs[0] == Field(Account, Login(e.sender), true)
  {
    var r := [Field(Account, Login(e.sender), true)];
    match e.action
    case "created" => r + [Field(Action, "コメントされました", true)] + [Field("コメント", CommentBody(e.comment), false)] + [Field(Link, CommentUrl(e.comment), false)]
    case "edited" =>
      var r := r + [Field(Action, "コメントが変更されました", true)];
      var r := if e.changes.body.Some? then r + [Field("コメント(変更前)", e.changes.body.value, false)] + [Field("コメント(変更後)", CommentBody(e.comment), false)] else r;
      r + [Field(Link, CommentUrl(e.comment), false)]
    case "deleted" => r + [Field(Action, "コメントが削除されました", true)] + [Field("コメント", CommentBody(e.comment), false)] + [Field(Link, CommentUrl(e.comment), false)]
    case _ => r + [Field(Action, "IssueCommentEvent (" + e.action + ")", false)]
  }

  function IssuesRequests(e: IssuesEvent): (rs: seq<Field>)
    ensures |rs| >= 1 && rs[0] == Field(Account, Login(e.sender), true)
  {
    var r := [Field(Account, Login(e.sender), true)];
    match e.action
    case "opened" => r + [Field(Action, "Issue がオープンされました", true)] + [Field("タイトル", ItemTitle(e.issue), false)] + [Field("内容", ItemBody(e.issue), false)] + [Field(Link, ItemUrl(e.issue), false)]
    case "edited" =>
      var r := r + [Field(Action, "Issue が編集されました", true)];
      var r := if e.changes.title.Some? then r + [Field("タイトル(変更前)", e.changes.title.value, false)] + [Field("タイトル(変更後)", ItemTitle(e.issue), false)] else r;
      var r := if e.changes.body.Some? then r + [Field("内容(変更前)", e.changes.body.value, false)] + [Field("内容(変更後)", ItemBody(e.issue), false)] else r;
      r + [Field(Link, ItemUrl(e.issue), false)]
    case "deleted" => r + [Field(Action, "Issue が削除されました", true)] + [Field("タイトル", ItemTitle(e.issue), false)] + [Field(Link, ItemUrl(e.issue), false)]
    case "closed" => r + [Field(Action, "Issue がクローズされました", true)] + [Field("タイトル", ItemTitle(e.issue), false)] + [Field(Link, ItemUrl(e.issue), false)]
    case "reopened" => r + [Field(Action, "Issue が再オープンされました", true)] + [Field("タイトル", ItemTitle(e.issue), false)] + [Field("内容", ItemBody(e.issue), false)] + [Field(Link, ItemUrl(e.issue), false)]
    case "assigned" => r + [Field(Action, "Issue にアサインされました", true)] + [Field("対象者", e.assignee, false)] + [Field(Link, ItemUrl(e.issue), false)]
    case "unassigned" => r + [Field(Action, "Issue にアンアサインされました", true)] + [Field("対象者", e.assignee, false)] + [Field(Link, ItemUrl(e.issue), false)]
    case "labeled" => r + [Field(Action, "Issue にラベルが付与されました", true)] + [Field("ラベル", e.labelName, false)] + [Field(Link, ItemUrl(e.issue), false)]
    case "unlabeled" => r + [Field(Action, "Issue のラベルが外されました", true)] + [Field("ラベル", e.labelName, false)] + [Field(Link, ItemUrl(e.issue), false)]
    case "locked" => r + [Field(Action, "Issue がロックされました", true)] + [Field(Link, ItemUrl(e.issue), false)]
    case "unlocked" => r + [Field(Action, "Issue のロックが解除されました", true)] + [Field(Link, ItemUrl(e.issue), false)]
    case "pinned" => r + [Field(Action, "Issue がピン留めされました", true)] + [Field(Link, ItemUrl(e.issue), false)]
    case "unpinned" => r + [Field(Action, "Issue のピン留めが解除されました", true)] + [Field(Link, ItemUrl(e.issue), false)]
    case "transferred" => r + [Field(Action, "Issue が譲渡されました", true)] + [Field("リンク(譲渡前)", ItemUrl(e.issue), false)]
    case "milestoned" => r + [Field(Action, "マイルストーンが設定されました", true)] + [Field("マイルストーン", ItemMilestone(e.issue), false)] + [Field(Link, ItemUrl(e.issue), false)]
    case "demilestoned" => r + [Field(Action, "マイルストーンが解除されました", true)] + [Field(Link, ItemUrl(e.issue), false)]
    case _ => r + [Field(Action, "IssuesEvent (" + e.action + ")", false)]
  }

  function PullRequestRequests(e: PullRequestEvent): (rs: seq<Field>)
    ensures |rs| >= 1 && rs[0] == Field(Account, Login(e.sender), true)
  {
    var r := [Field(Account, Login(e.sender), true)];
    match e.action
    case "opened" => r + [Field(Action, "PR がオープンされました", true)] + [Field("タイトル", ItemTitle(e.pullRequest), false)] + [Field("内容", ItemBody(e.pullRequest), false)] + [Field(Link, ItemUrl(e.pullRequest), false)]
    case "edited" =>
      var r := r + [Field(Action, "PR が編集されました", true)];
      var r := if e.changes.title.Some? then r + [Field("タイトル(変更前)", e.changes.title.value, false)] + [Field("タイトル(変更後)", ItemTitle(e.pullRequest), false)] else r;
      var r := if e.changes.body.Some? then r + [Field("内容(変更前)", e.changes.body.value, false)] + [Field("内容(変更後)", ItemBody(e.pullRequest), false)] else r;
      r + [Field(Link, ItemUrl(e.pullRequest), false)]
    case "closed" => r + [Field(Action, "PR がクローズされました", true)] + [Field("タイトル", ItemTitle(e.pullRequest), false)] + [Field(Link, ItemUrl(e.pullRequest), false)]
    case "reopened" => r + [Field(Action, "PR が再オープンされました", true)] + [Field("タイトル", ItemTitle(e.pullRequest), false)] + [Field("内容", ItemBody(e.pullRequest), false)] + [Field(Link, ItemUrl(e.pullRequest), false)]
    case "assigned" => r + [Field(Action, "PR にアサインされました", true)] + [Field("対象者", e.assignee, false)] + [Field(Link, ItemUrl(e.pullRequest), false)]
    case "unassigned" => r + [Field(Action, "PR にアンアサインされました", true)] + [Field("対象者", e.assignee, false)] + [Field(Link, ItemUrl(e.pullRequest), false)]
    case "review_requested" => r + [Field(Action, "PR のレビューをお願いされました", true)] + [Field("対象者", e.reviewer, false)] + [Field(Link, ItemUrl(e.pullRequest), false)]
    case "review_request_removed" => r + [Field(Action, "PR のレビュー要求が取下げされました", true)] + [Field("対象者", e.reviewer, false)] + [Field(Link, ItemUrl(e.pullRequest), false)]
    case "ready_for_review" => r + [Field(Action, "PR の準備が整いました", true)] + [Field(Link, ItemUrl(e.pullRequest), false)]
    case "labeled" => r + [Field(Action, "PR にラベルが付与されました", true)] + [Field("ラベル", e.labelName, false)] + [Field(Link, ItemUrl(e.pullRequest), false)]
    case "unlabeled" => r + [Field(Action, "PR のラベルが外されました", true)] + [Field("ラベル", e.labelName, false)] + [Field(Link, ItemUrl(e.pullRequest), false)]
    case "locked" => r + [Field(Action, "PR がロックされました", true)] + [Field(Link, ItemUrl(e.pullRequest), false)]
    case "unlocked" => r + [Field(Action, "PR のロックが解除されました", true)] + [Field(Link, ItemUrl(e.pullRequest), false)]
    case "synchronize" => r + [Field(Action, "PullRequestEvent synchronize", false)]
    case _ => r + [Field(Action, "PullRequestEvent (" + e.action + ")", false)]
  }

  function PullRequestReviewRequests(e: PullRequestReviewEvent): (rs: seq<Field>)
    ensures |rs| >= 1 && rs[0] == Field(Account, Login(e.sender), true)
  {
    var r := [Field(Account, Login(e.sender), true)];
    match e.action
    case "submitted" => r + [Field(Action, "PR のレビューがされました", true)] + [Field("タイトル", ItemTitle(e.pullRequest), false)] + [Field("内容", e.review.body, false)] + [Field(Link, e.review.htmlUrl, false)]
    case _ => r + [Field(Action, "PullRequestReviewEvent (" + e.action + ")", false)]
  }

  function PullRequestReviewCommentRequests(e: PullRequestReviewCommentEvent): (rs: seq<Field>)
    ensures |rs| >= 1 && rs[0] == Field(Account, Login(e.sender), true)
  {
    var r := [Field(Account, Login(e.sender), true)];
    match e.action
    case "created" => r + [Field(Action, "PR にコメントされました", true)] + [Field("コメント", CommentBody(e.comment), false)] + [Field(Link, CommentUrl(e.comment), false)]
    case "edited" =>
      var r := r + [Field(Action, "PR のコメントが変更されました", true)];
      var r := if e.changes.body.Some? then r + [Field("コメント(変更前)", e.changes.body.value, false)] + [Field("コメント(変更後)", CommentBody(e.comment), false)] else r;
      r + [Field(Link, CommentUrl(e.comment), false)]
    case "deleted" => r + [Field(Action, "PR のコメントが削除されました", true)] + [Field("コメント", CommentBody(e.comment), false)] + [Field(Link, CommentUrl(e.comment), false)]
    case _ => r + [Field(Action, "PullRequestReviewCommentEvent (" + e.action + ")", false)]
  }

  function PullRequestTargetRequests(e: PullRequestEvent): (rs: seq<Field>)
    ensures |rs| >= 1 && rs[0] == Field(Account, Login(e.sender), true)
  {
    var r := [Field(Account, Login(e.sender), true)];
    match e.action
    case "opened" => r + [Field(Action, "PR がオープンされました", true)] + [Field("タイトル", ItemTitle(e.pullRequest), false)] + [Field("内容", ItemBody(e.pullRequest), false)] + [Field(Link, ItemUrl(e.pullRequest), false)]
    case "edited" =>
      var r := r + [Field(Action, "PR が編集されました", true)];
      var r := if e.changes.title.Some? then r + [Field("タイトル(変更前)", e.changes.title.value, false)] + [Field("タイトル(変更後)", ItemTitle(e.pullRequest), false)] else r;
      var r := if e.changes.body.Some? then r + [Field("内容(変更前)", e.changes.body.value, false)] + [Field("内容(変更後)", ItemBody(e.pullRequest), false)] else r;
      r + [Field(Link, ItemUrl(e.pullRequest), false)]
    case "closed" => r + [Field(Action, "PR がクローズされました", true)] + [Field("タイトル", ItemTitle(e.pullRequest), false)] + [Field(Link, ItemUrl(e.pullRequest), false)]
    case "reopened" => r + [Field(Action, "PR が再オープンされました", true)] + [Field("タイトル", ItemTitle(e.pullRequest), false)] + [Field("内容", ItemBody(e.pullRequest), false)] + [Field(Link, ItemUrl(e.pullRequest), false)]
    case "assigned" => r + [Field(Action, "PR にアサインされました", true)] + [Field("対象者", e.assignee, false)] + [Field(Link, ItemUrl(e.pullRequest), false)]
    case "unassigned" => r + [Field(Action, "PR にアンアサインされました", true)] + [Field("対象者", e.assignee, false)] + [Field(Link, ItemUrl(e.pullRequest), false)]
    case "review_requested" => r + [Field(Action, "PR のレビューをお願いされました", true)] + [Field("対象者", e.reviewer, false)] + [Field(Link, ItemUrl(e.pullRequest), false)]
    case "review_request_removed" => r + [Field(Action, "PR のレビュー要求が取下げされました", true)] + [Field("対象者", e.reviewer, false)] + [Field(Link, ItemUrl(e.pullRequest), false)]
    case "ready_for_review" => r + [Field(Action, "PR の準備が整いました", true)] + [Field(Link, ItemUrl(e.pullRequest), false)]
    case "labeled" => r + [Field(Action, "PR にラベルが付与されました", true)] + [Field("ラベル", e.labelName, false)] + [Field(Link, ItemUrl(e.pullRequest), false)]
    case "unlabeled" => r + [Field(Action, "PR のラベルが外されました", true)] + [Field("ラベル", e.labelName, false)] + [Field(Link, ItemUrl(e.pullRequest), false)]
    case "locked" => r + [Field(Action, "PR がロックされました", true)] + [Field(Link, ItemUrl(e.pullRequest), false)]
    case "unlocked" => r + [Field(Action, "PR のロックが解除されました", true)] + [Field(Link, ItemUrl(e.pullRequest), false)]
    case "synchronize" => r + [Field(Action, "PullRequestEvent synchronize", false)]
    case _ => r + [Field(Action, "PullRequestTargetEvent (" + e.action + ")", false)]
  }

  function PushRequests(e: PushEvent): (rs: seq<Field>)
    ensures |rs| >= 1 && rs[0] == Field(Account, Login(e.sender), true)
  {
    var r := [Field(Account, Login(e.sender), true)] + [Field(Action, "プッシュされました", true)]
      + [Field("対象", e.ref, false)];
    var r := if e.commits.Some? then r + [Field("Commit", CommitLines(e.commits.value), false)] else r;
    r + [Field(Link, e.repoUrl, false)]
  }

  /** The requests for a parsed event; None for the event types that no builder
      handles. */
  function Requests(ev: Event): (r: Option<seq<Field>>)
    ensures r.None? <==> ev.Unwatched?
  {
    match ev
    case CommitComment(e) => Some(CommitCommentRequests(e))
    case Create(e) => Some(CreateRequests(e))
    case Delete(e) => Some(DeleteRequests(e))
    case IssueComment(e) => Some(IssueCommentRequests(e))
    case Issues(e) => Some(IssuesRequests(e))
    case PullRequest(e) => Some(PullRequestRequests(e))
    case PullRequestReview(e) => Some(PullRequestReviewRequests(e))
    case PullRequestReviewComment(e) => Some(PullRequestReviewCommentRequests(e))
    case PullRequestTarget(e) => Some(PullRequestTargetRequests(e))
    case Push(e) => Some(PushRequests(e))
    case Unwatched(_) => None
  }

  /** The table Requests picks for each event type, one fact per type, so that
      a caller reasoning about one type need not unfold the others. */
  lemma TableOf(ev: Event)
    ensures ev.CommitComment? ==> Requests(ev) == Some(CommitCommentRequests(ev.commitComment))
    ensures ev.Create? ==> Requests(ev) == Some(CreateRequests(ev.create))
    ensures ev.Delete? ==> Requests(ev) == Some(DeleteRequests(ev.delete))
    ensures ev.IssueComment? ==> Requests(ev) == Some(IssueCommentRequests(ev.issueComment))
    ensures ev.Issues? ==> Requests(ev) == Some(IssuesRequests(ev.issues))
    ensures ev.PullRequest? ==> Requests(ev) == Some(PullRequestRequests(ev.pullRequest))
    ensures ev.PullRequestReview? ==> Requests(ev) == Some(PullRequestReviewRequests(ev.review))
    ensures ev.PullRequestReviewComment? ==> Requests(ev) == Some(PullRequestReviewCommentRequests(ev.reviewComment))
    ensures ev.PullRequestTarget? ==> Requests(ev) == Some(PullRequestTargetRequests(ev.pullRequestTarget))
    ensures ev.Push? ==> Requests(ev) == Some(PushRequests(ev.push))
  {
  }

  function SenderOf(ev: Event): Option<User> {
    match ev
    case CommitComment(e) => e.sender
    case Create(e) => e.sender
    case Delete(e) => e.sender
    case IssueComment(e) => e.sender
    case Issues(e) => e.sender
    case PullRequest(e) => e.sender
    case PullRequestReview(e) => e.sender
    case PullRequestReviewComment(e) => e.sender
    case PullRequestTarget(e) => e.sender
    case Push(e) => e.sender
    case Unwatched(_) => None
  }

  /** The account field every builder requests first. */
  function AccountField(ev: Event): Field {
    Field(Account, Login(SenderOf(ev)), true)
  }

  /** Every table starts with the account field. */
  lemma AccountFirst(ev: Event)
    requires !ev.Unwatched?
    ensures |Requests(ev).value| >= 1 && Requests(ev).value[0] == AccountField(ev)
  {
  }

  /** A list headed by a shown field keeps it at its head. */
  lemma KeptFirst(rs: seq<Field>)
    requires |rs| >= 1 && Shown(rs[0])
    ensures |Filled(rs)| >= 1 && Filled(rs)[0] == rs[0]
  {
    assert rs == [rs[0]] + rs[1..];
    FilledHead(rs[0], rs[1..]);
  }

  /** With the empty-field rule applied, the account field still comes first
      whenever the sender has a login. */
  lemma AccountFirstKept(ev: Event)
    requires !ev.Unwatched? && Login(SenderOf(ev)) != ""
    ensures |Filled(Requests(ev).value)| >= 1
    ensures Filled(Requests(ev).value)[0] == AccountField(ev)
  {
    AccountFirst(ev);
    KeptFirst(Requests(ev).value);
  }

  /** The actions each action-switched table maps to a phrase of its own. */
  const CommitCommentActions := {"created"}
  const IssueCommentActions := {"created", "edited", "deleted"}
  const IssuesActions := {"opened", "edited", "deleted", "closed", "reopened", "assigned",
    "unassigned", "labeled", "unlabeled", "locked", "unlocked", "pinned", "unpinned",
    "transferred", "milestoned", "demilestoned"}
  const PullRequestActions := {"opened", "edited", "closed", "reopened", "assigned", "unassigned",
    "review_requested", "review_request_removed", "ready_for_review", "labeled", "unlabeled",
    "locked", "unlocked", "synchronize"}
  const ReviewActions := {"submitted"}
  const ReviewCommentActions := {"created", "edited", "deleted"}

  /** An unmapped action gives the account field and one unshort field naming
      the event type and the action, and nothing else (no link). */
  lemma UnmappedCommitComment(e: CommitCommentEvent)
    requires e.action !in CommitCommentActions
    ensures CommitCommentRequests(e)
         == [Field(Account, Login(e.sender), true),
             Field(Action, "CommitCommentEvent (" + e.action + ")", false)]
  {
  }

  lemma UnmappedIssueComment(e: IssueCommentEvent)
    requires e.action !in IssueCommentActions
    ensures IssueCommentRequests(e)
         == [Field(Account, Login(e.sender), true),
             Field(Action, "IssueCommentEvent (" + e.action + ")", false)]
  {
  }

  lemma UnmappedIssues(e: IssuesEvent)
    requires e.action !in IssuesActions
    ensures IssuesRequests(e)
         == [Field(Account, Login(e.sender), true),
             Field(Action, "IssuesEvent (" + e.action + ")", false)]
  {
  }

  lemma UnmappedPullRequest(e: PullRequestEvent)
    requires e.action !in PullRequestActions
    ensures PullRequestRequests(e)
         == [Field(Account, Login(e.sender), true),
             Field(Action, "PullRequestEvent (" + e.action + ")", false)]
    ensures PullRequestTargetRequests(e)
         == [Field(Account, Login(e.sender), true),
             Field(Action, "PullRequestTargetEvent (" + e.action + ")", false)]
  {
  }

  lemma UnmappedReview(e: PullRequestReviewEvent)
    requires e.action !in ReviewActions
    ensures PullRequestReviewRequests(e)
         == [Field(Account, Login(e.sender), true),
             Field(Action, "PullRequestReviewEvent (" + e.action + ")", false)]
  {
  }

  lemma UnmappedReviewComment(e: PullRequestReviewCommentEvent)
    requires e.action !in ReviewCommentActions
    ensures PullRequestReviewCommentRequests(e)
         == [Field(Account, Login(e.sender), true),
             Field(Action, "PullRequestReviewCommentEvent (" + e.action + ")", false)]
  {
  }

  /** A ref_type other than branch or tag gives the account field alone. */
  lemma UnknownRefType(e: RefEvent)
    requires e.refType != "branch" && e.refType != "tag"
    ensures CreateRequests(e) == [Field(Account, Login(e.sender), true)]
    ensures DeleteRequests(e) == [Field(Account, Login(e.sender), true)]
  {
  }

  /** "synchronize" gives one unshort field naming it, and no link. */
  lemma Synchronize(e: PullRequestEvent)
    requires e.action == "synchronize"
    ensures PullRequestRequests(e)
         == [Field(Account, Login(e.sender), true),
             Field(Action, "PullRequestEvent synchronize", false)]
  {
  }

  /** The pull_request_target table repeats the pull_request table: the lists
      are equal for every mapped action, "synchronize" included, and otherwise
      differ only in the event name of the fallback field. */
  lemma TargetMirrorsPullRequest(e: PullRequestEvent)
    ensures e.action in PullRequestActions ==> PullRequestTargetRequests(e) == PullRequestRequests(e)
    ensures e.action !in PullRequestActions ==>
      PullRequestTargetRequests(e)
        == PullRequestRequests(e)[1 := Field(Action, "PullRequestTargetEvent (" + e.action + ")", false)]
  {
    if e.action !in PullRequestActions {
      UnmappedPullRequest(e);
    }
  }

  /** The fields of an "edited" issue or pull request: the action, then the
      (before, after) title pair when the title changed, then the (before,
      after) body pair when the body changed, and the link last. */
  predicate EditedShape(rs: seq<Field>, phrase: string, changes: Changes, item: Option<Item>) {
    var titles := if changes.title.Some? then 2 else 0;
    var bodies := if changes.body.Some? then 2 else 0;
    |rs| == 3 + titles + bodies
    && rs[1] == Field(Action, phrase, true)
    && (changes.title.Some? ==>
          rs[2] == Field("タイトル(変更前)", changes.title.value, false)
          && rs[3] == Field("タイトル(変更後)", ItemTitle(item), false))
    && (changes.body.Some? ==>
          rs[2 + titles] == Field("内容(変更前)", changes.body.value, false)
          && rs[3 + titles] == Field("内容(変更後)", ItemBody(item), false))
    && rs[|rs| - 1] == Field(Link, ItemUrl(item), false)
  }

  lemma EditedIssue(e: IssuesEvent)
    requires e.action == "edited"
    ensures EditedShape(IssuesRequests(e), "Issue が編集されました", e.changes, e.issue)
  {
  }

  lemma EditedPullRequest(e: PullRequestEvent)
    requires e.action == "edited"
    ensures EditedShape(PullRequestRequests(e), "PR が編集されました", e.changes, e.pullRequest)
    ensures EditedShape(PullRequestTargetRequests(e), "PR が編集されました", e.changes, e.pullRequest)
  {
  }

  /** An edited comment: the (before, after) pair only when the body changed,
      then the link. */
  predicate EditedCommentShape(rs: seq<Field>, phrase: string, changes: Changes,
                               comment: Option<Comment>) {
    var bodies := if changes.body.Some? then 2 else 0;
    |rs| == 3 + bodies
    && rs[1] == Field(Action, phrase, true)
    && (changes.body.Some? ==>
          rs[2] == Field("コメント(変更前)", changes.body.value, false)
          && rs[3] == Field("コメント(変更後)", CommentBody(comment), false))
    && rs[|rs| - 1] == Field(Link, CommentUrl(comment), false)
  }

  lemma EditedIssueComment(e: IssueCommentEvent)
    requires e.action == "edited"
    ensures EditedCommentShape(IssueCommentRequests(e), "コメントが変更されました", e.changes, e.comment)
  {
  }

  lemma EditedReviewComment(e: PullRequestReviewCommentEvent)
    requires e.action == "edited"
    ensures EditedCommentShape(PullRequestReviewCommentRequests(e), "PR のコメントが変更されました",
                               e.changes, e.comment)
  {
  }

  /** The summary of two runs of commits is the two summaries one after the
      other. */
  lemma {:induction false} CommitLinesAppend(a: seq<Commit>, b: seq<Commit>)
    ensures CommitLines(a + b) == CommitLines(a) + CommitLines(b)
    decreases |b|
  {
    if b == [] {
      assert a + b == a;
    } else {
      assert (a + b)[..|a + b| - 1] == a + b[..|b| - 1];
      CommitLinesAppend(a, b[..|b| - 1]);
    }
  }

  /** The summary is empty exactly when there are no commits. */
  lemma CommitLinesEmpty(cs: seq<Commit>)
    ensures CommitLines(cs) == "" <==> cs == []
  {
    if cs != [] {
      assert |CommitLine(cs[|cs| - 1])| > 0;
    }
  }

  /** The summary of one commit is its line. */
  lemma CommitLinesSingle(c: Commit)
    ensures CommitLines([c]) == CommitLine(c)
  {
    assert [c][..0] == [];
  }

  /** In the current revision the Commit field is there exactly when the push
      carries a non-empty commit list, and its value is the commits' summary. */
  lemma PushCommitKept(e: PushEvent)
    ensures (exists f :: f in Filled(PushRequests(e)) && f.title == "Commit")
        <==> e.commits.Some? && e.commits.value != []
    ensures forall f :: f in Filled(PushRequests(e)) && f.title == "Commit" ==>
        e.commits.Some? && f == Field("Commit", CommitLines(e.commits.value), false)
  {
    var rs := PushRequests(e);
    forall f | f in rs && f.title == "Commit"
      ensures e.commits.Some? && f == Field("Commit", CommitLines(e.commits.value), false)
    {
    }
    if e.commits.Some? && e.commits.value != [] {
      var f := Field("Commit", CommitLines(e.commits.value), false);
      CommitLinesEmpty(e.commits.value);
      FilledMembers(rs, f);
    }
    forall f | f in Filled(rs) && f.title == "Commit"
      ensures e.commits.Some? && e.commits.value != []
      ensures f == Field("Commit", CommitLines(e.commits.value), false)
    {
      FilledMembers(rs, f);
      CommitLinesEmpty(e.commits.value);
    }
  }

  /** Without the empty-field rule the Commit field is there exactly when the
      push carries a commit list, empty or not. */
  lemma PushCommitRequested(e: PushEvent)
    ensures (exists f :: f in PushRequests(e) && f.title == "Commit") <==> e.commits.Some?
  {
    if e.commits.Some? {
      assert PushRequests(e)[3].title == "Commit";
    }
  }
}
