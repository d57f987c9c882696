/** The parsed webhook events, reduced to the attributes the classifiers and
    field tables read. Attributes read only through go-github's nil-safe
    getters are plain strings, with "" standing for an absent value; the few
    the older classifier reads as raw pointers keep their Option. */
module GitHubEvents {
  import opened Wrappers

  /** A commit id, taken to be ASCII (a hex SHA), so that its first seven
      characters are its first seven bytes; slicing seven bytes panics on a
      shorter id, so the model only admits ids of at least that length. */
  type Sha = s: string | |s| >= 7 witness "0000000"

  /** The sender object and its login pointer. */
  datatype User = User(login: Option<string>)

  datatype Commit = Commit(id: Sha, url: string, message: string)

  /** A comment on a commit, an issue or a pull request. */
  datatype Comment = Comment(body: Option<string>, htmlUrl: string, commitId: string)

  /** An issue, or the pull request an event is about. `url` is the API
      address; `milestone` is the milestone's title. */
  datatype Item = Item(title: string, body: string, htmlUrl: string, url: Option<string>,
                       milestone: string)

  /** The "changes" object of an "edited" action: Some(from) when the title or
      the body was changed, holding its previous text. */
  datatype Changes = Changes(title: Option<string>, body: Option<string>)

  datatype Review = Review(body: string, htmlUrl: string)

  datatype CommitCommentEvent = CommitCommentEvent(
    action: string, sender: Option<User>, comment: Option<Comment>)

  /** A create or a delete event: both carry the same attributes. */
  datatype RefEvent = RefEvent(
    refType: string, ref: string, sender: Option<User>, repoUrl: string)

  datatype IssueCommentEvent = IssueCommentEvent(
    action: string, sender: Option<User>, comment: Option<Comment>, changes: Changes,
    issue: Option<Item>)

  datatype IssuesEvent = IssuesEvent(
    action: string, sender: Option<User>, issue: Option<Item>, changes: Changes,
    assignee: string, labelName: string)

  /** A pull_request or a pull_request_target event: both carry the same
      attributes. */
  datatype PullRequestEvent = PullRequestEvent(
    action: string, sender: Option<User>, pullRequest: Option<Item>, changes: Changes,
    assignee: string, reviewer: string, labelName: string)

  datatype PullRequestReviewEvent = PullRequestReviewEvent(
    action: string, sender: Option<User>, pullRequest: Option<Item>, review: Review)

  datatype PullRequestReviewCommentEvent = PullRequestReviewCommentEvent(
    action: string, sender: Option<User>, pullRequest: Option<Item>, comment: Option<Comment>,
    changes: Changes)

  /** `commits` is None for a payload without a commit list. */
  datatype PushEvent = PushEvent(
    ref: string, sender: Option<User>, commits: Option<seq<Commit>>, repoUrl: string)

  /** What the webhook parser hands back: one of the ten watched event types,
      or any other event type it knows, by name. */
  datatype Event =
    | CommitComment(commitComment: CommitCommentEvent)
    | Create(create: RefEvent)
    | Delete(delete: RefEvent)
    | IssueComment(issueComment: IssueCommentEvent)
    | Issues(issues: IssuesEvent)
    | PullRequest(pullRequest: PullRequestEvent)
    | PullRequestReview(review: PullRequestReviewEvent)
    | PullRequestReviewComment(reviewComment: PullRequestReviewCommentEvent)
    | PullRequestTarget(pullRequestTarget: PullRequestEvent)
    | Push(push: PushEvent)
    | Unwatched(name: string)

  /** How a classifier's look-up ends: a parsed event, a returned error, or a
      run-time panic (a failed type assertion or a nil dereference). */
  datatype Classification = Parsed(event: Event) | Rejected(error: string) | Crashed

  /** How a method that returns only an error ends: nil, an error, or a panic. */
  datatype Status = Done | Failed(error: string) | Panicked

  /** What a failed look-up makes of a method's error result. */
  function StatusOf(c: Classification): (s: Status)
    ensures s.Done? <==> c.Parsed?
    ensures c.Rejected? ==> s == Failed(c.error)
    ensures c.Crashed? ==> s == Panicked
  {
    match c
    case Parsed(_) => Done
    case Rejected(e) => Failed(e)
    case Crashed => Panicked
  }

  /** The webhook parser: the event type named by the header and the body give
      an event or the parser's error text. */
  type Parser = (string, string) -> Result<Event, string>

  /** GetSender().GetLogin(). */
  function Login(sender: Option<User>): string {
    match sender
    case None => ""
    case Some(u) => u.login.GetOr("")
  }

  /** The nil-safe getters of a comment. */
  function CommentBody(c: Option<Comment>): string {
    match c
    case None => ""
    case Some(c) => c.body.GetOr("")
  }

  function CommentUrl(c: Option<Comment>): string {
    match c
    case None => ""
    case Some(c) => c.htmlUrl
  }

  function CommentCommitId(c: Option<Comment>): string {
    match c
    case None => ""
    case Some(c) => c.commitId
  }

  /** The nil-safe getters of an issue or a pull request. */
  function ItemTitle(i: Option<Item>): string {
    match i
    case None => ""
    case Some(i) => i.title
  }

  function ItemBody(i: Option<Item>): string {
    match i
    case None => ""
    case Some(i) => i.body
  }

  function ItemUrl(i: Option<Item>): string {
    match i
    case None => ""
    case Some(i) => i.htmlUrl
  }

  function ItemMilestone(i: Option<Item>): string {
    match i
    case None => ""
    case Some(i) => i.milestone
  }
}
