/** The current classifier: it checks the shape of the headers and the body,
    finds the event type under either spelling of the event header, keeps the
    parsed event, and turns it into a notification document through the field
    tables and the attachment builder. */
module IncomeMessage {
  import opened Wrappers
  import opened Wire
  import opened GitHubEvents
  import opened AttachmentBuilder
  import opened FieldTables

  const EventHeader := "x-github-event"
  const EventHeaderCap := "X-GitHub-Event"
  const MissingHeader := "missing x-github-event header"

  /** An argument passed as interface{}: a map[string]string, a *string (which
      may be nil), or a value of any other type. */
  datatype Arg = StringMap(entries: map<string, string>) | StringPointer(text: Option<string>) | OtherValue

  /** The event type: the lower-case header key wins, the capitalised one is the
      fallback, and without either the look-up fails. */
  function ExtractGitHubEvent(headers: map<string, string>): (r: Result<string, string>)
    ensures EventHeader in headers ==> r == Success(headers[EventHeader])
    ensures EventHeader !in headers && EventHeaderCap in headers ==> r == Success(headers[EventHeaderCap])
    ensures r.Failure? <==> EventHeader !in headers && EventHeaderCap !in headers
    ensures r.Failure? ==> r.error == MissingHeader
  {
    if EventHeader in headers then Success(headers[EventHeader])
    else if EventHeaderCap in headers then Success(headers[EventHeaderCap])
    else Failure(MissingHeader)
  }

  /** toGitHubEvent: the event type from the headers, then the parser on the
      body, which is dereferenced first. */
  function ToGitHubEvent(headers: map<string, string>, body: Option<string>, parse: Parser): (r: Classification)
    ensures ExtractGitHubEvent(headers).Failure? ==> r == Rejected(MissingHeader)
    ensures ExtractGitHubEvent(headers).Success? && body.None? ==> r == Crashed
    ensures r.Parsed? <==>
      ExtractGitHubEvent(headers).Success? && body.Some?
      && parse(ExtractGitHubEvent(headers).value, body.value).Success?
    ensures r.Parsed? ==> r.event == parse(ExtractGitHubEvent(headers).value, body.value).value
  {
    match ExtractGitHubEvent(headers)
    case Failure(e) => Rejected(e)
    case Success(eventType) =>
      match body
      case None => Crashed
      case Some(text) =>
        match parse(eventType, text)
        case Failure(e) => Rejected(e)
        case Success(ev) => Parsed(ev)
  }

  /** Everything Init checks, in its order: the header map, the body pointer,
      then the look-up. */
  function Classify(headers: Arg, body: Arg, parse: Parser): (r: Classification)
    ensures !headers.StringMap? ==> r == Rejected("invalid headers")
    ensures headers.StringMap? && !body.StringPointer? ==> r == Rejected("invalid body")
    ensures headers.StringMap? && body.StringPointer? ==> r == ToGitHubEvent(headers.entries, body.text, parse)
  {
    if !headers.StringMap? then Rejected("invalid headers")
    else if !body.StringPointer? then Rejected("invalid body")
    else ToGitHubEvent(headers.entries, body.text, parse)
  }

  /** The document of a table's requests: the fixed constants and the kept
      fields; none without a table. */
  function DocumentOf(requests: Option<seq<Field>>): (buf: Option<string>)
    ensures buf.Some? <==> requests.Some?
  {
    match requests
    case None => None
    case Some(rs) => Some(PayloadJson(Document(Filled(rs))))
  }

  /** The document ToPayload produces for the stored event: none for a message
      without an event or with an event type no builder handles. */
  function PayloadOf(event: Option<Event>): (buf: Option<string>)
    ensures buf.Some? <==> event.Some? && !event.value.Unwatched?
  {
    match event
    case None => None
    case Some(ev) => DocumentOf(Requests(ev))
  }

  /** A table's document reads back as the fixed constants and its kept
      fields. */
  lemma DocumentOfReadsBack(rs: seq<Field>)
    ensures ReadPayload(DocumentOf(Some(rs)).value) == Some(Document(Filled(rs)))
  {
    DocumentRoundTrip(Filled(rs));
  }

  /** The canned smoke-test fields. */
  const DummyRequests := [Field(Account, "bot", true), Field(Action, "debug", true), Field("内容", "ok", false)]

  lemma DummyKept()
    ensures Filled(DummyRequests) == DummyRequests
  {
    FilledAllShown(DummyRequests);
  }

  /** The smoke-test document: all three dummy fields are kept. */
  const DummyDocument := Some(PayloadJson(Document(DummyRequests)))

  /** A webhook message; `event` is nil until Init succeeds. */
  class GitHubMessage {
    var event: Option<Event>

    constructor ()
      ensures event == None
    {
      event := None;
    }

    /** Checks the arguments and stores the parsed event; on any failure the
        stored event stays as it was. */
    method Init(headers: Arg, body: Arg, parse: Parser) returns (status: Status)
      modifies this
      ensures status == StatusOf(Classify(headers, body, parse))
      ensures Classify(headers, body, parse).Parsed? ==> event == Some(Classify(headers, body, parse).event)
      ensures !Classify(headers, body, parse).Parsed? ==> event == old(event)
    {
      if !headers.StringMap? {
        return Failed("invalid headers");
      }
      if !body.StringPointer? {
        return Failed("invalid body");
      }
      var c := ToGitHubEvent(headers.entries, body.text, parse);
      match c {
        case Rejected(e) =>
          return Failed(e);
        case Crashed =>
          return Panicked;
        case Parsed(ev) =>
          event := Some(ev);
          return Done;
      }
    }

    /** The document for the stored event; never an error. */
    method ToPayload() returns (buf: Option<string>, err: Option<string>)
      ensures buf == PayloadOf(event)
      ensures err == None
    {
      if event.Some? {
        TableOf(event.value);
      }
      match event {
        case Some(CommitComment(e)) => buf, err := BuildCommitCommentEvent(e);
        case Some(Create(e)) => buf, err := BuildCreateEvent(e);
        case Some(Delete(e)) => buf, err := BuildDeleteEvent(e);
        case Some(IssueComment(e)) => buf, err := BuildIssueCommentEvent(e);
        case Some(Issues(e)) => buf, err := BuildIssuesEvent(e);
        case Some(PullRequest(e)) => buf, err := BuildPullRequestEvent(e);
        case Some(PullRequestReview(e)) => buf, err := BuildPullRequestReviewEvent(e);
        case Some(PullRequestReviewComment(e)) => buf, err := BuildPullRequestReviewCommentEvent(e);
        case Some(PullRequestTarget(e)) => buf, err := BuildPullRequestTargetEvent(e);
        case Some(Push(e)) => buf, err := BuildPushEvent(e);
        case _ => buf, err := None, None;
      }
    }

    /** The canned smoke-test document. */
    method ToDummyPayload() returns (buf: Option<string>, err: Option<string>)
      ensures buf == DummyDocument
      ensures err == None
    {
      var a := new Attachment();
      a.InsertField(Account, "bot", [true]);
      a.InsertField(Action, "debug", [true]);
      a.InsertField("内容", "ok", []);
      assert a.requested == DummyRequests;
      DummyKept();
      assert a.Snapshot() == Document(DummyRequests);
      buf, err := a.Build();
    }
  }

  /** The InsertField calls of buildCommitCommentEvent, in order. */
  method InsertCommitCommentFields(a: Attachment, e: CommitCommentEvent)
    requires a.Valid() && a.requested == []
    modifies a
    ensures a.Valid() && a.requested == CommitCommentRequests(e)
    ensures a.color == old(a.color) && a.fallback == old(a.fallback)
    ensures a.titleLink == old(a.titleLink) && a.title == old(a.title)
  {
    a.InsertField(Account, Login(e.sender), [true]);
    match e.action {
      case "created" =>
        a.InsertField(Action, "コメントされました", [true]);
        a.InsertField("コメント", CommentBody(e.comment), []);
        a.InsertField("CommitID", CommentCommitId(e.comment), []);
        a.InsertField(Link, CommentUrl(e.comment), []);
      case _ =>
        a.InsertField(Action, "CommitCommentEvent (" + e.action + ")", []);
    }
  }

  method BuildCommitCommentEvent(e: CommitCommentEvent) returns (buf: Option<string>, err: Option<string>)
    ensures buf == DocumentOf(Some(CommitCommentRequests(e)))
    ensures err == None
  {
    var a := new Attachment();
    InsertCommitCommentFields(a, e);
    assert a.Snapshot() == Document(Filled(CommitCommentRequests(e)));
    buf, err := a.Build();
  }

  /** The InsertField calls of buildCreateEvent, in order. */
  method InsertCreateFields(a: Attachment, e: RefEvent)
    requires a.Valid() && a.requested == []
    modifies a
    ensures a.Valid() && a.requested == CreateRequests(e)
    ensures a.color == old(a.color) && a.fallback == old(a.fallback)
    ensures a.titleLink == old(a.titleLink) && a.title == old(a.title)
  {
    a.InsertField(Account, Login(e.sender), [true]);
    match e.refType {
      case "branch" =>
        a.InsertField(Action, "ブランチが作成されました", [true]);
        a.InsertField("ブランチ名", e.ref, []);
        a.InsertField(Link, e.repoUrl, []);
      case "tag" =>
        a.InsertField(Action, "タグが作成されました", [true]);
        a.InsertField("タグ名", e.ref, []);
        a.InsertField(Link, e.repoUrl, []);
      case _ =>
    }
  }

  method BuildCreateEvent(e: RefEvent) returns (buf: Option<string>, err: Option<string>)
    ensures buf == DocumentOf(Some(CreateRequests(e)))
    ensures err == None
  {
    var a := new Attachment();
    InsertCreateFields(a, e);
    assert a.Snapshot() == Document(Filled(CreateRequests(e)));
    buf, err := a.Build();
  }

  /** The InsertField calls of buildDeleteEvent, in order. */
  method InsertDeleteFields(a: Attachment, e: RefEvent)
    requires a.Valid() && a.requested == []
    modifies a
    ensures a.Valid() && a.requested == DeleteRequests(e)
    ensures a.color == old(a.color) && a.fallback == old(a.fallback)
    ensures a.titleLink == old(a.titleLink) && a.title == old(a.title)
  {
    a.InsertField(Account, Login(e.sender), [true]);
    match e.refType {
      case "branch" =>
        a.InsertField(Action, "ブランチが削除されました", [true]);
        a.InsertField("ブランチ名", e.ref, []);
        a.InsertField(Link, e.repoUrl, []);
      case "tag" =>
        a.InsertField(Action, "タグが削除されました", [true]);
        a.InsertField("タグ名", e.ref, []);
        a.InsertField(Link, e.repoUrl, []);
      case _ =>
    }
  }

  method BuildDeleteEvent(e: RefEvent) returns (buf: Option<string>, err: Option<string>)
    ensures buf == DocumentOf(Some(DeleteRequests(e)))
    ensures err == None
  {
    var a := new Attachment();
    InsertDeleteFields(a, e);
    assert a.Snapshot() == Document(Filled(DeleteRequests(e)));
    buf, err := a.Build();
  }

  /** The InsertField calls of buildIssueCommentEvent, in order. */
  method InsertIssueCommentFields(a: Attachment, e: IssueCommentEvent)
    requires a.Valid() && a.requested == []
    modifies a
    ensures a.Valid() && a.requested == IssueCommentRequests(e)
    ensures a.color == old(a.color) && a.fallback == old(a.fallback)
    ensures a.titleLink == old(a.titleLink) && a.title == old(a.title)
  {
    a.InsertField(Account, Login(e.sender), [true]);
    match e.action {
      case "created" =>
        a.InsertField(Action, "コメントされました", [true]);
        a.InsertField("コメント", CommentBody(e.comment), []);
        a.InsertField(Link, CommentUrl(e.comment), []);
      case "edited" =>
        a.InsertField(Action, "コメントが変更されました", [true]);
        if e.changes.body.Some? {
          a.InsertField("コメント(変更前)", e.changes.body.value, []);
          a.InsertField("コメント(変更後)", CommentBody(e.comment), []);
        }
        a.InsertField(Link, CommentUrl(e.comment), []);
      case "deleted" =>
        a.InsertField(Action, "コメントが削除されました", [true]);
        a.InsertField("コメント", CommentBody(e.comment), []);
        a.InsertField(Link, CommentUrl(e.comment), []);
      case _ =>
        a.InsertField(Action, "IssueCommentEvent (" + e.action + ")", []);
    }
  }

  method BuildIssueCommentEvent(e: IssueCommentEvent) returns (buf: Option<string>, err: Option<string>)
    ensures buf == DocumentOf(Some(IssueCommentRequests(e)))
    ensures err == None
  {
    var a := new Attachment();
    InsertIssueCommentFields(a, e);
    assert a.Snapshot() == Document(Filled(IssueCommentRequests(e)));
    buf, err := a.Build();
  }

  /** The InsertField calls of the "opened" case of buildIssuesEvent. */
  method InsertIssuesOpened(a: Attachment, e: IssuesEvent)
    requires a.Valid()
    modifies a
    ensures a.Valid() && a.requested == (old(a.requested) + [Field(Action, "Issue がオープンされました", true)] + [Field("タイトル", ItemTitle(e.issue), false)] + [Field("内容", ItemBody(e.issue), false)] + [Field(Link, ItemUrl(e.issue), false)])
    ensures a.color == old(a.color) && a.fallback == old(a.fallback)
    ensures a.titleLink == old(a.titleLink) && a.title == old(a.title)
  {
    a.InsertField(Action, "Issue がオープンされました", [true]);
    a.InsertField("タイトル", ItemTitle(e.issue), []);
    a.InsertField("内容", ItemBody(e.issue), []);
    a.InsertField(Link, ItemUrl(e.issue), []);
  }

  /** The InsertField calls of the "edited" case of buildIssuesEvent. */
  method InsertIssuesEdited(a: Attachment, e: IssuesEvent)
    requires a.Valid()
    modifies a
    ensures a.Valid() && a.requested == (var r := old(a.requested) + [Field(Action, "Issue が編集されました", true)]; var r := if e.changes.title.Some? then r + [Field("タイトル(変更前)", e.changes.title.value, false)] + [Field("タイトル(変更後)", ItemTitle(e.issue), false)] else r; var r := if e.changes.body.Some? then r + [Field("内容(変更前)", e.changes.body.value, false)] + [Field("内容(変更後)", ItemBody(e.issue), false)] else r; r + [Field(Link, ItemUrl(e.issue), false)])
    ensures a.color == old(a.color) && a.fallback == old(a.fallback)
    ensures a.titleLink == old(a.titleLink) && a.title == old(a.title)
  {
    a.InsertField(Action, "Issue が編集されました", [true]);
    if e.changes.title.Some? {
      a.InsertField("タイトル(変更前)", e.changes.title.value, []);
      a.InsertField("タイトル(変更後)", ItemTitle(e.issue), []);
    }
    if e.changes.body.Some? {
      a.InsertField("内容(変更前)", e.changes.body.value, []);
      a.InsertField("内容(変更後)", ItemBody(e.issue), []);
    }
    a.InsertField(Link, ItemUrl(e.issue), []);
  }

  /** The InsertField calls of the "deleted" case of buildIssuesEvent. */
  method InsertIssuesDeleted(a: Attachment, e: IssuesEvent)
    requires a.Valid()
    modifies a
    ensures a.Valid() && a.requested == (old(a.requested) + [Field(Action, "Issue が削除されました", true)] + [Field("タイトル", ItemTitle(e.issue), false)] + [Field(Link, ItemUrl(e.issue), false)])
    ensures a.color == old(a.color) && a.fallback == old(a.fallback)
    ensures a.titleLink == old(a.titleLink) && a.title == old(a.title)
  {
    a.InsertField(Action, "Issue が削除されました", [true]);
    a.InsertField("タイトル", ItemTitle(e.issue), []);
    a.InsertField(Link, ItemUrl(e.issue), []);
  }

  /** The InsertField calls of the "closed" case of buildIssuesEvent. */
  method InsertIssuesClosed(a: Attachment, e: IssuesEvent)
    requires a.Valid()
    modifies a
    ensures a.Valid() && a.requested == (old(a.requested) + [Field(Action, "Issue がクローズされました", true)] + [Field("タイトル", ItemTitle(e.issue), false)] + [Field(Link, ItemUrl(e.issue), false)])
    ensures a.color == old(a.color) && a.fallback == old(a.fallback)
    ensures a.titleLink == old(a.titleLink) && a.title == old(a.title)
  {
    a.InsertField(Action, "Issue がクローズされました", [true]);
    a.InsertField("タイトル", ItemTitle(e.issue), []);
    a.InsertField(Link, ItemUrl(e.issue), []);
  }

  /** The InsertField calls of the "reopened" case of buildIssuesEvent. */
  method InsertIssuesReopened(a: Attachment, e: IssuesEvent)
    requires a.Valid()
    modifies a
    ensures a.Valid() && a.requested == (old(a.requested) + [Field(Action, "Issue が再オープンされました", true)] + [Field("タイトル", ItemTitle(e.issue), false)] + [Field("内容", ItemBody(e.issue), false)] + [Field(Link, ItemUrl(e.issue), false)])
    ensures a.color == old(a.color) && a.fallback == old(a.fallback)
    ensures a.titleLink == old(a.titleLink) && a.title == old(a.title)
  {
    a.InsertField(Action, "Issue が再オープンされました", [true]);
    a.InsertField("タイトル", ItemTitle(e.issue), []);
    a.InsertField("内容", ItemBody(e.issue), []);
    a.InsertField(Link, ItemUrl(e.issue), []);
  }

  /** The InsertField calls of the "assigned" case of buildIssuesEvent. */
  method InsertIssuesAssigned(a: Attachment, e: IssuesEvent)
    requires a.Valid()
    modifies a
    ensures a.Valid() && a.requested == (old(a.requested) + [Field(Action, "Issue にアサインされました", true)] + [Field("対象者", e.assignee, false)] + [Field(Link, ItemUrl(e.issue), false)])
    ensures a.color == old(a.color) && a.fallback == old(a.fallback)
    ensures a.titleLink == old(a.titleLink) && a.title == old(a.title)
  {
    a.InsertField(Action, "Issue にアサインされました", [true]);
    a.InsertField("対象者", e.assignee, []);
    a.InsertField(Link, ItemUrl(e.issue), []);
  }

  /** The InsertField calls of the "unassigned" case of buildIssuesEvent. */
  method InsertIssuesUnassigned(a: Attachment, e: IssuesEvent)
    requires a.Valid()
    modifies a
    ensures a.Valid() && a.requested == (old(a.requested) + [Field(Action, "Issue にアンアサインされました", true)] + [Field("対象者", e.assignee, false)] + [Field(Link, ItemUrl(e.issue), false)])
    ensures a.color == old(a.color) && a.fallback == old(a.fallback)
    ensures a.titleLink == old(a.titleLink) && a.title == old(a.title)
  {
    a.InsertField(Action, "Issue にアンアサインされました", [true]);
    a.InsertField("対象者", e.assignee, []);
    a.InsertField(Link, ItemUrl(e.issue), []);
  }

  /** The InsertField calls of the "labeled" case of buildIssuesEvent. */
  method InsertIssuesLabeled(a: Attachment, e: IssuesEvent)
    requires a.Valid()
    modifies a
    ensures a.Valid() && a.requested == (old(a.requested) + [Field(Action, "Issue にラベルが付与されました", true)] + [Field("ラベル", e.labelName, false)] + [Field(Link, ItemUrl(e.issue), false)])
    ensures a.color == old(a.color) && a.fallback == old(a.fallback)
    ensures a.titleLink == old(a.titleLink) && a.title == old(a.title)
  {
    a.InsertField(Action, "Issue にラベルが付与されました", [true]);
    a.InsertField("ラベル", e.labelName, []);
    a.InsertField(Link, ItemUrl(e.issue), []);
  }

  /** The InsertField calls of the "unlabeled" case of buildIssuesEvent. */
  method InsertIssuesUnlabeled(a: Attachment, e: IssuesEvent)
    requires a.Valid()
    modifies a
    ensures a.Valid() && a.requested == (old(a.requested) + [Field(Action, "Issue のラベルが外されました", true)] + [Field("ラベル", e.labelName, false)] + [Field(Link, ItemUrl(e.issue), false)])
    ensures a.color == old(a.color) && a.fallback == old(a.fallback)
    ensures a.titleLink == old(a.titleLink) && a.title == old(a.title)
  {
    a.InsertField(Action, "Issue のラベルが外されました", [true]);
    a.InsertField("ラベル", e.labelName, []);
    a.InsertField(Link, ItemUrl(e.issue), []);
  }

  /** The InsertField calls of the "locked" case of buildIssuesEvent. */
  method InsertIssuesLocked(a: Attachment, e: IssuesEvent)
    requires a.Valid()
    modifies a
    ensures a.Valid() && a.requested == (old(a.requested) + [Field(Action, "Issue がロックされました", true)] + [Field(Link, ItemUrl(e.issue), false)])
    ensures a.color == old(a.color) && a.fallback == old(a.fallback)
    ensures a.titleLink == old(a.titleLink) && a.title == old(a.title)
  {
    a.InsertField(Action, "Issue がロックされました", [true]);
    a.InsertField(Link, ItemUrl(e.issue), []);
  }

  /** The InsertField calls of the "unlocked" case of buildIssuesEvent. */
  method InsertIssuesUnlocked(a: Attachment, e: IssuesEvent)
    requires a.Valid()
    modifies a
    ensures a.Valid() && a.requested == (old(a.requested) + [Field(Action, "Issue のロックが解除されました", true)] + [Field(Link, ItemUrl(e.issue), false)])
    ensures a.color == old(a.color) && a.fallback == old(a.fallback)
    ensures a.titleLink == old(a.titleLink) && a.title == old(a.title)
  {
    a.InsertField(Action, "Issue のロックが解除されました", [true]);
    a.InsertField(Link, ItemUrl(e.issue), []);
  }

  /** The InsertField calls of the "pinned" case of buildIssuesEvent. */
  method InsertIssuesPinned(a: Attachment, e: IssuesEvent)
    requires a.Valid()
    modifies a
    ensures a.Valid() && a.requested == (old(a.requested) + [Field(Action, "Issue がピン留めされました", true)] + [Field(Link, ItemUrl(e.issue), false)])
    ensures a.color == old(a.color) && a.fallback == old(a.fallback)
    ensures a.titleLink == old(a.titleLink) && a.title == old(a.title)
  {
    a.InsertField(Action, "Issue がピン留めされました", [true]);
    a.InsertField(Link, ItemUrl(e.issue), []);
  }

  /** The InsertField calls of the "unpinned" case of buildIssuesEvent. */
  method InsertIssuesUnpinned(a: Attachment, e: IssuesEvent)
    requires a.Valid()
    modifies a
    ensures a.Valid() && a.requested == (old(a.requested) + [Field(Action, "Issue のピン留めが解除されました", true)] + [Field(Link, ItemUrl(e.issue), false)])
    ensures a.color == old(a.color) && a.fallback == old(a.fallback)
    ensures a.titleLink == old(a.titleLink) && a.title == old(a.title)
  {
    a.InsertField(Action, "Issue のピン留めが解除されました", [true]);
    a.InsertField(Link, ItemUrl(e.issue), []);
  }

  /** The InsertField calls of the "transferred" case of buildIssuesEvent. */
  method InsertIssuesTransferred(a: Attachment, e: IssuesEvent)
    requires a.Valid()
    modifies a
    ensures a.Valid() && a.requested == (old(a.requested) + [Field(Action, "Issue が譲渡されました", true)] + [Field("リンク(譲渡前)", ItemUrl(e.issue), false)])
    ensures a.color == old(a.color) && a.fallback == old(a.fallback)
    ensures a.titleLink == old(a.titleLink) && a.title == old(a.title)
  {
    a.InsertField(Action, "Issue が譲渡されました", [true]);
    a.InsertField("リンク(譲渡前)", ItemUrl(e.issue), []);
  }

  /** The InsertField calls of the "milestoned" case of buildIssuesEvent. */
  method InsertIssuesMilestoned(a: Attachment, e: IssuesEvent)
    requires a.Valid()
    modifies a
    ensures a.Valid() && a.requested == (old(a.requested) + [Field(Action, "マイルストーンが設定されました", true)] + [Field("マイルストーン", ItemMilestone(e.issue), false)] + [Field(Link, ItemUrl(e.issue), false)])
    ensures a.color == old(a.color) && a.fallback == old(a.fallback)
    ensures a.titleLink == old(a.titleLink) && a.title == old(a.title)
  {
    a.InsertField(Action, "マイルストーンが設定されました", [true]);
    a.InsertField("マイルストーン", ItemMilestone(e.issue), []);
    a.InsertField(Link, ItemUrl(e.issue), []);
  }

  /** The InsertField calls of the "demilestoned" case of buildIssuesEvent. */
  method InsertIssuesDemilestoned(a: Attachment, e: IssuesEvent)
    requires a.Valid()
    modifies a
    ensures a.Valid() && a.requested == (old(a.requested) + [Field(Action, "マイルストーンが解除されました", true)] + [Field(Link, ItemUrl(e.issue), false)])
    ensures a.color == old(a.color) && a.fallback == old(a.fallback)
    ensures a.titleLink == old(a.titleLink) && a.title == old(a.title)
  {
    a.InsertField(Action, "マイルストーンが解除されました", [true]);
    a.InsertField(Link, ItemUrl(e.issue), []);
  }

  /** The InsertField calls of the default case of buildIssuesEvent. */
  method InsertIssuesOther(a: Attachment, e: IssuesEvent)
    requires a.Valid()
    modifies a
    ensures a.Valid() && a.requested == (old(a.requested) + [Field(Action, "IssuesEvent (" + e.action + ")", false)])
    ensures a.color == old(a.color) && a.fallback == old(a.fallback)
    ensures a.titleLink == old(a.titleLink) && a.title == old(a.title)
  {
    a.InsertField(Action, "IssuesEvent (" + e.action + ")", []);
  }

  /** The InsertField calls of buildIssuesEvent, in order. */
  method InsertIssuesFields(a: Attachment, e: IssuesEvent)
    requires a.Valid() && a.requested == []
    modifies a
    ensures a.Valid() && a.requested == IssuesRequests(e)
    ensures a.color == old(a.color) && a.fallback == old(a.fallback)
    ensures a.titleLink == old(a.titleLink) && a.title == old(a.title)
  {
    a.InsertField(Account, Login(e.sender), [true]);
    match e.action {
      case "opened" =>
        InsertIssuesOpened(a, e);
      case "edited" =>
        InsertIssuesEdited(a, e);
      case "deleted" =>
        InsertIssuesDeleted(a, e);
      case "closed" =>
        InsertIssuesClosed(a, e);
      case "reopened" =>
        InsertIssuesReopened(a, e);
      case "assigned" =>
        InsertIssuesAssigned(a, e);
      case "unassigned" =>
        InsertIssuesUnassigned(a, e);
      case "labeled" =>
        InsertIssuesLabeled(a, e);
      case "unlabeled" =>
        InsertIssuesUnlabeled(a, e);
      case "locked" =>
        InsertIssuesLocked(a, e);
      case "unlocked" =>
        InsertIssuesUnlocked(a, e);
      case "pinned" =>
        InsertIssuesPinned(a, e);
      case "unpinned" =>
        InsertIssuesUnpinned(a, e);
      case "transferred" =>
        InsertIssuesTransferred(a, e);
      case "milestoned" =>
        InsertIssuesMilestoned(a, e);
      case "demilestoned" =>
        InsertIssuesDemilestoned(a, e);
      case _ =>
        InsertIssuesOther(a, e);
    }
  }

  method BuildIssuesEvent(e: IssuesEvent) returns (buf: Option<string>, err: Option<string>)
    ensures buf == DocumentOf(Some(IssuesRequests(e)))
    ensures err == None
  {
    var a := new Attachment();
    InsertIssuesFields(a, e);
    assert a.Snapshot() == Document(Filled(IssuesRequests(e)));
    buf, err := a.Build();
  }

  /** The InsertField calls of the "opened" case of buildPullRequestEvent. */
  method InsertPullRequestOpened(a: Attachment, e: PullRequestEvent)
    requires a.Valid()
    modifies a
    ensures a.Valid() && a.requested == (old(a.requested) + [Field(Action, "PR がオープンされました", true)] + [Field("タイトル", ItemTitle(e.pullRequest), false)] + [Field("内容", ItemBody(e.pullRequest), false)] + [Field(Link, ItemUrl(e.pullRequest), false)])
    ensures a.color == old(a.color) && a.fallback == old(a.fallback)
    ensures a.titleLink == old(a.titleLink) && a.title == old(a.title)
  {
    a.InsertField(Action, "PR がオープンされました", [true]);
    a.InsertField("タイトル", ItemTitle(e.pullRequest), []);
    a.InsertField("内容", ItemBody(e.pullRequest), []);
    a.InsertField(Link, ItemUrl(e.pullRequest), []);
  }

  /** The InsertField calls of the "edited" case of buildPullRequestEvent. */
  method InsertPullRequestEdited(a: Attachment, e: PullRequestEvent)
    requires a.Valid()
    modifies a
    ensures a.Valid() && a.requested == (var r := old(a.requested) + [Field(Action, "PR が編集されました", true)]; var r := if e.changes.title.Some? then r + [Field("タイトル(変更前)", e.changes.title.value, false)] + [Field("タイトル(変更後)", ItemTitle(e.pullRequest), false)] else r; var r := if e.changes.body.Some? then r + [Field("内容(変更前)", e.changes.body.value, false)] + [Field("内容(変更後)", ItemBody(e.pullRequest), false)] else r; r + [Field(Link, ItemUrl(e.pullRequest), false)])
    ensures a.color == old(a.color) && a.fallback == old(a.fallback)
    ensures a.titleLink == old(a.titleLink) && a.title == old(a.title)
  {
    a.InsertField(Action, "PR が編集されました", [true]);
    if e.changes.title.Some? {
      a.InsertField("タイトル(変更前)", e.changes.title.value, []);
      a.InsertField("タイトル(変更後)", ItemTitle(e.pullRequest), []);
    }
    if e.changes.body.Some? {
      a.InsertField("内容(変更前)", e.changes.body.value, []);
      a.InsertField("内容(変更後)", ItemBody(e.pullRequest), []);
    }
    a.InsertField(Link, ItemUrl(e.pullRequest), []);
  }

  /** The InsertField calls of the "closed" case of buildPullRequestEvent. */
  method InsertPullRequestClosed(a: Attachment, e: PullRequestEvent)
    requires a.Valid()
    modifies a
    ensures a.Valid() && a.requested == (old(a.requested) + [Field(Action, "PR がクローズされました", true)] + [Field("タイトル", ItemTitle(e.pullRequest), false)] + [Field(Link, ItemUrl(e.pullRequest), false)])
    ensures a.color == old(a.color) && a.fallback == old(a.fallback)
    ensures a.titleLink == old(a.titleLink) && a.title == old(a.title)
  {
    a.InsertField(Action, "PR がクローズされました", [true]);
    a.InsertField("タイトル", ItemTitle(e.pullRequest), []);
    a.InsertField(Link, ItemUrl(e.pullRequest), []);
  }

  /** The InsertField calls of the "reopened" case of buildPullRequestEvent. */
  method InsertPullRequestReopened(a: Attachment, e: PullRequestEvent)
    requires a.Valid()
    modifies a
    ensures a.Valid() && a.requested == (old(a.requested) + [Field(Action, "PR が再オープンされました", true)] + [Field("タイトル", ItemTitle(e.pullRequest), false)] + [Field("内容", ItemBody(e.pullRequest), false)] + [Field(Link, ItemUrl(e.pullRequest), false)])
    ensures a.color == old(a.color) && a.fallback == old(a.fallback)
    ensures a.titleLink == old(a.titleLink) && a.title == old(a.title)
  {
    a.InsertField(Action, "PR が再オープンされました", [true]);
    a.InsertField("タイトル", ItemTitle(e.pullRequest), []);
    a.InsertField("内容", ItemBody(e.pullRequest), []);
    a.InsertField(Link, ItemUrl(e.pullRequest), []);
  }

  /** The InsertField calls of the "assigned" case of buildPullRequestEvent. */
  method InsertPullRequestAssigned(a: Attachment, e: PullRequestEvent)
    requires a.Valid()
    modifies a
    ensures a.Valid() && a.requested == (old(a.requested) + [Field(Action, "PR にアサインされました", true)] + [Field("対象者", e.assignee, false)] + [Field(Link, ItemUrl(e.pullRequest), false)])
    ensures a.color == old(a.color) && a.fallback == old(a.fallback)
    ensures a.titleLink == old(a.titleLink) && a.title == old(a.title)
  {
    a.InsertField(Action, "PR にアサインされました", [true]);
    a.InsertField("対象者", e.assignee, []);
    a.InsertField(Link, ItemUrl(e.pullRequest), []);
  }

  /** The InsertField calls of the "unassigned" case of buildPullRequestEvent. */
  method InsertPullRequestUnassigned(a: Attachment, e: PullRequestEvent)
    requires a.Valid()
    modifies a
    ensures a.Valid() && a.requested == (old(a.requested) + [Field(Action, "PR にアンアサインされました", true)] + [Field("対象者", e.assignee, false)] + [Field(Link, ItemUrl(e.pullRequest), false)])
    ensures a.color == old(a.color) && a.fallback == old(a.fallback)
    ensures a.titleLink == old(a.titleLink) && a.title == old(a.title)
  {
    a.InsertField(Action, "PR にアンアサインされました", [true]);
    a.InsertField("対象者", e.assignee, []);
    a.InsertField(Link, ItemUrl(e.pullRequest), []);
  }

  /** The InsertField calls of the "review_requested" case of buildPullRequestEvent. */
  method InsertPullRequestReviewRequested(a: Attachment, e: PullRequestEvent)
    requires a.Valid()
    modifies a
    ensures a.Valid() && a.requested == (old(a.requested) + [Field(Action, "PR のレビューをお願いされました", true)] + [Field("対象者", e.reviewer, false)] + [Field(Link, ItemUrl(e.pullRequest), false)])
    ensures a.color == old(a.color) && a.fallback == old(a.fallback)
    ensures a.titleLink == old(a.titleLink) && a.title == old(a.title)
  {
    a.InsertField(Action, "PR のレビューをお願いされました", [true]);
    a.InsertField("対象者", e.reviewer, []);
    a.InsertField(Link, ItemUrl(e.pullRequest), []);
  }

  /** The InsertField calls of the "review_request_removed" case of buildPullRequestEvent. */
  method InsertPullRequestReviewRequestRemoved(a: Attachment, e: PullRequestEvent)
    requires a.Valid()
    modifies a
    ensures a.Valid() && a.requested == (old(a.requested) + [Field(Action, "PR のレビュー要求が取下げされました", true)] + [Field("対象者", e.reviewer, false)] + [Field(Link, ItemUrl(e.pullRequest), false)])
    ensures a.color == old(a.color) && a.fallback == old(a.fallback)
    ensures a.titleLink == old(a.titleLink) && a.title == old(a.title)
  {
    a.InsertField(Action, "PR のレビュー要求が取下げされました", [true]);
    a.InsertField("対象者", e.reviewer, []);
    a.InsertField(Link, ItemUrl(e.pullRequest), []);
  }

  /** The InsertField calls of the "ready_for_review" case of buildPullRequestEvent. */
  method InsertPullRequestReadyForReview(a: Attachment, e: PullRequestEvent)
    requires a.Valid()
    modifies a
    ensures a.Valid() && a.requested == (old(a.requested) + [Field(Action, "PR の準備が整いました", true)] + [Field(Link, ItemUrl(e.pullRequest), false)])
    ensures a.color == old(a.color) && a.fallback == old(a.fallback)
    ensures a.titleLink == old(a.titleLink) && a.title == old(a.title)
  {
    a.InsertField(Action, "PR の準備が整いました", [true]);
    a.InsertField(Link, ItemUrl(e.pullRequest), []);
  }

  /** The InsertField calls of the "labeled" case of buildPullRequestEvent. */
  method InsertPullRequestLabeled(a: Attachment, e: PullRequestEvent)
    requires a.Valid()
    modifies a
    ensures a.Valid() && a.requested == (old(a.requested) + [Field(Action, "PR にラベルが付与されました", true)] + [Field("ラベル", e.labelName, false)] + [Field(Link, ItemUrl(e.pullRequest), false)])
    ensures a.color == old(a.color) && a.fallback == old(a.fallback)
    ensures a.titleLink == old(a.titleLink) && a.title == old(a.title)
  {
    a.InsertField(Action, "PR にラベルが付与されました", [true]);
    a.InsertField("ラベル", e.labelName, []);
    a.InsertField(Link, ItemUrl(e.pullRequest), []);
  }

  /** The InsertField calls of the "unlabeled" case of buildPullRequestEvent. */
  method InsertPullRequestUnlabeled(a: Attachment, e: PullRequestEvent)
    requires a.Valid()
    modifies a
    ensures a.Valid() && a.requested == (old(a.requested) + [Field(Action, "PR のラベルが外されました", true)] + [Field("ラベル", e.labelName, false)] + [Field(Link, ItemUrl(e.pullRequest), false)])
    ensures a.color == old(a.color) && a.fallback == old(a.fallback)
    ensures a.titleLink == old(a.titleLink) && a.title == old(a.title)
  {
    a.InsertField(Action, "PR のラベルが外されました", [true]);
    a.InsertField("ラベル", e.labelName, []);
    a.InsertField(Link, ItemUrl(e.pullRequest), []);
  }

  /** The InsertField calls of the "locked" case of buildPullRequestEvent. */
  method InsertPullRequestLocked(a: Attachment, e: PullRequestEvent)
    requires a.Valid()
    modifies a
    ensures a.Valid() && a.requested == (old(a.requested) + [Field(Action, "PR がロックされました", true)] + [Field(Link, ItemUrl(e.pullRequest), false)])
    ensures a.color == old(a.color) && a.fallback == old(a.fallback)
    ensures a.titleLink == old(a.titleLink) && a.title == old(a.title)
  {
    a.InsertField(Action, "PR がロックされました", [true]);
    a.InsertField(Link, ItemUrl(e.pullRequest), []);
  }

  /** The InsertField calls of the "unlocked" case of buildPullRequestEvent. */
  method InsertPullRequestUnlocked(a: Attachment, e: PullRequestEvent)
    requires a.Valid()
    modifies a
    ensures a.Valid() && a.requested == (old(a.requested) + [Field(Action, "PR のロックが解除されました", true)] + [Field(Link, ItemUrl(e.pullRequest), false)])
    ensures a.color == old(a.color) && a.fallback == old(a.fallback)
    ensures a.titleLink == old(a.titleLink) && a.title == old(a.title)
  {
    a.InsertField(Action, "PR のロックが解除されました", [true]);
    a.InsertField(Link, ItemUrl(e.pullRequest), []);
  }

  /** The InsertField calls of the "synchronize" case of buildPullRequestEvent. */
  method InsertPullRequestSynchronize(a: Attachment, e: PullRequestEvent)
    requires a.Valid()
    modifies a
    ensures a.Valid() && a.requested == (old(a.requested) + [Field(Action, "PullRequestEvent synchronize", false)])
    ensures a.color == old(a.color) && a.fallback == old(a.fallback)
    ensures a.titleLink == old(a.titleLink) && a.title == old(a.title)
  {
    a.InsertField(Action, "PullRequestEvent synchronize", []);
  }

  /** The InsertField calls of the default case of buildPullRequestEvent. */
  method InsertPullRequestOther(a: Attachment, e: PullRequestEvent)
    requires a.Valid()
    modifies a
    ensures a.Valid() && a.requested == (old(a.requested) + [Field(Action, "PullRequestEvent (" + e.action + ")", false)])
    ensures a.color == old(a.color) && a.fallback == old(a.fallback)
    ensures a.titleLink == old(a.titleLink) && a.title == old(a.title)
  {
    a.InsertField(Action, "PullRequestEvent (" + e.action + ")", []);
  }

  /** The InsertField calls of buildPullRequestEvent, in order. */
  method InsertPullRequestFields(a: Attachment, e: PullRequestEvent)
    requires a.Valid() && a.requested == []
    modifies a
    ensures a.Valid() && a.requested == PullRequestRequests(e)
    ensures a.color == old(a.color) && a.fallback == old(a.fallback)
    ensures a.titleLink == old(a.titleLink) && a.title == old(a.title)
  {
    a.InsertField(Account, Login(e.sender), [true]);
    match e.action {
      case "opened" =>
        InsertPullRequestOpened(a, e);
      case "edited" =>
        InsertPullRequestEdited(a, e);
      case "closed" =>
        InsertPullRequestClosed(a, e);
      case "reopened" =>
        InsertPullRequestReopened(a, e);
      case "assigned" =>
        InsertPullRequestAssigned(a, e);
      case "unassigned" =>
        InsertPullRequestUnassigned(a, e);
      case "review_requested" =>
        InsertPullRequestReviewRequested(a, e);
      case "review_request_removed" =>
        InsertPullRequestReviewRequestRemoved(a, e);
      case "ready_for_review" =>
        InsertPullRequestReadyForReview(a, e);
      case "labeled" =>
        InsertPullRequestLabeled(a, e);
      case "unlabeled" =>
        InsertPullRequestUnlabeled(a, e);
      case "locked" =>
        InsertPullRequestLocked(a, e);
      case "unlocked" =>
        InsertPullRequestUnlocked(a, e);
      case "synchronize" =>
        InsertPullRequestSynchronize(a, e);
      case _ =>
        InsertPullRequestOther(a, e);
    }
  }

  method BuildPullRequestEvent(e: PullRequestEvent) returns (buf: Option<string>, err: Option<string>)
    ensures buf == DocumentOf(Some(PullRequestRequests(e)))
    ensures err == None
  {
    var a := new Attachment();
    InsertPullRequestFields(a, e);
    assert a.Snapshot() == Document(Filled(PullRequestRequests(e)));
    buf, err := a.Build();
  }

  /** The InsertField calls of buildPullRequestReviewEvent, in order. */
  method InsertPullRequestReviewFields(a: Attachment, e: PullRequestReviewEvent)
    requires a.Valid() && a.requested == []
    modifies a
    ensures a.Valid() && a.requested == PullRequestReviewRequests(e)
    ensures a.color == old(a.color) && a.fallback == old(a.fallback)
    ensures a.titleLink == old(a.titleLink) && a.title == old(a.title)
  {
    a.InsertField(Account, Login(e.sender), [true]);
    match e.action {
      case "submitted" =>
        a.InsertField(Action, "PR のレビューがされました", [true]);
        a.InsertField("タイトル", ItemTitle(e.pullRequest), []);
        a.InsertField("内容", e.review.body, []);
        a.InsertField(Link, e.review.htmlUrl, []);
      case _ =>
        a.InsertField(Action, "PullRequestReviewEvent (" + e.action + ")", []);
    }
  }

  method BuildPullRequestReviewEvent(e: PullRequestReviewEvent) returns (buf: Option<string>, err: Option<string>)
    ensures buf == DocumentOf(Some(PullRequestReviewRequests(e)))
    ensures err == None
  {
    var a := new Attachment();
    InsertPullRequestReviewFields(a, e);
    assert a.Snapshot() == Document(Filled(PullRequestReviewRequests(e)));
    buf, err := a.Build();
  }

  /** The InsertField calls of buildPullRequestReviewCommentEvent, in order. */
  method InsertPullRequestReviewCommentFields(a: Attachment, e: PullRequestReviewCommentEvent)
    requires a.Valid() && a.requested == []
    modifies a
    ensures a.Valid() && a.requested == PullRequestReviewCommentRequests(e)
    ensures a.color == old(a.color) && a.fallback == old(a.fallback)
    ensures a.titleLink == old(a.titleLink) && a.title == old(a.title)
  {
    a.InsertField(Account, Login(e.sender), [true]);
    match e.action {
      case "created" =>
        a.InsertField(Action, "PR にコメントされました", [true]);
        a.InsertField("コメント", CommentBody(e.comment), []);
        a.InsertField(Link, CommentUrl(e.comment), []);
      case "edited" =>
        a.InsertField(Action, "PR のコメントが変更されました", [true]);
        if e.changes.body.Some? {
          a.InsertField("コメント(変更前)", e.changes.body.value, []);
          a.InsertField("コメント(変更後)", CommentBody(e.comment), []);
        }
        a.InsertField(Link, CommentUrl(e.comment), []);
      case "deleted" =>
        a.InsertField(Action, "PR のコメントが削除されました", [true]);
        a.InsertField("コメント", CommentBody(e.comment), []);
        a.InsertField(Link, CommentUrl(e.comment), []);
      case _ =>
        a.InsertField(Action, "PullRequestReviewCommentEvent (" + e.action + ")", []);
    }
  }

  method BuildPullRequestReviewCommentEvent(e: PullRequestReviewCommentEvent) returns (buf: Option<string>, err: Option<string>)
    ensures buf == DocumentOf(Some(PullRequestReviewCommentRequests(e)))
    ensures err == None
  {
    var a := new Attachment();
    InsertPullRequestReviewCommentFields(a, e);
    assert a.Snapshot() == Document(Filled(PullRequestReviewCommentRequests(e)));
    buf, err := a.Build();
  }

  /** The InsertField calls of the "opened" case of buildPullRequestTargetEvent. */
  method InsertPullRequestTargetOpened(a: Attachment, e: PullRequestEvent)
    requires a.Valid()
    modifies a
    ensures a.Valid() && a.requested == (old(a.requested) + [Field(Action, "PR がオープンされました", true)] + [Field("タイトル", ItemTitle(e.pullRequest), false)] + [Field("内容", ItemBody(e.pullRequest), false)] + [Field(Link, ItemUrl(e.pullRequest), false)])
    ensures a.color == old(a.color) && a.fallback == old(a.fallback)
    ensures a.titleLink == old(a.titleLink) && a.title == old(a.title)
  {
    a.InsertField(Action, "PR がオープンされました", [true]);
    a.InsertField("タイトル", ItemTitle(e.pullRequest), []);
    a.InsertField("内容", ItemBody(e.pullRequest), []);
    a.InsertField(Link, ItemUrl(e.pullRequest), []);
  }

  /** The InsertField calls of the "edited" case of buildPullRequestTargetEvent. */
  method InsertPullRequestTargetEdited(a: Attachment, e: PullRequestEvent)
    requires a.Valid()
    modifies a
    ensures a.Valid() && a.requested == (var r := old(a.requested) + [Field(Action, "PR が編集されました", true)]; var r := if e.changes.title.Some? then r + [Field("タイトル(変更前)", e.changes.title.value, false)] + [Field("タイトル(変更後)", ItemTitle(e.pullRequest), false)] else r; var r := if e.changes.body.Some? then r + [Field("内容(変更前)", e.changes.body.value, false)] + [Field("内容(変更後)", ItemBody(e.pullRequest), false)] else r; r + [Field(Link, ItemUrl(e.pullRequest), false)])
    ensures a.color == old(a.color) && a.fallback == old(a.fallback)
    ensures a.titleLink == old(a.titleLink) && a.title == old(a.title)
  {
    a.InsertField(Action, "PR が編集されました", [true]);
    if e.changes.title.Some? {
      a.InsertField("タイトル(変更前)", e.changes.title.value, []);
      a.InsertField("タイトル(変更後)", ItemTitle(e.pullRequest), []);
    }
    if e.changes.body.Some? {
      a.InsertField("内容(変更前)", e.changes.body.value, []);
      a.InsertField("内容(変更後)", ItemBody(e.pullRequest), []);
    }
    a.InsertField(Link, ItemUrl(e.pullRequest), []);
  }

  /** The InsertField calls of the "closed" case of buildPullRequestTargetEvent. */
  method InsertPullRequestTargetClosed(a: Attachment, e: PullRequestEvent)
    requires a.Valid()
    modifies a
    ensures a.Valid() && a.requested == (old(a.requested) + [Field(Action, "PR がクローズされました", true)] + [Field("タイトル", ItemTitle(e.pullRequest), false)] + [Field(Link, ItemUrl(e.pullRequest), false)])
    ensures a.color == old(a.color) && a.fallback == old(a.fallback)
    ensures a.titleLink == old(a.titleLink) && a.title == old(a.title)
  {
    a.InsertField(Action, "PR がクローズされました", [true]);
    a.InsertField("タイトル", ItemTitle(e.pullRequest), []);
    a.InsertField(Link, ItemUrl(e.pullRequest), []);
  }

  /** The InsertField calls of the "reopened" case of buildPullRequestTargetEvent. */
  method InsertPullRequestTargetReopened(a: Attachment, e: PullRequestEvent)
    requires a.Valid()
    modifies a
    ensures a.Valid() && a.requested == (old(a.requested) + [Field(Action, "PR が再オープンされました", true)] + [Field("タイトル", ItemTitle(e.pullRequest), false)] + [Field("内容", ItemBody(e.pullRequest), false)] + [Field(Link, ItemUrl(e.pullRequest), false)])
    ensures a.color == old(a.color) && a.fallback == old(a.fallback)
    ensures a.titleLink == old(a.titleLink) && a.title == old(a.title)
  {
    a.InsertField(Action, "PR が再オープンされました", [true]);
    a.InsertField("タイトル", ItemTitle(e.pullRequest), []);
    a.InsertField("内容", ItemBody(e.pullRequest), []);
    a.InsertField(Link, ItemUrl(e.pullRequest), []);
  }

  /** The InsertField calls of the "assigned" case of buildPullRequestTargetEvent. */
  method InsertPullRequestTargetAssigned(a: Attachment, e: PullRequestEvent)
    requires a.Valid()
    modifies a
    ensures a.Valid() && a.requested == (old(a.requested) + [Field(Action, "PR にアサインされました", true)] + [Field("対象者", e.assignee, false)] + [Field(Link, ItemUrl(e.pullRequest), false)])
    ensures a.color == old(a.color) && a.fallback == old(a.fallback)
    ensures a.titleLink == old(a.titleLink) && a.title == old(a.title)
  {
    a.InsertField(Action, "PR にアサインされました", [true]);
    a.InsertField("対象者", e.assignee, []);
    a.InsertField(Link, ItemUrl(e.pullRequest), []);
  }

  /** The InsertField calls of the "unassigned" case of buildPullRequestTargetEvent. */
  method InsertPullRequestTargetUnassigned(a: Attachment, e: PullRequestEvent)
    requires a.Valid()
    modifies a
    ensures a.Valid() && a.requested == (old(a.requested) + [Field(Action, "PR にアンアサインされました", true)] + [Field("対象者", e.assignee, false)] + [Field(Link, ItemUrl(e.pullRequest), false)])
    ensures a.color == old(a.color) && a.fallback == old(a.fallback)
    ensures a.titleLink == old(a.titleLink) && a.title == old(a.title)
  {
    a.InsertField(Action, "PR にアンアサインされました", [true]);
    a.InsertField("対象者", e.assignee, []);
    a.InsertField(Link, ItemUrl(e.pullRequest), []);
  }

  /** The InsertField calls of the "review_requested" case of buildPullRequestTargetEvent. */
  method InsertPullRequestTargetReviewRequested(a: Attachment, e: PullRequestEvent)
    requires a.Valid()
    modifies a
    ensures a.Valid() && a.requested == (old(a.requested) + [Field(Action, "PR のレビューをお願いされました", true)] + [Field("対象者", e.reviewer, false)] + [Field(Link, ItemUrl(e.pullRequest), false)])
    ensures a.color == old(a.color) && a.fallback == old(a.fallback)
    ensures a.titleLink == old(a.titleLink) && a.title == old(a.title)
  {
    a.InsertField(Action, "PR のレビューをお願いされました", [true]);
    a.InsertField("対象者", e.reviewer, []);
    a.InsertField(Link, ItemUrl(e.pullRequest), []);
  }

  /** The InsertField calls of the "review_request_removed" case of buildPullRequestTargetEvent. */
  method InsertPullRequestTargetReviewRequestRemoved(a: Attachment, e: PullRequestEvent)
    requires a.Valid()
    modifies a
    ensures a.Valid() && a.requested == (old(a.requested) + [Field(Action, "PR のレビュー要求が取下げされました", true)] + [Field("対象者", e.reviewer, false)] + [Field(Link, ItemUrl(e.pullRequest), false)])
    ensures a.color == old(a.color) && a.fallback == old(a.fallback)
    ensures a.titleLink == old(a.titleLink) && a.title == old(a.title)
  {
    a.InsertField(Action, "PR のレビュー要求が取下げされました", [true]);
    a.InsertField("対象者", e.reviewer, []);
    a.InsertField(Link, ItemUrl(e.pullRequest), []);
  }

  /** The InsertField calls of the "ready_for_review" case of buildPullRequestTargetEvent. */
  method InsertPullRequestTargetReadyForReview(a: Attachment, e: PullRequestEvent)
    requires a.Valid()
    modifies a
    ensures a.Valid() && a.requested == (old(a.requested) + [Field(Action, "PR の準備が整いました", true)] + [Field(Link, ItemUrl(e.pullRequest), false)])
    ensures a.color == old(a.color) && a.fallback == old(a.fallback)
    ensures a.titleLink == old(a.titleLink) && a.title == old(a.title)
  {
    a.InsertField(Action, "PR の準備が整いました", [true]);
    a.InsertField(Link, ItemUrl(e.pullRequest), []);
  }

  /** The InsertField calls of the "labeled" case of buildPullRequestTargetEvent. */
  method InsertPullRequestTargetLabeled(a: Attachment, e: PullRequestEvent)
    requires a.Valid()
    modifies a
    ensures a.Valid() && a.requested == (old(a.requested) + [Field(Action, "PR にラベルが付与されました", true)] + [Field("ラベル", e.labelName, false)] + [Field(Link, ItemUrl(e.pullRequest), false)])
    ensures a.color == old(a.color) && a.fallback == old(a.fallback)
    ensures a.titleLink == old(a.titleLink) && a.title == old(a.title)
  {
    a.InsertField(Action, "PR にラベルが付与されました", [true]);
    a.InsertField("ラベル", e.labelName, []);
    a.InsertField(Link, ItemUrl(e.pullRequest), []);
  }

  /** The InsertField calls of the "unlabeled" case of buildPullRequestTargetEvent. */
  method InsertPullRequestTargetUnlabeled(a: Attachment, e: PullRequestEvent)
    requires a.Valid()
    modifies a
    ensures a.Valid() && a.requested == (old(a.requested) + [Field(Action, "PR のラベルが外されました", true)] + [Field("ラベル", e.labelName, false)] + [Field(Link, ItemUrl(e.pullRequest), false)])
    ensures a.color == old(a.color) && a.fallback == old(a.fallback)
    ensures a.titleLink == old(a.titleLink) && a.title == old(a.title)
  {
    a.InsertField(Action, "PR のラベルが外されました", [true]);
    a.InsertField("ラベル", e.labelName, []);
    a.InsertField(Link, ItemUrl(e.pullRequest), []);
  }

  /** The InsertField calls of the "locked" case of buildPullRequestTargetEvent. */
  method InsertPullRequestTargetLocked(a: Attachment, e: PullRequestEvent)
    requires a.Valid()
    modifies a
    ensures a.Valid() && a.requested == (old(a.requested) + [Field(Action, "PR がロックされました", true)] + [Field(Link, ItemUrl(e.pullRequest), false)])
    ensures a.color == old(a.color) && a.fallback == old(a.fallback)
    ensures a.titleLink == old(a.titleLink) && a.title == old(a.title)
  {
    a.InsertField(Action, "PR がロックされました", [true]);
    a.InsertField(Link, ItemUrl(e.pullRequest), []);
  }

  /** The InsertField calls of the "unlocked" case of buildPullRequestTargetEvent. */
  method InsertPullRequestTargetUnlocked(a: Attachment, e: PullRequestEvent)
    requires a.Valid()
    modifies a
    ensures a.Valid() && a.requested == (old(a.requested) + [Field(Action, "PR のロックが解除されました", true)] + [Field(Link, ItemUrl(e.pullRequest), false)])
    ensures a.color == old(a.color) && a.fallback == old(a.fallback)
    ensures a.titleLink == old(a.titleLink) && a.title == old(a.title)
  {
    a.InsertField(Action, "PR のロックが解除されました", [true]);
    a.InsertField(Link, ItemUrl(e.pullRequest), []);
  }

  /** The InsertField calls of the "synchronize" case of buildPullRequestTargetEvent. */
  method InsertPullRequestTargetSynchronize(a: Attachment, e: PullRequestEvent)
    requires a.Valid()
    modifies a
    ensures a.Valid() && a.requested == (old(a.requested) + [Field(Action, "PullRequestEvent synchronize", false)])
    ensures a.color == old(a.color) && a.fallback == old(a.fallback)
    ensures a.titleLink == old(a.titleLink) && a.title == old(a.title)
  {
    a.InsertField(Action, "PullRequestEvent synchronize", []);
  }

  /** The InsertField calls of the default case of buildPullRequestTargetEvent. */
  method InsertPullRequestTargetOther(a: Attachment, e: PullRequestEvent)
    requires a.Valid()
    modifies a
    ensures a.Valid() && a.requested == (old(a.requested) + [Field(Action, "PullRequestTargetEvent (" + e.action + ")", false)])
    ensures a.color == old(a.color) && a.fallback == old(a.fallback)
    ensures a.titleLink == old(a.titleLink) && a.title == old(a.title)
  {
    a.InsertField(Action, "PullRequestTargetEvent (" + e.action + ")", []);
  }

  /** The InsertField calls of buildPullRequestTargetEvent, in order. */
  method InsertPullRequestTargetFields(a: Attachment, e: PullRequestEvent)
    requires a.Valid() && a.requested == []
    modifies a
    ensures a.Valid() && a.requested == PullRequestTargetRequests(e)
    ensures a.color == old(a.color) && a.fallback == old(a.fallback)
    ensures a.titleLink == old(a.titleLink) && a.title == old(a.title)
  {
    a.InsertField(Account, Login(e.sender), [true]);
    match e.action {
      case "opened" =>
        InsertPullRequestTargetOpened(a, e);
      case "edited" =>
        InsertPullRequestTargetEdited(a, e);
      case "closed" =>
        InsertPullRequestTargetClosed(a, e);
      case "reopened" =>
        InsertPullRequestTargetReopened(a, e);
      case "assigned" =>
        InsertPullRequestTargetAssigned(a, e);
      case "unassigned" =>
        InsertPullRequestTargetUnassigned(a, e);
      case "review_requested" =>
        InsertPullRequestTargetReviewRequested(a, e);
      case "review_request_removed" =>
        InsertPullRequestTargetReviewRequestRemoved(a, e);
      case "ready_for_review" =>
        InsertPullRequestTargetReadyForReview(a, e);
      case "labeled" =>
        InsertPullRequestTargetLabeled(a, e);
      case "unlabeled" =>
        InsertPullRequestTargetUnlabeled(a, e);
      case "locked" =>
        InsertPullRequestTargetLocked(a, e);
      case "unlocked" =>
        InsertPullRequestTargetUnlocked(a, e);
      case "synchronize" =>
        InsertPullRequestTargetSynchronize(a, e);
      case _ =>
        InsertPullRequestTargetOther(a, e);
    }
  }

  method BuildPullRequestTargetEvent(e: PullRequestEvent) returns (buf: Option<string>, err: Option<string>)
    ensures buf == DocumentOf(Some(PullRequestTargetRequests(e)))
    ensures err == None
  {
    var a := new Attachment();
    InsertPullRequestTargetFields(a, e);
    assert a.Snapshot() == Document(Filled(PullRequestTargetRequests(e)));
    buf, err := a.Build();
  }

  /** The InsertField calls of buildPushEvent, in order. */
  method InsertPushFields(a: Attachment, e: PushEvent)
    requires a.Valid() && a.requested == []
    modifies a
    ensures a.Valid() && a.requested == PushRequests(e)
    ensures a.color == old(a.color) && a.fallback == old(a.fallback)
    ensures a.titleLink == old(a.titleLink) && a.title == old(a.title)
  {
    a.InsertField(Account, Login(e.sender), [true]);
    a.InsertField(Action, "プッシュされました", [true]);
    a.InsertField("対象", e.ref, []);
    if e.commits.Some? {
      var text := CommitText(e.commits.value);
      a.InsertField("Commit", text, []);
    }
    a.InsertField(Link, e.repoUrl, []);
  }

  method BuildPushEvent(e: PushEvent) returns (buf: Option<string>, err: Option<string>)
    ensures buf == DocumentOf(Some(PushRequests(e)))
    ensures err == None
  {
    var a := new Attachment();
    InsertPushFields(a, e);
    assert a.Snapshot() == Document(Filled(PushRequests(e)));
    buf, err := a.Build();
  }
}
