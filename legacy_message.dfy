/** The older classifier: it checks the raw payload map for the headers, the
    lower-case event header and the body, in that order, reduces a parsed
    event to a (sender, action, body) triple and a delivery flag, and writes
    the triple into a fixed indented card. */
module LegacyMessage {
  import opened Wrappers
  import opened Json
  import opened Wire
  import opened GitHubEvents
  import opened FieldTables
  import IncomeMessage

  const EventHeader := "x-github-event"
  const MissingHeaders := "missing headers"
  const MissingHeader := "missing x-github-event header"
  const MissingBody := "missing body"

  /** A value held in an interface{}: a string, a map[string]interface{}, or
      anything else. */
  datatype Value = Text(text: string) | Object(members: map<string, Value>) | Other

  /** toGitHubEvent. A failed type assertion (the payload or the headers not a
      map, the event type or the body not a string) panics; a missing key is a
      returned error. */
  function ToGitHubEvent(payload: Value, parse: Parser): (r: Classification)
    ensures !payload.Object? ==> r == Crashed
    ensures payload.Object? && "headers" !in payload.members ==> r == Rejected(MissingHeaders)
    ensures payload.Object? && "headers" in payload.members && !payload.members["headers"].Object?
      ==> r == Crashed
    ensures (payload.Object? && "headers" in payload.members && payload.members["headers"].Object?
             && EventHeader !in payload.members["headers"].members) ==> r == Rejected(MissingHeader)
    ensures r.Parsed? <==>
      payload.Object? && "headers" in payload.members && payload.members["headers"].Object?
      && EventHeader in payload.members["headers"].members && "body" in payload.members
      && payload.members["headers"].members[EventHeader].Text? && payload.members["body"].Text?
      && parse(payload.members["headers"].members[EventHeader].text,
               payload.members["body"].text).Success?
  {
    if !payload.Object? then Crashed
    else if "headers" !in payload.members then Rejected(MissingHeaders)
    else
      var headers := payload.members["headers"];
      if !headers.Object? then Crashed
      else if EventHeader !in headers.members then Rejected(MissingHeader)
      else if "body" !in payload.members then Rejected(MissingBody)
      else
        var eventType, body := headers.members[EventHeader], payload.members["body"];
        if !eventType.Text? || !body.Text? then Crashed
        else
          match parse(eventType.text, body.text)
          case Failure(e) => Rejected(e)
          case Success(ev) => Parsed(ev)
  }

  /** The payload object the older handler receives for a request with these
      headers and this body. */
  function Envelope(headers: map<string, string>, body: string): Value {
    Object(map["headers" := Object(map k | k in headers :: Text(headers[k])), "body" := Text(body)])
  }

  /** On a request that carries the lower-case header, the two revisions
      classify alike. */
  lemma AgreesWithCurrent(headers: map<string, string>, body: string, parse: Parser)
    requires EventHeader in headers
    ensures ToGitHubEvent(Envelope(headers, body), parse)
         == IncomeMessage.ToGitHubEvent(headers, Some(body), parse)
  {
  }

  /** Only the lower-case spelling counts here: a request that has just the
      capitalised header is refused, where the current classifier goes on with
      it. */
  lemma LowerCaseOnly(t: string, body: string, parse: Parser)
    ensures ToGitHubEvent(Envelope(map[IncomeMessage.EventHeaderCap := t], body), parse)
         == Rejected(MissingHeader)
    ensures IncomeMessage.ExtractGitHubEvent(map[IncomeMessage.EventHeaderCap := t]) == Success(t)
  {
    var headers := map[IncomeMessage.EventHeaderCap := t];
    assert EventHeader !in Envelope(headers, body).members["headers"].members;
  }

  /** The nine event types the triple is written for; pull_request_target and
      every other type fall to the default branch. */
  predicate Watched(ev: Event) {
    !ev.PullRequestTarget? && !ev.Unwatched?
  }

  /** The action text of a watched event; the parametrised ones embed the raw
      action in parentheses. */
  function ActionText(ev: Event): string
    requires Watched(ev)
  {
    match ev
    case CommitComment(_) => "コメントされました"
    case Create(_) => "ブランチ・タグが作成されました"
    case Delete(_) => "ブランチ・タグが削除されました"
    case IssueComment(e) => "コメントが変更されました (" + e.action + ")"
    case Issues(e) => "PR / Issue (" + e.action + ")"
    case PullRequest(e) => "PR (" + e.action + ")"
    case PullRequestReview(e) => "PR (" + e.action + ")"
    case PullRequestReviewComment(e) => "PR (" + e.action + ")"
    case Push(_) => "プッシュされました"
  }

  /** The body pointer of a watched event, read through the object that holds
      it: None when that object is nil (reading its field panics), otherwise
      the pointer, which may itself be nil. */
  function BodySource(ev: Event): Option<Option<string>>
    requires Watched(ev)
  {
    match ev
    case CommitComment(e) => if e.comment.None? then None else Some(e.comment.value.body)
    case Create(e) => Some(Some(e.ref))
    case Delete(e) => Some(Some(e.ref))
    case IssueComment(e) => if e.issue.None? then None else Some(e.issue.value.url)
    case Issues(e) => if e.issue.None? then None else Some(e.issue.value.url)
    case PullRequest(e) => if e.pullRequest.None? then None else Some(e.pullRequest.value.url)
    case PullRequestReview(e) => if e.pullRequest.None? then None else Some(e.pullRequest.value.url)
    case PullRequestReviewComment(e) =>
      if e.pullRequest.None? then None else Some(e.pullRequest.value.url)
    case Push(e) => Some(Some(e.ref))
  }

  /** Init panics on a watched event whose sender, or whose object holding the
      body pointer, is nil. */
  predicate Crashes(ev: Event) {
    Watched(ev) && (SenderOf(ev).None? || BodySource(ev).None?)
  }

  /** What Init returns for a classification. */
  function InitStatus(c: Classification): (s: Status)
    ensures c.Parsed? && !Crashes(c.event) ==> s == Done
    ensures c.Parsed? && Crashes(c.event) ==> s == Panicked
    ensures !c.Parsed? ==> s == StatusOf(c)
  {
    match c
    case Parsed(ev) => if Crashes(ev) then Panicked else Done
    case _ => StatusOf(c)
  }

  predicate AllPlain(s: string) {
    forall i :: 0 <= i < |s| ==> Plain(s[i])
  }

  /** The two indentations of the card: ToPayload's and ToDummyPayload's. */
  const Indent := "\t\t\t"
  const DummyIndent := "\t\t\t\t"

  /** The opening of one field object, up to its value. */
  function Open(ind: string, title: string): string {
    ind + "\t\t\t\t{\n" + ind + "\t\t\t\t\t\"title\": \"" + title + "\",\n"
    + ind + "\t\t\t\t\t\"value\": "
  }

  /** The rest of one field object after its value. */
  function Close(ind: string): string {
    ",\n" + ind + "\t\t\t\t\t\"short\": true\n" + ind + "\t\t\t\t}"
  }

  /** The card up to the sender's value. */
  function Head(ind: string): string {
    "\n" + ind + "{\n" + ind + "\t\"attachments\": [\n" + ind + "\t\t{\n"
    + ind + "\t\t\t\"fallback\": \"GitHub Notifitation\",\n"
    + ind + "\t\t\t\"color\": \"#2eb886\",\n"
    + ind + "\t\t\t\"title\": \"GitHub Notification\",\n"
    + ind + "\t\t\t\"title_link\": \"https://api.slack.com/\",\n"
    + ind + "\t\t\t\"fields\": [\n"
    + Open(ind, Account)
  }

  /** Between the sender's value and the action's. */
  function Mid1(ind: string): string {
    Close(ind) + ",\n" + Open(ind, Action)
  }

  /** Between the action's value and the body's. */
  function Mid2(ind: string): string {
    Close(ind) + ",\n" + Open(ind, "内容")
  }

  /** The card after the body's value. */
  function Tail(ind: string): string {
    Close(ind) + "\n" + ind + "\t\t\t]\n" + ind + "\t\t}\n" + ind + "\t]\n" + ind + "}\n\t\t\t"
  }

  /** A value as the template writes it: "%s" between literal quotes, with no
      escaping. */
  function RawQuote(s: string): string {
    "\"" + s + "\""
  }

  /** The card as written: the three values spliced in raw. */
  function Card(ind: string, sender: string, action: string, body: string): string {
    Head(ind) + RawQuote(sender) + Mid1(ind) + RawQuote(action) + Mid2(ind) + RawQuote(body)
    + Tail(ind)
  }

  /** The card with each value written as a JSON string literal. */
  function QuotedCard(ind: string, sender: string, action: string, body: string): string {
    Head(ind) + Quote(sender) + Mid1(ind) + Quote(action) + Mid2(ind) + Quote(body) + Tail(ind)
  }

  /** Three string literals, each after its own fixed text, then the closing
      text. */
  function ReadThree(h: string, m1: string, m2: string, t: string, s: string)
    : Option<(string, string, string)>
  {
    match ReadKeyed(h, s)
    case None => None
    case Some((x, u)) =>
      match ReadKeyed(m1, u)
      case None => None
      case Some((y, v)) =>
        match ReadKeyed(m2, v)
        case None => None
        case Some((z, w)) => if w == t then Some((x, y, z)) else None
  }

  /** The values a JSON reader finds in a card, if `s` is one. */
  function ReadCard(ind: string, s: string): Option<(string, string, string)> {
    ReadThree(Head(ind), Mid1(ind), Mid2(ind), Tail(ind), s)
  }

  lemma Regroup7(a: string, b: string, c: string, d: string, e: string, f: string, g: string)
    ensures a + b + c + d + e + f + g == a + b + (c + d + (e + f + g))
  {
  }

  lemma ThreeRoundTrip(h: string, m1: string, m2: string, t: string, x: string, y: string, z: string)
    ensures ReadThree(h, m1, m2, t, h + Quote(x) + m1 + Quote(y) + m2 + Quote(z) + t)
         == Some((x, y, z))
  {
    Regroup7(h, Quote(x), m1, Quote(y), m2, Quote(z), t);
    KeyedRoundTrip(h, x, m1 + Quote(y) + (m2 + Quote(z) + t));
    KeyedRoundTrip(m1, y, m2 + Quote(z) + t);
    KeyedRoundTrip(m2, z, t);
  }

  /** The body of the card with every value quoted reads back as its three
      values. */
  lemma QuotedCardRoundTrip(ind: string, sender: string, action: string, body: string)
    ensures ReadCard(ind, QuotedCard(ind, sender, action, body)) == Some((sender, action, body))
  {
    ThreeRoundTrip(Head(ind), Mid1(ind), Mid2(ind), Tail(ind), sender, action, body);
  }

  /** Plain text is written the same either way. */
  lemma RawQuotePlain(s: string)
    requires AllPlain(s)
    ensures RawQuote(s) == Quote(s)
  {
    EscapePlain(s);
  }

  /** As long as no value holds a character that needs escaping, the card as
      written reads back as its three values. */
  lemma PlainCardReadsBack(ind: string, sender: string, action: string, body: string)
    requires AllPlain(sender) && AllPlain(action) && AllPlain(body)
    ensures ReadCard(ind, Card(ind, sender, action, body)) == Some((sender, action, body))
  {
    RawQuotePlain(sender);
    RawQuotePlain(action);
    RawQuotePlain(body);
    QuotedCardRoundTrip(ind, sender, action, body);
  }

  /** A raw line break between the quotes does not read as a string literal. */
  lemma NewlineUnreadable(key: string, rest: string)
    ensures ReadKeyed(key, key + RawQuote("\n") + rest) == None
  {
    var t := RawQuote("\n") + rest;
    assert key + RawQuote("\n") + rest == key + t;
    ExpectPrefix(key, t);
    assert t[1..][0] == '\n';
  }

  lemma ThreeNewline(h: string, m1: string, m2: string, t: string, x: string, y: string)
    ensures ReadThree(h, m1, m2, t, h + Quote(x) + m1 + Quote(y) + m2 + RawQuote("\n") + t)
         == None
  {
    Regroup7(h, Quote(x), m1, Quote(y), m2, RawQuote("\n"), t);
    KeyedRoundTrip(h, x, m1 + Quote(y) + (m2 + RawQuote("\n") + t));
    KeyedRoundTrip(m1, y, m2 + RawQuote("\n") + t);
    NewlineUnreadable(m2, t);
  }

  /** A body with a line break in it (a multi-line comment, say) makes the card
      as written unreadable: the raw newline ends up inside a JSON string. */
  lemma CardUnreadable(ind: string, sender: string, action: string)
    requires AllPlain(sender) && AllPlain(action)
    ensures ReadCard(ind, Card(ind, sender, action, "\n")) == None
  {
    RawQuotePlain(sender);
    RawQuotePlain(action);
    ThreeNewline(Head(ind), Mid1(ind), Mid2(ind), Tail(ind), sender, action);
  }

  /** One message of the older pipeline. */
  class GitHubMessage {
    var sender: Option<string>
    var action: string
    var body: Option<string>
    var target: bool

    /** The zero value: nil pointers, no action, not to be delivered. */
    constructor ()
      ensures sender == None && action == "" && body == None && !target
    {
      sender, action, body, target := None, "", None, false;
    }

    /** Classifies the payload and records the triple. On a returned error or
        a panic of the look-up nothing changes; a parsed event first marks the
        message for delivery, then the type switch fills in the triple, one
        assignment after another, up to the first nil dereference; an event
        type outside the nine clears the mark and keeps the old triple. */
    method Init(payload: Value, parse: Parser) returns (status: Status)
      modifies this
      ensures status == InitStatus(ToGitHubEvent(payload, parse))
      ensures !ToGitHubEvent(payload, parse).Parsed? ==>
        sender == old(sender) && action == old(action) && body == old(body) && target == old(target)
      ensures ToGitHubEvent(payload, parse).Parsed? ==>
        var ev := ToGitHubEvent(payload, parse).event;
        && target == Watched(ev)
        && (!Watched(ev) || SenderOf(ev).None? ==> sender == old(sender) && action == old(action))
        && (Watched(ev) && SenderOf(ev).Some? ==>
              sender == SenderOf(ev).value.login && action == ActionText(ev))
        && (!Watched(ev) || Crashes(ev) ==> body == old(body))
        && (Watched(ev) && !Crashes(ev) ==> body == BodySource(ev).value)
    {
      var c := ToGitHubEvent(payload, parse);
      if c.Rejected? {
        return Failed(c.error);
      }
      if c.Crashed? {
        return Panicked;
      }
      target := true;
      match c.event {
        case CommitComment(e) =>
          if e.sender.None? { return Panicked; }
          sender := e.sender.value.login;
          action := "コメントされました";
          if e.comment.None? { return Panicked; }
          body := e.comment.value.body;
        case Create(e) =>
          var ref := e.ref;
          if e.sender.None? { return Panicked; }
          sender := e.sender.value.login;
          action := "ブランチ・タグが作成されました";
          body := Some(ref);
        case Delete(e) =>
          var ref := e.ref;
          if e.sender.None? { return Panicked; }
          sender := e.sender.value.login;
          action := "ブランチ・タグが削除されました";
          body := Some(ref);
        case IssueComment(e) =>
          if e.sender.None? { return Panicked; }
          sender := e.sender.value.login;
          action := "コメントが変更されました (" + e.action + ")";
          if e.issue.None? { return Panicked; }
          body := e.issue.value.url;
        case Issues(e) =>
          if e.sender.None? { return Panicked; }
          sender := e.sender.value.login;
          action := "PR / Issue (" + e.action + ")";
          if e.issue.None? { return Panicked; }
          body := e.issue.value.url;
        case PullRequest(e) =>
          if e.sender.None? { return Panicked; }
          sender := e.sender.value.login;
          action := "PR (" + e.action + ")";
          if e.pullRequest.None? { return Panicked; }
          body := e.pullRequest.value.url;
        case PullRequestReview(e) =>
          if e.sender.None? { return Panicked; }
          sender := e.sender.value.login;
          action := "PR (" + e.action + ")";
          if e.pullRequest.None? { return Panicked; }
          body := e.pullRequest.value.url;
        case PullRequestReviewComment(e) =>
          if e.sender.None? { return Panicked; }
          sender := e.sender.value.login;
          action := "PR (" + e.action + ")";
          if e.pullRequest.None? { return Panicked; }
          body := e.pullRequest.value.url;
        case Push(e) =>
          var ref := e.ref;
          if e.sender.None? { return Panicked; }
          sender := e.sender.value.login;
          action := "プッシュされました";
          body := Some(ref);
        case _ =>
          target := false;
      }
      return Done;
    }

    /** Whether the message is to be delivered. */
    function NeedToDeliver(): bool
      reads this
    {
      target
    }

    /** The card for the recorded triple; None where dereferencing a nil
        sender or body pointer panics. */
    function ToPayload(): (r: Option<string>)
      reads this
      ensures r.Some? <==> sender.Some? && body.Some?
      ensures r.Some? && AllPlain(sender.value) && AllPlain(action) && AllPlain(body.value) ==>
        ReadCard(Indent, r.value) == Some((sender.value, action, body.value))
    {
      if sender.None? || body.None? then None
      else
        var s, b := sender.value, body.value;
        if AllPlain(s) && AllPlain(action) && AllPlain(b) then
          PlainCardReadsBack(Indent, s, action, b);
          Some(Card(Indent, s, action, b))
        else Some(Card(Indent, s, action, b))
    }

    /** ToPayload with each value written as a JSON string literal, so that
        every triple reads back. */
    function QuotedPayload(): (r: Option<string>)
      reads this
      ensures r.Some? <==> sender.Some? && body.Some?
      ensures r.Some? ==> ReadCard(Indent, r.value) == Some((sender.value, action, body.value))
    {
      if sender.None? || body.None? then None
      else
        QuotedCardRoundTrip(Indent, sender.value, action, body.value);
        Some(QuotedCard(Indent, sender.value, action, body.value))
    }

    /** The canned smoke-test card (bot, test, good), one level deeper
        indented than ToPayload's. */
    function ToDummyPayload(): string {
      Card(DummyIndent, "bot", "test", "good")
    }
  }

  /** The smoke-test card reads back as its three values. */
  lemma DummyReadsBack(m: GitHubMessage)
    ensures ReadCard(DummyIndent, m.ToDummyPayload()) == Some(("bot", "test", "good"))
  {
    assert AllPlain("bot") && AllPlain("test") && AllPlain("good");
    PlainCardReadsBack(DummyIndent, "bot", "test", "good");
  }
}
