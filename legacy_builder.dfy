/** The older builder: every InsertField call appends, whatever its title or
    value, and Build splices the fields, each followed by a comma, into a fixed
    indented template. The field tables are the same as the current ones. */
module LegacyBuilder {
  import opened Wrappers
  import opened Json
  import opened Wire
  import opened GitHubEvents
  import opened AttachmentBuilder
  import opened FieldTables

  /** The legacy color; the other template constants are the current ones. */
  const LegacyColor := "#2eb886"

  /** The template up to the opening bracket of the fields list. */
  const Opening := "\n\t\t\t{\n\t\t\t\t\"attachments\": [\n\t\t\t\t\t{\n"
    + "\t\t\t\t\t\t\"fallback\": \"" + Fallback + "\",\n"
    + "\t\t\t\t\t\t\"color\": \"" + LegacyColor + "\",\n"
    + "\t\t\t\t\t\t\"title\": \"" + Title + "\",\n"
    + "\t\t\t\t\t\t\"title_link\": \"" + TitleLink + "\",\n"
    + "\t\t\t\t\t\t\"fields\": "

  /** The template after the closing bracket of the fields list. */
  const Closing := "\n\t\t\t\t\t}\n\t\t\t\t]\n\t\t\t}\n\t\t\t"

  /** The template up to the fields placeholder. */
  const Prefix := Opening + "["

  /** The template after the fields placeholder. */
  const Suffix := "]" + Closing

  /** Each field's object followed by a comma, in order. */
  function Items(fs: seq<Field>): seq<string> {
    seq(|fs|, i requires 0 <= i < |fs| => FieldJson(fs[i]) + ",")
  }

  /** The strings one after the other. */
  function Concat(ss: seq<string>): string
    decreases |ss|
  {
    if ss == [] then "" else ss[0] + Concat(ss[1..])
  }

  /** The fields section spliced into the template. */
  function Section(fs: seq<Field>): string {
    Concat(Items(fs))
  }

  /** The document Build writes for the given fields. */
  function LegacyDocument(fs: seq<Field>): string {
    Prefix + Section(fs) + Suffix
  }

  /** Reads field objects, each followed by a comma, for as long as the next
      character opens an object. */
  function ReadSection(s: string): (r: Option<(seq<Field>, string)>)
    ensures r.Some? ==> |r.value.1| <= |s|
    decreases |s|
  {
    if s == [] || s[0] != '{' then Some(([], s))
    else
      match ReadField(s)
      case None => None
      case Some((f, t)) =>
        match Expect(",", t)
        case None => None
        case Some(u) =>
          match ReadSection(u)
          case None => None
          case Some((fs, v)) => Some(([f] + fs, v))
  }

  /** The fields of a legacy document, if `s` is one. */
  function ReadLegacy(s: string): Option<seq<Field>> {
    match Expect(Prefix, s)
    case None => None
    case Some(t) =>
      match ReadSection(t)
      case None => None
      case Some((fs, u)) => if u == Suffix then Some(fs) else None
  }

  /** Appending one more string extends the concatenation by it. */
  lemma {:induction false} ConcatSnoc(ss: seq<string>, x: string)
    ensures Concat(ss + [x]) == Concat(ss) + x
    decreases |ss|
  {
    if ss == [] {
      assert [x][1..] == [];
    } else {
      assert (ss + [x])[1..] == ss[1..] + [x];
      ConcatSnoc(ss[1..], x);
      Regroup2(ss[0], Concat(ss[1..]), x);
    }
  }

  /** Writing one more field extends the section by that field and a comma. */
  lemma SectionSnoc(fs: seq<Field>, f: Field)
    ensures Section(fs + [f]) == Section(fs) + FieldJson(f) + ","
  {
    var item := FieldJson(f) + ",";
    var a, b := Items(fs + [f]), Items(fs) + [item];
    forall i | 0 <= i < |a|
      ensures a[i] == b[i]
    {
      if i < |fs| {
        assert (fs + [f])[i] == fs[i];
      }
    }
    assert a == b;
    ConcatSnoc(Items(fs), item);
  }

  /** The section of a non-empty list is its first field, a comma, and the
      section of the rest. */
  lemma SectionCons(fs: seq<Field>)
    requires fs != []
    ensures Section(fs) == FieldJson(fs[0]) + "," + Section(fs[1..])
  {
    assert Items(fs)[1..] == Items(fs[1..]);
  }

  /** A non-empty section ends in a comma, so the spliced list has a trailing
      comma before its closing bracket. */
  lemma TrailingComma(fs: seq<Field>)
    requires fs != []
    ensures |Section(fs)| > 0 && Section(fs)[|Section(fs)| - 1] == ','
  {
    var init, last := fs[..|fs| - 1], fs[|fs| - 1];
    assert init + [last] == fs;
    SectionSnoc(init, last);
  }

  /** One step of the section reader: a field object and a comma, then
      whatever the rest reads as. */
  lemma SectionStep(f: Field, more: string)
    ensures ReadSection(FieldJson(f) + ("," + more))
         == match ReadSection(more)
            case None => None
            case Some((fs, v)) => Some(([f] + fs, v))
  {
    var s := FieldJson(f) + ("," + more);
    Regroup2("{\"title\":", Quote(f.title) + ",\"value\":" + Quote(f.value) + ",\"short\":"
      + BoolJson(f.short) + "}", "," + more);
    assert s[0] == '{';
    FieldRoundTrip(f, "," + more);
    ExpectPrefix(",", more);
  }

  /** A section reads back as its fields, up to the next character that does
      not open an object. */
  lemma {:induction false} SectionRoundTrip(fs: seq<Field>, rest: string)
    requires rest == [] || rest[0] != '{'
    ensures ReadSection(Section(fs) + rest) == Some((fs, rest))
    decreases |fs|
  {
    if fs == [] {
      assert Section(fs) + rest == rest;
    } else {
      var f, tail := fs[0], fs[1..];
      var more := Section(tail) + rest;
      SectionCons(fs);
      Regroup2(FieldJson(f) + ",", Section(tail), rest);
      Regroup2(FieldJson(f), ",", more);
      SectionStep(f, more);
      SectionRoundTrip(tail, rest);
      assert [f] + tail == fs;
    }
  }

  /** A legacy document reads back as exactly the fields it was built from. */
  lemma LegacyRoundTrip(fs: seq<Field>)
    ensures ReadLegacy(LegacyDocument(fs)) == Some(fs)
  {
    Regroup2(Prefix, Section(fs), Suffix);
    ExpectPrefix(Prefix, Section(fs) + Suffix);
    SectionRoundTrip(fs, Suffix);
  }

  /** Different field lists give different documents. */
  lemma LegacyInjective(a: seq<Field>, b: seq<Field>)
    requires LegacyDocument(a) == LegacyDocument(b)
    ensures a == b
  {
    LegacyRoundTrip(a);
    LegacyRoundTrip(b);
  }

  /** A strict JSON array reader refuses the spliced list of a non-empty
      section: after the last comma it finds the closing bracket where an
      object must follow. */
  lemma TrailingCommaRejected(fs: seq<Field>, rest: string)
    requires fs != []
    ensures ReadFields("[" + Section(fs) + "]" + rest) == None
  {
    ItemsRejected(fs, rest);
    Bracketed(Section(fs), rest);
  }

  lemma {:induction false} ItemsRejected(fs: seq<Field>, rest: string)
    requires fs != []
    ensures ReadItems(Section(fs) + "]" + rest) == None
    decreases |fs|
  {
    var t := Section(fs[1..]) + "]" + rest;
    SectionCons(fs);
    assert Section(fs) + "]" + rest == FieldJson(fs[0]) + "," + t;
    if |fs| == 1 {
      assert fs[1..] == [];
      assert t == "]" + rest;
      CloseNotItem(rest);
    } else {
      ItemsRejected(fs[1..], rest);
    }
    DanglingComma(fs[0], t);
  }

  /** The list as a JSON array wants it: the field objects separated by
      commas, with nothing after the last. */
  function JoinedSection(fs: seq<Field>): string {
    if fs == [] then "" else FieldItems(fs)
  }

  /** The template with the separated list between the brackets. */
  function JoinedDocument(fs: seq<Field>): string {
    Opening + "[" + JoinedSection(fs) + "]" + Closing
  }

  /** The separated list of a non-empty section reads back, under the strict
      reader, as the fields it was made from. */
  lemma JoinedRoundTrip(fs: seq<Field>, rest: string)
    requires fs != []
    ensures ReadFields("[" + JoinedSection(fs) + "]" + rest) == Some((fs, rest))
  {
    assert "[" + JoinedSection(fs) + "]" + rest == FieldsJson(fs) + rest;
    FieldsRoundTrip(fs, rest);
  }

  lemma RegroupTemplate(o: string, s: string, c: string)
    ensures (o + "[") + s + ("]" + c) == o + ("[" + s + "]" + c)
    ensures o + "[" + s + "]" + c == o + ("[" + s + "]" + c)
  {
  }

  lemma DropPrefix(o: string, t: string)
    ensures (o + t)[|o|..] == t
  {
  }

  /** After the template's opening text, the strict reader refuses the list of
      every document Build writes for a non-empty field list. */
  lemma LegacyDocumentRejected(fs: seq<Field>)
    requires fs != []
    ensures ReadFields(LegacyDocument(fs)[|Opening|..]) == None
  {
    RegroupTemplate(Opening, Section(fs), Closing);
    DropPrefix(Opening, "[" + Section(fs) + "]" + Closing);
    TrailingCommaRejected(fs, Closing);
  }

  /** After the same opening text, the strict reader takes the separated list
      of the corrected document back as its fields, with the closing text left
      over. */
  lemma JoinedDocumentReadsBack(fs: seq<Field>)
    requires fs != []
    ensures ReadFields(JoinedDocument(fs)[|Opening|..]) == Some((fs, Closing))
  {
    RegroupTemplate(Opening, JoinedSection(fs), Closing);
    DropPrefix(Opening, "[" + JoinedSection(fs) + "]" + Closing);
    JoinedRoundTrip(fs, Closing);
  }

  /** The field list of one message. */
  class PayloadBuilder {
    var fields: seq<Field>

    /** payloadBuilder{}: no fields. */
    constructor ()
      ensures fields == []
    {
      fields := [];
    }

    /** Appends (title, value, short), even when title or value is empty. */
    method InsertField(title: string, value: string, short: seq<bool>)
      modifies this
      ensures fields == old(fields) + [Field(title, value, GetShort(short))]
    {
      fields := fields + [Field(title, value, GetShort(short))];
    }

    /** Writes each field and a comma, then splices the result into the
        template. Marshalling a field cannot fail, so the error result is
        always absent. */
    method Build() returns (buf: Option<string>, err: Option<string>)
      ensures buf == Some(LegacyDocument(fields))
      ensures err == None
    {
      var sb := "";
      var i := 0;
      while i < |fields|
        invariant 0 <= i <= |fields|
        invariant sb == Section(fields[..i])
      {
        assert fields[..i + 1] == fields[..i] + [fields[i]];
        SectionSnoc(fields[..i], fields[i]);
        sb := sb + FieldJson(fields[i]) + ",";
        i := i + 1;
      }
      assert fields[..|fields|] == fields;
      buf := Some(Prefix + sb + Suffix);
      err := None;
    }
  }

  /** The InsertField calls of buildCommitCommentEvent, in order. */
  method InsertCommitCommentFields(pb: PayloadBuilder, e: CommitCommentEvent)
    requires pb.fields == []
    modifies pb
    ensures pb.fields == CommitCommentRequests(e)
  {
    pb.InsertField(Account, Login(e.sender), [true]);
    match e.action {
      case "created" =>
        pb.InsertField(Action, "コメントされました", [true]);
        pb.InsertField("コメント", CommentBody(e.comment), []);
        pb.InsertField("CommitID", CommentCommitId(e.comment), []);
        pb.InsertField(Link, CommentUrl(e.comment), []);
      case _ =>
        pb.InsertField(Action, "CommitCommentEvent (" + e.action + ")", []);
    }
  }

  method BuildCommitCommentEvent(e: CommitCommentEvent) returns (buf: Option<string>, err: Option<string>)
    ensures buf == Some(LegacyDocument(CommitCommentRequests(e)))
    ensures err == None
  {
    var pb := new PayloadBuilder();
    InsertCommitCommentFields(pb, e);
    buf, err := pb.Build();
  }

  /** The InsertField calls of buildCreateEvent, in order. */
  method InsertCreateFields(pb: PayloadBuilder, e: RefEvent)
    requires pb.fields == []
    modifies pb
    ensures pb.fields == CreateRequests(e)
  {
    pb.InsertField(Account, Login(e.sender), [true]);
    match e.refType {
      case "branch" =>
        pb.InsertField(Action, "ブランチが作成されました", [true]);
        pb.InsertField("ブランチ名", e.ref, []);
        pb.InsertField(Link, e.repoUrl, []);
      case "tag" =>
        pb.InsertField(Action, "タグが作成されました", [true]);
        pb.InsertField("タグ名", e.ref, []);
        pb.InsertField(Link, e.repoUrl, []);
      case _ =>
    }
  }

  method BuildCreateEvent(e: RefEvent) returns (buf: Option<string>, err: Option<string>)
    ensures buf == Some(LegacyDocument(CreateRequests(e)))
    ensures err == None
  {
    var pb := new PayloadBuilder();
    InsertCreateFields(pb, e);
    buf, err := pb.Build();
  }

  /** The InsertField calls of buildDeleteEvent, in order. */
  method InsertDeleteFields(pb: PayloadBuilder, e: RefEvent)
    requires pb.fields == []
    modifies pb
    ensures pb.fields == DeleteRequests(e)
  {
    pb.InsertField(Account, Login(e.sender), [true]);
    match e.refType {
      case "branch" =>
        pb.InsertField(Action, "ブランチが削除されました", [true]);
        pb.InsertField("ブランチ名", e.ref, []);
        pb.InsertField(Link, e.repoUrl, []);
      case "tag" =>
        pb.InsertField(Action, "タグが削除されました", [true]);
        pb.InsertField("タグ名", e.ref, []);
        pb.InsertField(Link, e.repoUrl, []);
      case _ =>
    }
  }

  method BuildDeleteEvent(e: RefEvent) returns (buf: Option<string>, err: Option<string>)
    ensures buf == Some(LegacyDocument(DeleteRequests(e)))
    ensures err == None
  {
    var pb := new PayloadBuilder();
    InsertDeleteFields(pb, e);
    buf, err := pb.Build();
  }

  /** The InsertField calls of buildIssueCommentEvent, in order. */
  method InsertIssueCommentFields(pb: PayloadBuilder, e: IssueCommentEvent)
    requires pb.fields == []
    modifies pb
    ensures pb.fields == IssueCommentRequests(e)
  {
    pb.InsertField(Account, Login(e.sender), [true]);
    match e.action {
      case "created" =>
        pb.InsertField(Action, "コメントされました", [true]);
        pb.InsertField("コメント", CommentBody(e.comment), []);
        pb.InsertField(Link, CommentUrl(e.comment), []);
      case "edited" =>
        pb.InsertField(Action, "コメントが変更されました", [true]);
        if e.changes.body.Some? {
          pb.InsertField("コメント(変更前)", e.changes.body.value, []);
          pb.InsertField("コメント(変更後)", CommentBody(e.comment), []);
        }
        pb.InsertField(Link, CommentUrl(e.comment), []);
      case "deleted" =>
        pb.InsertField(Action, "コメントが削除されました", [true]);
        pb.InsertField("コメント", CommentBody(e.comment), []);
        pb.InsertField(Link, CommentUrl(e.comment), []);
      case _ =>
        pb.InsertField(Action, "IssueCommentEvent (" + e.action + ")", []);
    }
  }

  method BuildIssueCommentEvent(e: IssueCommentEvent) returns (buf: Option<string>, err: Option<string>)
    ensures buf == Some(LegacyDocument(IssueCommentRequests(e)))
    ensures err == None
  {
    var pb := new PayloadBuilder();
    InsertIssueCommentFields(pb, e);
    buf, err := pb.Build();
  }

  /** The InsertField calls of the "opened" case of buildIssuesEvent. */
  method InsertIssuesOpened(pb: PayloadBuilder, e: IssuesEvent)
    modifies pb
    ensures pb.fields == (old(pb.fields) + [Field(Action, "Issue がオープンされました", true)] + [Field("タイトル", ItemTitle(e.issue), false)] + [Field("内容", ItemBody(e.issue), false)] + [Field(Link, ItemUrl(e.issue), false)])
  {
    pb.InsertField(Action, "Issue がオープンされました", [true]);
    pb.InsertField("タイトル", ItemTitle(e.issue), []);
    pb.InsertField("内容", ItemBody(e.issue), []);
    pb.InsertField(Link, ItemUrl(e.issue), []);
  }

  /** The InsertField calls of the "edited" case of buildIssuesEvent. */
  method InsertIssuesEdited(pb: PayloadBuilder, e: IssuesEvent)
    modifies pb
    ensures pb.fields == (var r := old(pb.fields) + [Field(Action, "Issue が編集されました", true)]; var r := if e.changes.title.Some? then r + [Field("タイトル(変更前)", e.changes.title.value, false)] + [Field("タイトル(変更後)", ItemTitle(e.issue), false)] else r; var r := if e.changes.body.Some? then r + [Field("内容(変更前)", e.changes.body.value, false)] + [Field("内容(変更後)", ItemBody(e.issue), false)] else r; r + [Field(Link, ItemUrl(e.issue), false)])
  {
    pb.InsertField(Action, "Issue が編集されました", [true]);
    if e.changes.title.Some? {
      pb.InsertField("タイトル(変更前)", e.changes.title.value, []);
      pb.InsertField("タイトル(変更後)", ItemTitle(e.issue), []);
    }
    if e.changes.body.Some? {
      pb.InsertField("内容(変更前)", e.changes.body.value, []);
      pb.InsertField("内容(変更後)", ItemBody(e.issue), []);
    }
    pb.InsertField(Link, ItemUrl(e.issue), []);
  }

  /** The InsertField calls of the "deleted" case of buildIssuesEvent. */
  method InsertIssuesDeleted(pb: PayloadBuilder, e: IssuesEvent)
    modifies pb
    ensures pb.fields == (old(pb.fields) + [Field(Action, "Issue が削除されました", true)] + [Field("タイトル", ItemTitle(e.issue), false)] + [Field(Link, ItemUrl(e.issue), false)])
  {
    pb.InsertField(Action, "Issue が削除されました", [true]);
    pb.InsertField("タイトル", ItemTitle(e.issue), []);
    pb.InsertField(Link, ItemUrl(e.issue), []);
  }

  /** The InsertField calls of the "closed" case of buildIssuesEvent. */
  method InsertIssuesClosed(pb: PayloadBuilder, e: IssuesEvent)
    modifies pb
    ensures pb.fields == (old(pb.fields) + [Field(Action, "Issue がクローズされました", true)] + [Field("タイトル", ItemTitle(e.issue), false)] + [Field(Link, ItemUrl(e.issue), false)])
  {
    pb.InsertField(Action, "Issue がクローズされました", [true]);
    pb.InsertField("タイトル", ItemTitle(e.issue), []);
    pb.InsertField(Link, ItemUrl(e.issue), []);
  }

  /** The InsertField calls of the "reopened" case of buildIssuesEvent. */
  method InsertIssuesReopened(pb: PayloadBuilder, e: IssuesEvent)
    modifies pb
    ensures pb.fields == (old(pb.fields) + [Field(Action, "Issue が再オープンされました", true)] + [Field("タイトル", ItemTitle(e.issue), false)] + [Field("内容", ItemBody(e.issue), false)] + [Field(Link, ItemUrl(e.issue), false)])
  {
    pb.InsertField(Action, "Issue が再オープンされました", [true]);
    pb.InsertField("タイトル", ItemTitle(e.issue), []);
    pb.InsertField("内容", ItemBody(e.issue), []);
    pb.InsertField(Link, ItemUrl(e.issue), []);
  }

  /** The InsertField calls of the "assigned" case of buildIssuesEvent. */
  method InsertIssuesAssigned(pb: PayloadBuilder, e: IssuesEvent)
    modifies pb
    ensures pb.fields == (old(pb.fields) + [Field(Action, "Issue にアサインされました", true)] + [Field("対象者", e.assignee, false)] + [Field(Link, ItemUrl(e.issue), false)])
  {
    pb.InsertField(Action, "Issue にアサインされました", [true]);
    pb.InsertField("対象者", e.assignee, []);
    pb.InsertField(Link, ItemUrl(e.issue), []);
  }

  /** The InsertField calls of the "unassigned" case of buildIssuesEvent. */
  method InsertIssuesUnassigned(pb: PayloadBuilder, e: IssuesEvent)
    modifies pb
    ensures pb.fields == (old(pb.fields) + [Field(Action, "Issue にアンアサインされました", true)] + [Field("対象者", e.assignee, false)] + [Field(Link, ItemUrl(e.issue), false)])
  {
    pb.InsertField(Action, "Issue にアンアサインされました", [true]);
    pb.InsertField("対象者", e.assignee, []);
    pb.InsertField(Link, ItemUrl(e.issue), []);
  }

  /** The InsertField calls of the "labeled" case of buildIssuesEvent. */
  method InsertIssuesLabeled(pb: PayloadBuilder, e: IssuesEvent)
    modifies pb
    ensures pb.fields == (old(pb.fields) + [Field(Action, "Issue にラベルが付与されました", true)] + [Field("ラベル", e.labelName, false)] + [Field(Link, ItemUrl(e.issue), false)])
  {
    pb.InsertField(Action, "Issue にラベルが付与されました", [true]);
    pb.InsertField("ラベル", e.labelName, []);
    pb.InsertField(Link, ItemUrl(e.issue), []);
  }

  /** The InsertField calls of the "unlabeled" case of buildIssuesEvent. */
  method InsertIssuesUnlabeled(pb: PayloadBuilder, e: IssuesEvent)
    modifies pb
    ensures pb.fields == (old(pb.fields) + [Field(Action, "Issue のラベルが外されました", true)] + [Field("ラベル", e.labelName, false)] + [Field(Link, ItemUrl(e.issue), false)])
  {
    pb.InsertField(Action, "Issue のラベルが外されました", [true]);
    pb.InsertField("ラベル", e.labelName, []);
    pb.InsertField(Link, ItemUrl(e.issue), []);
  }

  /** The InsertField calls of the "locked" case of buildIssuesEvent. */
  method InsertIssuesLocked(pb: PayloadBuilder, e: IssuesEvent)
    modifies pb
    ensures pb.fields == (old(pb.fields) + [Field(Action, "Issue がロックされました", true)] + [Field(Link, ItemUrl(e.issue), false)])
  {
    pb.InsertField(Action, "Issue がロックされました", [true]);
    pb.InsertField(Link, ItemUrl(e.issue), []);
  }

  /** The InsertField calls of the "unlocked" case of buildIssuesEvent. */
  method InsertIssuesUnlocked(pb: PayloadBuilder, e: IssuesEvent)
    modifies pb
    ensures pb.fields == (old(pb.fields) + [Field(Action, "Issue のロックが解除されました", true)] + [Field(Link, ItemUrl(e.issue), false)])
  {
    pb.InsertField(Action, "Issue のロックが解除されました", [true]);
    pb.InsertField(Link, ItemUrl(e.issue), []);
  }

  /** The InsertField calls of the "pinned" case of buildIssuesEvent. */
  method InsertIssuesPinned(pb: PayloadBuilder, e: IssuesEvent)
    modifies pb
    ensures pb.fields == (old(pb.fields) + [Field(Action, "Issue がピン留めされました", true)] + [Field(Link, ItemUrl(e.issue), false)])
  {
    pb.InsertField(Action, "Issue がピン留めされました", [true]);
    pb.InsertField(Link, ItemUrl(e.issue), []);
  }

  /** The InsertField calls of the "unpinned" case of buildIssuesEvent. */
  method InsertIssuesUnpinned(pb: PayloadBuilder, e: IssuesEvent)
    modifies pb
    ensures pb.fields == (old(pb.fields) + [Field(Action, "Issue のピン留めが解除されました", true)] + [Field(Link, ItemUrl(e.issue), false)])
  {
    pb.InsertField(Action, "Issue のピン留めが解除されました", [true]);
    pb.InsertField(Link, ItemUrl(e.issue), []);
  }

  /** The InsertField calls of the "transferred" case of buildIssuesEvent. */
  method InsertIssuesTransferred(pb: PayloadBuilder, e: IssuesEvent)
    modifies pb
    ensures pb.fields == (old(pb.fields) + [Field(Action, "Issue が譲渡されました", true)] + [Field("リンク(譲渡前)", ItemUrl(e.issue), false)])
  {
    pb.InsertField(Action, "Issue が譲渡されました", [true]);
    pb.InsertField("リンク(譲渡前)", ItemUrl(e.issue), []);
  }

  /** The InsertField calls of the "milestoned" case of buildIssuesEvent. */
  method InsertIssuesMilestoned(pb: PayloadBuilder, e: IssuesEvent)
    modifies pb
    ensures pb.fields == (old(pb.fields) + [Field(Action, "マイルストーンが設定されました", true)] + [Field("マイルストーン", ItemMilestone(e.issue), false)] + [Field(Link, ItemUrl(e.issue), false)])
  {
    pb.InsertField(Action, "マイルストーンが設定されました", [true]);
    pb.InsertField("マイルストーン", ItemMilestone(e.issue), []);
    pb.InsertField(Link, ItemUrl(e.issue), []);
  }

  /** The InsertField calls of the "demilestoned" case of buildIssuesEvent. */
  method InsertIssuesDemilestoned(pb: PayloadBuilder, e: IssuesEvent)
    modifies pb
    ensures pb.fields == (old(pb.fields) + [Field(Action, "マイルストーンが解除されました", true)] + [Field(Link, ItemUrl(e.issue), false)])
  {
    pb.InsertField(Action, "マイルストーンが解除されました", [true]);
    pb.InsertField(Link, ItemUrl(e.issue), []);
  }

  /** The InsertField calls of the default case of buildIssuesEvent. */
  method InsertIssuesOther(pb: PayloadBuilder, e: IssuesEvent)
    modifies pb
    ensures pb.fields == (old(pb.fields) + [Field(Action, "IssuesEvent (" + e.action + ")", false)])
  {
    pb.InsertField(Action, "IssuesEvent (" + e.action + ")", []);
  }

  /** The InsertField calls of buildIssuesEvent, in order. */
  method InsertIssuesFields(pb: PayloadBuilder, e: IssuesEvent)
    requires pb.fields == []
    modifies pb
    ensures pb.fields == IssuesRequests(e)
  {
    pb.InsertField(Account, Login(e.sender), [true]);
    match e.action {
      case "opened" =>
        InsertIssuesOpened(pb, e);
      case "edited" =>
        InsertIssuesEdited(pb, e);
      case "deleted" =>
        InsertIssuesDeleted(pb, e);
      case "closed" =>
        InsertIssuesClosed(pb, e);
      case "reopened" =>
        InsertIssuesReopened(pb, e);
      case "assigned" =>
        InsertIssuesAssigned(pb, e);
      case "unassigned" =>
        InsertIssuesUnassigned(pb, e);
      case "labeled" =>
        InsertIssuesLabeled(pb, e);
      case "unlabeled" =>
        InsertIssuesUnlabeled(pb, e);
      case "locked" =>
        InsertIssuesLocked(pb, e);
      case "unlocked" =>
        InsertIssuesUnlocked(pb, e);
      case "pinned" =>
        InsertIssuesPinned(pb, e);
      case "unpinned" =>
        InsertIssuesUnpinned(pb, e);
      case "transferred" =>
        InsertIssuesTransferred(pb, e);
      case "milestoned" =>
        InsertIssuesMilestoned(pb, e);
      case "demilestoned" =>
        InsertIssuesDemilestoned(pb, e);
      case _ =>
        InsertIssuesOther(pb, e);
    }
  }

  method BuildIssuesEvent(e: IssuesEvent) returns (buf: Option<string>, err: Option<string>)
    ensures buf == Some(LegacyDocument(IssuesRequests(e)))
    ensures err == None
  {
    var pb := new PayloadBuilder();
    InsertIssuesFields(pb, e);
    buf, err := pb.Build();
  }

  /** The InsertField calls of the "opened" case of buildPullRequestEvent. */
  method InsertPullRequestOpened(pb: PayloadBuilder, e: PullRequestEvent)
    modifies pb
    ensures pb.fields == (old(pb.fields) + [Field(Action, "PR がオープンされました", true)] + [Field("タイトル", ItemTitle(e.pullRequest), false)] + [Field("内容", ItemBody(e.pullRequest), false)] + [Field(Link, ItemUrl(e.pullRequest), false)])
  {
    pb.InsertField(Action, "PR がオープンされました", [true]);
    pb.InsertField("タイトル", ItemTitle(e.pullRequest), []);
    pb.InsertField("内容", ItemBody(e.pullRequest), []);
    pb.InsertField(Link, ItemUrl(e.pullRequest), []);
  }

  /** The InsertField calls of the "edited" case of buildPullRequestEvent. */
  method InsertPullRequestEdited(pb: PayloadBuilder, e: PullRequestEvent)
    modifies pb
    ensures pb.fields == (var r := old(pb.fields) + [Field(Action, "PR が編集されました", true)]; var r := if e.changes.title.Some? then r + [Field("タイトル(変更前)", e.changes.title.value, false)] + [Field("タイトル(変更後)", ItemTitle(e.pullRequest), false)] else r; var r := if e.changes.body.Some? then r + [Field("内容(変更前)", e.changes.body.value, false)] + [Field("内容(変更後)", ItemBody(e.pullRequest), false)] else r; r + [Field(Link, ItemUrl(e.pullRequest), false)])
  {
    pb.InsertField(Action, "PR が編集されました", [true]);
    if e.changes.title.Some? {
      pb.InsertField("タイトル(変更前)", e.changes.title.value, []);
      pb.InsertField("タイトル(変更後)", ItemTitle(e.pullRequest), []);
    }
    if e.changes.body.Some? {
      pb.InsertField("内容(変更前)", e.changes.body.value, []);
      pb.InsertField("内容(変更後)", ItemBody(e.pullRequest), []);
    }
    pb.InsertField(Link, ItemUrl(e.pullRequest), []);
  }

  /** The InsertField calls of the "closed" case of buildPullRequestEvent. */
  method InsertPullRequestClosed(pb: PayloadBuilder, e: PullRequestEvent)
    modifies pb
    ensures pb.fields == (old(pb.fields) + [Field(Action, "PR がクローズされました", true)] + [Field("タイトル", ItemTitle(e.pullRequest), false)] + [Field(Link, ItemUrl(e.pullRequest), false)])
  {
    pb.InsertField(Action, "PR がクローズされました", [true]);
    pb.InsertField("タイトル", ItemTitle(e.pullRequest), []);
    pb.InsertField(Link, ItemUrl(e.pullRequest), []);
  }

  /** The InsertField calls of the "reopened" case of buildPullRequestEvent. */
  method InsertPullRequestReopened(pb: PayloadBuilder, e: PullRequestEvent)
    modifies pb
    ensures pb.fields == (old(pb.fields) + [Field(Action, "PR が再オープンされました", true)] + [Field("タイトル", ItemTitle(e.pullRequest), false)] + [Field("内容", ItemBody(e.pullRequest), false)] + [Field(Link, ItemUrl(e.pullRequest), false)])
  {
    pb.InsertField(Action, "PR が再オープンされました", [true]);
    pb.InsertField("タイトル", ItemTitle(e.pullRequest), []);
    pb.InsertField("内容", ItemBody(e.pullRequest), []);
    pb.InsertField(Link, ItemUrl(e.pullRequest), []);
  }

  /** The InsertField calls of the "assigned" case of buildPullRequestEvent. */
  method InsertPullRequestAssigned(pb: PayloadBuilder, e: PullRequestEvent)
    modifies pb
    ensures pb.fields == (old(pb.fields) + [Field(Action, "PR にアサインされました", true)] + [Field("対象者", e.assignee, false)] + [Field(Link, ItemUrl(e.pullRequest), false)])
  {
    pb.InsertField(Action, "PR にアサインされました", [true]);
    pb.InsertField("対象者", e.assignee, []);
    pb.InsertField(Link, ItemUrl(e.pullRequest), []);
  }

  /** The InsertField calls of the "unassigned" case of buildPullRequestEvent. */
  method InsertPullRequestUnassigned(pb: PayloadBuilder, e: PullRequestEvent)
    modifies pb
    ensures pb.fields == (old(pb.fields) + [Field(Action, "PR にアンアサインされました", true)] + [Field("対象者", e.assignee, false)] + [Field(Link, ItemUrl(e.pullRequest), false)])
  {
    pb.InsertField(Action, "PR にアンアサインされました", [true]);
    pb.InsertField("対象者", e.assignee, []);
    pb.InsertField(Link, ItemUrl(e.pullRequest), []);
  }

  /** The InsertField calls of the "review_requested" case of buildPullRequestEvent. */
  method InsertPullRequestReviewRequested(pb: PayloadBuilder, e: PullRequestEvent)
    modifies pb
    ensures pb.fields == (old(pb.fields) + [Field(Action, "PR のレビューをお願いされました", true)] + [Field("対象者", e.reviewer, false)] + [Field(Link, ItemUrl(e.pullRequest), false)])
  {
    pb.InsertField(Action, "PR のレビューをお願いされました", [true]);
    pb.InsertField("対象者", e.reviewer, []);
    pb.InsertField(Link, ItemUrl(e.pullRequest), []);
  }

  /** The InsertField calls of the "review_request_removed" case of buildPullRequestEvent. */
  method InsertPullRequestReviewRequestRemoved(pb: PayloadBuilder, e: PullRequestEvent)
    modifies pb
    ensures pb.fields == (old(pb.fields) + [Field(Action, "PR のレビュー要求が取下げされました", true)] + [Field("対象者", e.reviewer, false)] + [Field(Link, ItemUrl(e.pullRequest), false)])
  {
    pb.InsertField(Action, "PR のレビュー要求が取下げされました", [true]);
    pb.InsertField("対象者", e.reviewer, []);
    pb.InsertField(Link, ItemUrl(e.pullRequest), []);
  }

  /** The InsertField calls of the "ready_for_review" case of buildPullRequestEvent. */
  method InsertPullRequestReadyForReview(pb: PayloadBuilder, e: PullRequestEvent)
    modifies pb
    ensures pb.fields == (old(pb.fields) + [Field(Action, "PR の準備が整いました", true)] + [Field(Link, ItemUrl(e.pullRequest), false)])
  {
    pb.InsertField(Action, "PR の準備が整いました", [true]);
    pb.InsertField(Link, ItemUrl(e.pullRequest), []);
  }

  /** The InsertField calls of the "labeled" case of buildPullRequestEvent. */
  method InsertPullRequestLabeled(pb: PayloadBuilder, e: PullRequestEvent)
    modifies pb
    ensures pb.fields == (old(pb.fields) + [Field(Action, "PR にラベルが付与されました", true)] + [Field("ラベル", e.labelName, false)] + [Field(Link, ItemUrl(e.pullRequest), false)])
  {
    pb.InsertField(Action, "PR にラベルが付与されました", [true]);
    pb.InsertField("ラベル", e.labelName, []);
    pb.InsertField(Link, ItemUrl(e.pullRequest), []);
  }

  /** The InsertField calls of the "unlabeled" case of buildPullRequestEvent. */
  method InsertPullRequestUnlabeled(pb: PayloadBuilder, e: PullRequestEvent)
    modifies pb
    ensures pb.fields == (old(pb.fields) + [Field(Action, "PR のラベルが外されました", true)] + [Field("ラベル", e.labelName, false)] + [Field(Link, ItemUrl(e.pullRequest), false)])
  {
    pb.InsertField(Action, "PR のラベルが外されました", [true]);
    pb.InsertField("ラベル", e.labelName, []);
    pb.InsertField(Link, ItemUrl(e.pullRequest), []);
  }

  /** The InsertField calls of the "locked" case of buildPullRequestEvent. */
  method InsertPullRequestLocked(pb: PayloadBuilder, e: PullRequestEvent)
    modifies pb
    ensures pb.fields == (old(pb.fields) + [Field(Action, "PR がロックされました", true)] + [Field(Link, ItemUrl(e.pullRequest), false)])
  {
    pb.InsertField(Action, "PR がロックされました", [true]);
    pb.InsertField(Link, ItemUrl(e.pullRequest), []);
  }

  /** The InsertField calls of the "unlocked" case of buildPullRequestEvent. */
  method InsertPullRequestUnlocked(pb: PayloadBuilder, e: PullRequestEvent)
    modifies pb
    ensures pb.fields == (old(pb.fields) + [Field(Action, "PR のロックが解除されました", true)] + [Field(Link, ItemUrl(e.pullRequest), false)])
  {
    pb.InsertField(Action, "PR のロックが解除されました", [true]);
    pb.InsertField(Link, ItemUrl(e.pullRequest), []);
  }

  /** The InsertField calls of the "synchronize" case of buildPullRequestEvent. */
  method InsertPullRequestSynchronize(pb: PayloadBuilder, e: PullRequestEvent)
    modifies pb
    ensures pb.fields == (old(pb.fields) + [Field(Action, "PullRequestEvent synchronize", false)])
  {
    pb.InsertField(Action, "PullRequestEvent synchronize", []);
  }

  /** The InsertField calls of the default case of buildPullRequestEvent. */
  method InsertPullRequestOther(pb: PayloadBuilder, e: PullRequestEvent)
    modifies pb
    ensures pb.fields == (old(pb.fields) + [Field(Action, "PullRequestEvent (" + e.action + ")", false)])
  {
    pb.InsertField(Action, "PullRequestEvent (" + e.action + ")", []);
  }

  /** The InsertField calls of buildPullRequestEvent, in order. */
  method InsertPullRequestFields(pb: PayloadBuilder, e: PullRequestEvent)
    requires pb.fields == []
    modifies pb
    ensures pb.fields == PullRequestRequests(e)
  {
    pb.InsertField(Account, Login(e.sender), [true]);
    match e.action {
      case "opened" =>
        InsertPullRequestOpened(pb, e);
      case "edited" =>
        InsertPullRequestEdited(pb, e);
      case "closed" =>
        InsertPullRequestClosed(pb, e);
      case "reopened" =>
        InsertPullRequestReopened(pb, e);
      case "assigned" =>
        InsertPullRequestAssigned(pb, e);
      case "unassigned" =>
        InsertPullRequestUnassigned(pb, e);
      case "review_requested" =>
        InsertPullRequestReviewRequested(pb, e);
      case "review_request_removed" =>
        InsertPullRequestReviewRequestRemoved(pb, e);
      case "ready_for_review" =>
        InsertPullRequestReadyForReview(pb, e);
      case "labeled" =>
        InsertPullRequestLabeled(pb, e);
      case "unlabeled" =>
        InsertPullRequestUnlabeled(pb, e);
      case "locked" =>
        InsertPullRequestLocked(pb, e);
      case "unlocked" =>
        InsertPullRequestUnlocked(pb, e);
      case "synchronize" =>
        InsertPullRequestSynchronize(pb, e);
      case _ =>
        InsertPullRequestOther(pb, e);
    }
  }

  method BuildPullRequestEvent(e: PullRequestEvent) returns (buf: Option<string>, err: Option<string>)
    ensures buf == Some(LegacyDocument(PullRequestRequests(e)))
    ensures err == None
  {
    var pb := new PayloadBuilder();
    InsertPullRequestFields(pb, e);
    buf, err := pb.Build();
  }

  /** The InsertField calls of buildPullRequestReviewEvent, in order. */
  method InsertPullRequestReviewFields(pb: PayloadBuilder, e: PullRequestReviewEvent)
    requires pb.fields == []
    modifies pb
    ensures pb.fields == PullRequestReviewRequests(e)
  {
    pb.InsertField(Account, Login(e.sender), [true]);
    match e.action {
      case "submitted" =>
        pb.InsertField(Action, "PR のレビューがされました", [true]);
        pb.InsertField("タイトル", ItemTitle(e.pullRequest), []);
        pb.InsertField("内容", e.review.body, []);
        pb.InsertField(Link, e.review.htmlUrl, []);
      case _ =>
        pb.InsertField(Action, "PullRequestReviewEvent (" + e.action + ")", []);
    }
  }

  method BuildPullRequestReviewEvent(e: PullRequestReviewEvent) returns (buf: Option<string>, err: Option<string>)
    ensures buf == Some(LegacyDocument(PullRequestReviewRequests(e)))
    ensures err == None
  {
    var pb := new PayloadBuilder();
    InsertPullRequestReviewFields(pb, e);
    buf, err := pb.Build();
  }

  /** The InsertField calls of buildPullRequestReviewCommentEvent, in order. */
  method InsertPullRequestReviewCommentFields(pb: PayloadBuilder, e: PullRequestReviewCommentEvent)
    requires pb.fields == []
    modifies pb
    ensures pb.fields == PullRequestReviewCommentRequests(e)
  {
    pb.InsertField(Account, Login(e.sender), [true]);
    match e.action {
      case "created" =>
        pb.InsertField(Action, "PR にコメントされました", [true]);
        pb.InsertField("コメント", CommentBody(e.comment), []);
        pb.InsertField(Link, CommentUrl(e.comment), []);
      case "edited" =>
        pb.InsertField(Action, "PR のコメントが変更されました", [true]);
        if e.changes.body.Some? {
          pb.InsertField("コメント(変更前)", e.changes.body.value, []);
          pb.InsertField("コメント(変更後)", CommentBody(e.comment), []);
        }
        pb.InsertField(Link, CommentUrl(e.comment), []);
      case "deleted" =>
        pb.InsertField(Action, "PR のコメントが削除されました", [true]);
        pb.InsertField("コメント", CommentBody(e.comment), []);
        pb.InsertField(Link, CommentUrl(e.comment), []);
      case _ =>
        pb.InsertField(Action, "PullRequestReviewCommentEvent (" + e.action + ")", []);
    }
  }

  method BuildPullRequestReviewCommentEvent(e: PullRequestReviewCommentEvent) returns (buf: Option<string>, err: Option<string>)
    ensures buf == Some(LegacyDocument(PullRequestReviewCommentRequests(e)))
    ensures err == None
  {
    var pb := new PayloadBuilder();
    InsertPullRequestReviewCommentFields(pb, e);
    buf, err := pb.Build();
  }

  /** The InsertField calls of the "opened" case of buildPullRequestTargetEvent. */
  method InsertPullRequestTargetOpened(pb: PayloadBuilder, e: PullRequestEvent)
    modifies pb
    ensures pb.fields == (old(pb.fields) + [Field(Action, "PR がオープンされました", true)] + [Field("タイトル", ItemTitle(e.pullRequest), false)] + [Field("内容", ItemBody(e.pullRequest), false)] + [Field(Link, ItemUrl(e.pullRequest), false)])
  {
    pb.InsertField(Action, "PR がオープンされました", [true]);
    pb.InsertField("タイトル", ItemTitle(e.pullRequest), []);
    pb.InsertField("内容", ItemBody(e.pullRequest), []);
    pb.InsertField(Link, ItemUrl(e.pullRequest), []);
  }

  /** The InsertField calls of the "edited" case of buildPullRequestTargetEvent. */
  method InsertPullRequestTargetEdited(pb: PayloadBuilder, e: PullRequestEvent)
    modifies pb
    ensures pb.fields == (var r := old(pb.fields) + [Field(Action, "PR が編集されました", true)]; var r := if e.changes.title.Some? then r + [Field("タイトル(変更前)", e.changes.title.value, false)] + [Field("タイトル(変更後)", ItemTitle(e.pullRequest), false)] else r; var r := if e.changes.body.Some? then r + [Field("内容(変更前)", e.changes.body.value, false)] + [Field("内容(変更後)", ItemBody(e.pullRequest), false)] else r; r + [Field(Link, ItemUrl(e.pullRequest), false)])
  {
    pb.InsertField(Action, "PR が編集されました", [true]);
    if e.changes.title.Some? {
      pb.InsertField("タイトル(変更前)", e.changes.title.value, []);
      pb.InsertField("タイトル(変更後)", ItemTitle(e.pullRequest), []);
    }
    if e.changes.body.Some? {
      pb.InsertField("内容(変更前)", e.changes.body.value, []);
      pb.InsertField("内容(変更後)", ItemBody(e.pullRequest), []);
    }
    pb.InsertField(Link, ItemUrl(e.pullRequest), []);
  }

  /** The InsertField calls of the "closed" case of buildPullRequestTargetEvent. */
  method InsertPullRequestTargetClosed(pb: PayloadBuilder, e: PullRequestEvent)
    modifies pb
    ensures pb.fields == (old(pb.fields) + [Field(Action, "PR がクローズされました", true)] + [Field("タイトル", ItemTitle(e.pullRequest), false)] + [Field(Link, ItemUrl(e.pullRequest), false)])
  {
    pb.InsertField(Action, "PR がクローズされました", [true]);
    pb.InsertField("タイトル", ItemTitle(e.pullRequest), []);
    pb.InsertField(Link, ItemUrl(e.pullRequest), []);
  }

  /** The InsertField calls of the "reopened" case of buildPullRequestTargetEvent. */
  method InsertPullRequestTargetReopened(pb: PayloadBuilder, e: PullRequestEvent)
    modifies pb
    ensures pb.fields == (old(pb.fields) + [Field(Action, "PR が再オープンされました", true)] + [Field("タイトル", ItemTitle(e.pullRequest), false)] + [Field("内容", ItemBody(e.pullRequest), false)] + [Field(Link, ItemUrl(e.pullRequest), false)])
  {
    pb.InsertField(Action, "PR が再オープンされました", [true]);
    pb.InsertField("タイトル", ItemTitle(e.pullRequest), []);
    pb.InsertField("内容", ItemBody(e.pullRequest), []);
    pb.InsertField(Link, ItemUrl(e.pullRequest), []);
  }

  /** The InsertField calls of the "assigned" case of buildPullRequestTargetEvent. */
  method InsertPullRequestTargetAssigned(pb: PayloadBuilder, e: PullRequestEvent)
    modifies pb
    ensures pb.fields == (old(pb.fields) + [Field(Action, "PR にアサインされました", true)] + [Field("対象者", e.assignee, false)] + [Field(Link, ItemUrl(e.pullRequest), false)])
  {
    pb.InsertField(Action, "PR にアサインされました", [true]);
    pb.InsertField("対象者", e.assignee, []);
    pb.InsertField(Link, ItemUrl(e.pullRequest), []);
  }

  /** The InsertField calls of the "unassigned" case of buildPullRequestTargetEvent. */
  method InsertPullRequestTargetUnassigned(pb: PayloadBuilder, e: PullRequestEvent)
    modifies pb
    ensures pb.fields == (old(pb.fields) + [Field(Action, "PR にアンアサインされました", true)] + [Field("対象者", e.assignee, false)] + [Field(Link, ItemUrl(e.pullRequest), false)])
  {
    pb.InsertField(Action, "PR にアンアサインされました", [true]);
    pb.InsertField("対象者", e.assignee, []);
    pb.InsertField(Link, ItemUrl(e.pullRequest), []);
  }

  /** The InsertField calls of the "review_requested" case of buildPullRequestTargetEvent. */
  method InsertPullRequestTargetReviewRequested(pb: PayloadBuilder, e: PullRequestEvent)
    modifies pb
    ensures pb.fields == (old(pb.fields) + [Field(Action, "PR のレビューをお願いされました", true)] + [Field("対象者", e.reviewer, false)] + [Field(Link, ItemUrl(e.pullRequest), false)])
  {
    pb.InsertField(Action, "PR のレビューをお願いされました", [true]);
    pb.InsertField("対象者", e.reviewer, []);
    pb.InsertField(Link, ItemUrl(e.pullRequest), []);
  }

  /** The InsertField calls of the "review_request_removed" case of buildPullRequestTargetEvent. */
  method InsertPullRequestTargetReviewRequestRemoved(pb: PayloadBuilder, e: PullRequestEvent)
    modifies pb
    ensures pb.fields == (old(pb.fields) + [Field(Action, "PR のレビュー要求が取下げされました", true)] + [Field("対象者", e.reviewer, false)] + [Field(Link, ItemUrl(e.pullRequest), false)])
  {
    pb.InsertField(Action, "PR のレビュー要求が取下げされました", [true]);
    pb.InsertField("対象者", e.reviewer, []);
    pb.InsertField(Link, ItemUrl(e.pullRequest), []);
  }

  /** The InsertField calls of the "ready_for_review" case of buildPullRequestTargetEvent. */
  method InsertPullRequestTargetReadyForReview(pb: PayloadBuilder, e: PullRequestEvent)
    modifies pb
    ensures pb.fields == (old(pb.fields) + [Field(Action, "PR の準備が整いました", true)] + [Field(Link, ItemUrl(e.pullRequest), false)])
  {
    pb.InsertField(Action, "PR の準備が整いました", [true]);
    pb.InsertField(Link, ItemUrl(e.pullRequest), []);
  }

  /** The InsertField calls of the "labeled" case of buildPullRequestTargetEvent. */
  method InsertPullRequestTargetLabeled(pb: PayloadBuilder, e: PullRequestEvent)
    modifies pb
    ensures pb.fields == (old(pb.fields) + [Field(Action, "PR にラベルが付与されました", true)] + [Field("ラベル", e.labelName, false)] + [Field(Link, ItemUrl(e.pullRequest), false)])
  {
    pb.InsertField(Action, "PR にラベルが付与されました", [true]);
    pb.InsertField("ラベル", e.labelName, []);
    pb.InsertField(Link, ItemUrl(e.pullRequest), []);
  }

  /** The InsertField calls of the "unlabeled" case of buildPullRequestTargetEvent. */
  method InsertPullRequestTargetUnlabeled(pb: PayloadBuilder, e: PullRequestEvent)
    modifies pb
    ensures pb.fields == (old(pb.fields) + [Field(Action, "PR のラベルが外されました", true)] + [Field("ラベル", e.labelName, false)] + [Field(Link, ItemUrl(e.pullRequest), false)])
  {
    pb.InsertField(Action, "PR のラベルが外されました", [true]);
    pb.InsertField("ラベル", e.labelName, []);
    pb.InsertField(Link, ItemUrl(e.pullRequest), []);
  }

  /** The InsertField calls of the "locked" case of buildPullRequestTargetEvent. */
  method InsertPullRequestTargetLocked(pb: PayloadBuilder, e: PullRequestEvent)
    modifies pb
    ensures pb.fields == (old(pb.fields) + [Field(Action, "PR がロックされました", true)] + [Field(Link, ItemUrl(e.pullRequest), false)])
  {
    pb.InsertField(Action, "PR がロックされました", [true]);
    pb.InsertField(Link, ItemUrl(e.pullRequest), []);
  }

  /** The InsertField calls of the "unlocked" case of buildPullRequestTargetEvent. */
  method InsertPullRequestTargetUnlocked(pb: PayloadBuilder, e: PullRequestEvent)
    modifies pb
    ensures pb.fields == (old(pb.fields) + [Field(Action, "PR のロックが解除されました", true)] + [Field(Link, ItemUrl(e.pullRequest), false)])
  {
    pb.InsertField(Action, "PR のロックが解除されました", [true]);
    pb.InsertField(Link, ItemUrl(e.pullRequest), []);
  }

  /** The InsertField calls of the "synchronize" case of buildPullRequestTargetEvent. */
  method InsertPullRequestTargetSynchronize(pb: PayloadBuilder, e: PullRequestEvent)
    modifies pb
    ensures pb.fields == (old(pb.fields) + [Field(Action, "PullRequestEvent synchronize", false)])
  {
    pb.InsertField(Action, "PullRequestEvent synchronize", []);
  }

  /** The InsertField calls of the default case of buildPullRequestTargetEvent. */
  method InsertPullRequestTargetOther(pb: PayloadBuilder, e: PullRequestEvent)
    modifies pb
    ensures pb.fields == (old(pb.fields) + [Field(Action, "PullRequestTargetEvent (" + e.action + ")", false)])
  {
    pb.InsertField(Action, "PullRequestTargetEvent (" + e.action + ")", []);
  }

  /** The InsertField calls of buildPullRequestTargetEvent, in order. */
  method InsertPullRequestTargetFields(pb: PayloadBuilder, e: PullRequestEvent)
    requires pb.fields == []
    modifies pb
    ensures pb.fields == PullRequestTargetRequests(e)
  {
    pb.InsertField(Account, Login(e.sender), [true]);
    match e.action {
      case "opened" =>
        InsertPullRequestTargetOpened(pb, e);
      case "edited" =>
        InsertPullRequestTargetEdited(pb, e);
      case "closed" =>
        InsertPullRequestTargetClosed(pb, e);
      case "reopened" =>
        InsertPullRequestTargetReopened(pb, e);
      case "assigned" =>
        InsertPullRequestTargetAssigned(pb, e);
      case "unassigned" =>
        InsertPullRequestTargetUnassigned(pb, e);
      case "review_requested" =>
        InsertPullRequestTargetReviewRequested(pb, e);
      case "review_request_removed" =>
        InsertPullRequestTargetReviewRequestRemoved(pb, e);
      case "ready_for_review" =>
        InsertPullRequestTargetReadyForReview(pb, e);
      case "labeled" =>
        InsertPullRequestTargetLabeled(pb, e);
      case "unlabeled" =>
        InsertPullRequestTargetUnlabeled(pb, e);
      case "locked" =>
        InsertPullRequestTargetLocked(pb, e);
      case "unlocked" =>
        InsertPullRequestTargetUnlocked(pb, e);
      case "synchronize" =>
        InsertPullRequestTargetSynchronize(pb, e);
      case _ =>
        InsertPullRequestTargetOther(pb, e);
    }
  }

  method BuildPullRequestTargetEvent(e: PullRequestEvent) returns (buf: Option<string>, err: Option<string>)
    ensures buf == Some(LegacyDocument(PullRequestTargetRequests(e)))
    ensures err == None
  {
    var pb := new PayloadBuilder();
    InsertPullRequestTargetFields(pb, e);
    buf, err := pb.Build();
  }

  /** The InsertField calls of the older buildPushEvent, in order. */
  method InsertPushFields(pb: PayloadBuilder, e: PushEvent)
    requires pb.fields == []
    modifies pb
    ensures pb.fields == PushRequests(e)
  {
    pb.InsertField(Account, Login(e.sender), [true]);
    pb.InsertField(Action, "プッシュされました", [true]);
    pb.InsertField("対象", e.ref, []);
    if e.commits.Some? {
      var text := CommitText(e.commits.value);
      pb.InsertField("Commit", text, []);
    }
    pb.InsertField(Link, e.repoUrl, []);
  }

  method BuildPushEvent(e: PushEvent) returns (buf: Option<string>, err: Option<string>)
    ensures buf == Some(LegacyDocument(PushRequests(e)))
    ensures err == None
  {
    var pb := new PayloadBuilder();
    InsertPushFields(pb, e);
    buf, err := pb.Build();
  }

  /** Without the skip rule every legacy document starts with the account
      field, whether or not the sender has a login. */
  lemma LegacyAccountFirst(ev: Event)
    requires !ev.Unwatched?
    ensures var fs := ReadLegacy(LegacyDocument(Requests(ev).value));
      fs.Some? && |fs.value| >= 1 && fs.value[0] == AccountField(ev)
  {
    LegacyRoundTrip(Requests(ev).value);
    AccountFirst(ev);
  }
}
