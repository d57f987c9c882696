/** The current attachment builder: an append-only field list that never takes
    a field with an empty title or value, the fixed presentation constants, an
    error variant, and serialisation of one attachment as the whole document. */
module AttachmentBuilder {
  import opened Wrappers
  import opened Wire

  const Color := "#2eb67d"
  const ErrorColor := "#e01e5a"
  const Fallback := "GitHub Notifitation"
  const TitleLink := "https://github.com/SongCastle/ggnb"
  const Title := "GitHub Notification"

  /** The title of the single field of an error attachment. */
  const ErrorTitle := "エラー"

  /** The optional trailing `short` argument: false when absent, otherwise the
      first value given, whatever follows it. */
  function GetShort(short: seq<bool>): (b: bool)
    ensures b <==> (short != [] && short[0])
  {
    if |short| == 0 then false else short[0]
  }

  /** The insertion rule: a field is kept only when its title and its value are
      both non-empty. */
  predicate Shown(f: Field) {
    f.title != "" && f.value != ""
  }

  /** What an attachment holds after the insertion requests `rs`, in order. */
  function Filled(rs: seq<Field>): (fs: seq<Field>)
    ensures |fs| <= |rs|
    decreases |rs|
  {
    if rs == [] then []
    else
      var last := rs[|rs| - 1];
      Filled(rs[..|rs| - 1]) + (if Shown(last) then [last] else [])
  }

  /** One more request adds its field at the end if the rule keeps it. */
  lemma FilledSnoc(rs: seq<Field>, f: Field)
    ensures Filled(rs + [f]) == Filled(rs) + (if Shown(f) then [f] else [])
  {
    assert (rs + [f])[..|rs|] == rs;
  }

  /** Exactly the shown requests are kept. */
  lemma {:induction false} FilledMembers(rs: seq<Field>, f: Field)
    ensures f in Filled(rs) <==> f in rs && Shown(f)
    decreases |rs|
  {
    if rs != [] {
      var init := rs[..|rs| - 1];
      FilledMembers(init, f);
      assert rs == init + [rs[|rs| - 1]];
    }
  }

  /** Keeping the shown fields of two request lists one after the other is the
      same as keeping those of the whole list: the rule looks at one field at a
      time and keeps their order. */
  lemma {:induction false} FilledAppend(a: seq<Field>, b: seq<Field>)
    ensures Filled(a + b) == Filled(a) + Filled(b)
    decreases |b|
  {
    if b == [] {
      assert a + b == a;
    } else {
      var last := b[|b| - 1];
      assert (a + b)[..|a + b| - 1] == a + b[..|b| - 1];
      FilledAppend(a, b[..|b| - 1]);
    }
  }

  /** Requests that all carry a title and a value are all kept. */
  lemma {:induction false} FilledAllShown(rs: seq<Field>)
    requires forall i :: 0 <= i < |rs| ==> Shown(rs[i])
    ensures Filled(rs) == rs
    decreases |rs|
  {
    if rs != [] {
      FilledAllShown(rs[..|rs| - 1]);
    }
  }

  /** Applying the rule twice changes nothing. */
  lemma FilledIdempotent(rs: seq<Field>)
    ensures Filled(Filled(rs)) == Filled(rs)
  {
    var fs := Filled(rs);
    forall i | 0 <= i < |fs| ensures Shown(fs[i]) {
      FilledMembers(rs, fs[i]);
    }
    FilledAllShown(fs);
  }

  /** A request list headed by a shown field gives a list headed by it. */
  lemma FilledHead(f: Field, rs: seq<Field>)
    requires Shown(f)
    ensures Filled([f] + rs) == [f] + Filled(rs)
  {
    FilledAppend([f], rs);
    assert [f][..0] == [];
  }

  /** The attachment with the fixed constants and the given fields. */
  function Document(fields: seq<Field>): AttachmentData {
    AttachmentData(Color, Fallback, fields, TitleLink, Title)
  }

  /** A document reads back as itself. */
  lemma DocumentRoundTrip(fields: seq<Field>)
    ensures ReadPayload(PayloadJson(Document(fields))) == Some(Document(fields))
  {
    PayloadRoundTrip(Document(fields));
  }

  /** The insertion requests of BuildError. */
  function ErrorRequests(err: string): seq<Field> {
    [Field(ErrorTitle, err, GetShort([]))]
  }

  /** The attachment BuildError serialises: the error color, the other constants,
      and the one error field unless the error text is empty. */
  function ErrorAttachment(err: string): (a: AttachmentData)
    ensures a.color == ErrorColor && a.fallback == Fallback
    ensures a.titleLink == TitleLink && a.title == Title
    ensures err != "" ==> a.fields == [Field(ErrorTitle, err, false)]
    ensures err == "" ==> a.fields == []
  {
    AttachmentData(ErrorColor, Fallback, Filled(ErrorRequests(err)), TitleLink, Title)
  }

  /** The error document reads back as the error color and the error text. */
  lemma ErrorDocumentRoundTrip(err: string)
    requires err != ""
    ensures ReadPayload(PayloadJson(ErrorAttachment(err))).Some?
    ensures ReadPayload(PayloadJson(ErrorAttachment(err))).value.color == ErrorColor
    ensures ReadPayload(PayloadJson(ErrorAttachment(err))).value.fields
         == [Field(ErrorTitle, err, false)]
  {
    PayloadRoundTrip(ErrorAttachment(err));
  }

  /** One attachment under construction. `requested` records every InsertField
      call, including the ones the rule turned away. */
  class Attachment {
    var color: string
    var fallback: string
    var fields: seq<Field>
    var titleLink: string
    var title: string
    ghost var requested: seq<Field>

    ghost predicate Valid()
      reads this
    {
      fields == Filled(requested)
    }

    /** The value the attachment would serialise as. */
    function Snapshot(): AttachmentData
      reads this
    {
      AttachmentData(color, fallback, fields, titleLink, title)
    }

    /** NewAttachment: the fixed constants and no fields (Go's nil slice). */
    constructor ()
      ensures Valid()
      ensures color == Color && fallback == Fallback
      ensures titleLink == TitleLink && this.title == Title
      ensures fields == [] && requested == []
    {
      color := Color;
      fallback := Fallback;
      fields := [];
      titleLink := TitleLink;
      title := Title;
      requested := [];
    }

    /** Appends (title, value, short) when neither title nor value is empty and
        otherwise leaves the attachment as it was. */
    method InsertField(title: string, value: string, short: seq<bool>)
      requires Valid()
      modifies this
      ensures Valid()
      ensures requested == old(requested) + [Field(title, value, GetShort(short))]
      ensures title != "" && value != "" ==> fields == old(fields) + [Field(title, value, GetShort(short))]
      ensures title == "" || value == "" ==> fields == old(fields)
      ensures color == old(color) && fallback == old(fallback)
      ensures titleLink == old(titleLink) && this.title == old(this.title)
    {
      var f := Field(title, value, GetShort(short));
      FilledSnoc(requested, f);
      if title != "" && value != "" {
        fields := fields + [f];
      }
      requested := requested + [f];
    }

    /** The serialised document. Marshalling strings and booleans cannot fail,
        so the error result is always absent. */
    method Build() returns (buf: Option<string>, err: Option<string>)
      ensures buf == Some(PayloadJson(Snapshot()))
      ensures err == None
    {
      buf := Some(PayloadJson(AttachmentData(color, fallback, fields, titleLink, title)));
      err := None;
    }
  }

  /** The error report: a fresh attachment in the error color carrying the
      error text as its only field. */
  method BuildError(e: string) returns (buf: Option<string>, err: Option<string>)
    ensures buf == Some(PayloadJson(ErrorAttachment(e)))
    ensures err == None
  {
    var a := new Attachment();
    a.color := ErrorColor;
    a.InsertField(ErrorTitle, e, []);
    assert a.requested == ErrorRequests(e);
    assert a.Snapshot() == ErrorAttachment(e);
    buf, err := a.Build();
  }
}
