/** The outbound message format: the Slack attachment document that
    encoding/json produces for the attachment structs, and a reader for exactly
    that shape, so that serialisation is proved to lose nothing. */
module Wire {
  import opened Wrappers
  import opened Json

  /** One (title, value, short) entry of an attachment. */
  datatype Field = Field(title: string, value: string, short: bool)

  /** The members of an attachment, listed in the order the struct declares them. */
  datatype AttachmentData = AttachmentData(
    color: string,
    fallback: string,
    fields: seq<Field>,
    titleLink: string,
    title: string)

  function BoolJson(b: bool): string {
    if b then "true" else "false"
  }

  /** A field object, with the keys in the order the struct declares them. */
  function FieldJson(f: Field): string {
    "{\"title\":" + Quote(f.title) + ",\"value\":" + Quote(f.value)
    + ",\"short\":" + BoolJson(f.short) + "}"
  }

  /** The comma-separated field objects of a non-empty list. */
  function FieldItems(fs: seq<Field>): string
    requires fs != []
    decreases |fs|
  {
    if |fs| == 1 then FieldJson(fs[0]) else FieldJson(fs[0]) + "," + FieldItems(fs[1..])
  }

  /** The value of "fields". An attachment that never received a field still
      holds Go's nil slice, which encoding/json writes as null. */
  function FieldsJson(fs: seq<Field>): string {
    if fs == [] then "null" else "[" + FieldItems(fs) + "]"
  }

  /** The whole document: one attachment, no white space. */
  function PayloadJson(a: AttachmentData): string {
    "{\"attachments\":[{\"color\":" + Quote(a.color)
    + ",\"fallback\":" + Quote(a.fallback)
    + ",\"fields\":" + FieldsJson(a.fields)
    + ",\"title_link\":" + Quote(a.titleLink)
    + ",\"title\":" + Quote(a.title) + "}]}"
  }

  /** What follows the literal prefix `p`, if `s` starts with it. */
  function Expect(p: string, s: string): (r: Option<string>)
    ensures r.Some? ==> |r.value| == |s| - |p|
  {
    if |p| <= |s| && s[..|p|] == p then Some(s[|p|..]) else None
  }

  function ReadBool(s: string): (r: Option<(bool, string)>)
    ensures r.Some? ==> |r.value.1| < |s|
  {
    if Expect("true", s).Some? then Some((true, s[4..]))
    else if Expect("false", s).Some? then Some((false, s[5..]))
    else None
  }

  /** Reads the key `key` followed by a string literal. */
  function ReadKeyed(key: string, s: string): (r: Option<(string, string)>)
    ensures r.Some? ==> |r.value.1| < |s|
  {
    var s1 :- Expect(key, s);
    ReadQuoted(s1)
  }

  /** Reads a field object; each stage below reads one member and hands the
      rest of the input to the next. */
  function ReadField(s: string): (r: Option<(Field, string)>)
    ensures r.Some? ==> |r.value.1| < |s|
  {
    var t :- ReadKeyed("{\"title\":", s);
    ReadFieldValue(t.0, t.1)
  }

  function ReadFieldValue(title: string, s: string): (r: Option<(Field, string)>)
    ensures r.Some? ==> |r.value.1| < |s|
  {
    var v :- ReadKeyed(",\"value\":", s);
    ReadFieldShort(title, v.0, v.1)
  }

  function ReadFieldShort(title: string, value: string, s: string): (r: Option<(Field, string)>)
    ensures r.Some? ==> |r.value.1| < |s|
  {
    var s1 :- Expect(",\"short\":", s);
    var b :- ReadBool(s1);
    var s2 :- Expect("}", b.1);
    Some((Field(title, value, b.0), s2))
  }

  /** Reads field objects separated by commas up to the closing bracket. */
  function ReadItems(s: string): (r: Option<(seq<Field>, string)>)
    ensures r.Some? ==> |r.value.1| < |s|
    decreases |s|
  {
    var f :- ReadField(s);
    if |f.1| > 0 && f.1[0] == ',' then
      var more :- ReadItems(f.1[1..]);
      Some(([f.0] + more.0, more.1))
    else if |f.1| > 0 && f.1[0] == ']' then
      Some(([f.0], f.1[1..]))
    else
      None
  }

  function ReadFields(s: string): (r: Option<(seq<Field>, string)>)
  {
    if Expect("null", s).Some? then Some(([], s[4..]))
    else if |s| > 0 && s[0] == '[' then ReadItems(s[1..])
    else None
  }

  /** Reads the key `key` followed by a "fields" value. */
  function ReadKeyedFields(key: string, s: string): Option<(seq<Field>, string)> {
    var s1 :- Expect(key, s);
    ReadFields(s1)
  }

  function ReadPayload(s: string): Option<AttachmentData> {
    var color :- ReadKeyed("{\"attachments\":[{\"color\":", s);
    var fallback :- ReadKeyed(",\"fallback\":", color.1);
    var fields :- ReadKeyedFields(",\"fields\":", fallback.1);
    var link :- ReadKeyed(",\"title_link\":", fields.1);
    var title :- ReadKeyed(",\"title\":", link.1);
    if title.1 == "}]}" then
      Some(AttachmentData(color.0, fallback.0, fields.0, link.0, title.0))
    else
      None
  }

  /** Regroupings of concatenations, stated over plain variables so that no
      encoder is unfolded while they are proved. */
  lemma Regroup2(a: string, b: string, c: string)
    ensures a + b + c == a + (b + c)
  {
  }

  lemma Regroup4(a: string, b: string, c: string, d: string, e: string)
    ensures a + b + c + d + e == a + (b + (c + d + e))
  {
  }

  lemma RegroupPayload(k0: string, v0: string, k1: string, v1: string, k2: string, v2: string,
                       k3: string, v3: string, k4: string, v4: string, e: string)
    ensures k0 + v0 + k1 + v1 + k2 + v2 + k3 + v3 + k4 + v4 + e
         == k0 + v0 + (k1 + v1 + (k2 + v2 + (k3 + v3 + (k4 + v4 + e))))
  {
  }

  lemma ExpectPrefix(p: string, r: string)
    ensures Expect(p, p + r) == Some(r)
  {
    assert (p + r)[..|p|] == p;
  }

  lemma BoolRoundTrip(x: bool, rest: string)
    ensures ReadBool(BoolJson(x) + rest) == Some((x, rest))
  {
    var s := BoolJson(x) + rest;
    if x {
      ExpectPrefix("true", rest);
      assert s[4..] == rest;
    } else {
      assert s[0] == 'f';
      assert Expect("true", s).None? by {
        if 4 <= |s| { assert s[..4][0] == 'f'; }
      }
      ExpectPrefix("false", rest);
      assert s[5..] == rest;
    }
  }

  lemma KeyedRoundTrip(key: string, x: string, rest: string)
    ensures ReadKeyed(key, key + Quote(x) + rest) == Some((x, rest))
  {
    assert key + Quote(x) + rest == key + (Quote(x) + rest);
    ExpectPrefix(key, Quote(x) + rest);
    QuoteRoundTrip(x, rest);
  }

  lemma ShortRoundTrip(title: string, value: string, short: bool, rest: string)
    ensures ReadFieldShort(title, value, ",\"short\":" + BoolJson(short) + "}" + rest)
         == Some((Field(title, value, short), rest))
  {
    var b := BoolJson(short) + ("}" + rest);
    assert ",\"short\":" + BoolJson(short) + "}" + rest == ",\"short\":" + b;
    ExpectPrefix(",\"short\":", b);
    BoolRoundTrip(short, "}" + rest);
    ExpectPrefix("}", rest);
  }

  lemma FieldJsonSplit(f: Field, rest: string)
    ensures FieldJson(f) + rest
         == "{\"title\":" + Quote(f.title)
          + (",\"value\":" + Quote(f.value) + (",\"short\":" + BoolJson(f.short) + "}" + rest))
  {
  }

  /** A field object followed by anything reads back as that field. */
  lemma FieldRoundTrip(f: Field, rest: string)
    ensures ReadField(FieldJson(f) + rest) == Some((f, rest))
  {
    var tail := ",\"short\":" + BoolJson(f.short) + "}" + rest;
    var v := ",\"value\":" + Quote(f.value) + tail;
    FieldJsonSplit(f, rest);
    KeyedRoundTrip("{\"title\":", f.title, v);
    KeyedRoundTrip(",\"value\":", f.value, tail);
    ShortRoundTrip(f.title, f.value, f.short, rest);
  }

  lemma LastItem(fs: seq<Field>, rest: string)
    requires |fs| == 1
    ensures ReadItems(FieldItems(fs) + "]" + rest) == Some((fs, rest))
  {
    Regroup2(FieldJson(fs[0]), "]", rest);
    FieldRoundTrip(fs[0], "]" + rest);
    assert ("]" + rest)[1..] == rest;
    assert [fs[0]] == fs;
  }

  lemma MoreItems(fs: seq<Field>, rest: string)
    requires |fs| > 1
    ensures ReadItems(FieldItems(fs) + "]" + rest)
         == match ReadItems(FieldItems(fs[1..]) + "]" + rest)
            case None => None
            case Some(m) => Some(([fs[0]] + m.0, m.1))
  {
    var t := FieldItems(fs[1..]) + "]" + rest;
    Regroup4(FieldJson(fs[0]), ",", FieldItems(fs[1..]), "]", rest);
    FieldRoundTrip(fs[0], "," + t);
    assert ("," + t)[1..] == t;
  }

  /** The comma-separated objects followed by the closing bracket read back as
      the same fields, in the same order. */
  lemma {:induction false} ItemsRoundTrip(fs: seq<Field>, rest: string)
    requires fs != []
    ensures ReadItems(FieldItems(fs) + "]" + rest) == Some((fs, rest))
    decreases |fs|
  {
    if |fs| == 1 {
      LastItem(fs, rest);
    } else {
      MoreItems(fs, rest);
      ItemsRoundTrip(fs[1..], rest);
      assert [fs[0]] + fs[1..] == fs;
    }
  }

  /** A bracketed list is read item by item. */
  lemma Bracketed(t: string, rest: string)
    ensures ReadFields("[" + t + "]" + rest) == ReadItems(t + "]" + rest)
  {
    assert "[" + t + "]" + rest == "[" + (t + "]" + rest);
    OpenBracket(t + "]" + rest);
  }

  /** The item reader stops at a closing bracket where an object must be. */
  lemma CloseNotItem(rest: string)
    ensures ReadItems("]" + rest) == None
  {
    var s := "]" + rest;
    assert Expect("{\"title\":", s).None? by {
      if |"{\"title\":"| <= |s| { assert s[..|"{\"title\":"|][0] == ']'; }
    }
  }

  /** A comma after an item commits the reader to a further item. */
  lemma DanglingComma(f: Field, t: string)
    requires ReadItems(t) == None
    ensures ReadItems(FieldJson(f) + "," + t) == None
  {
    FieldRoundTrip(f, "," + t);
    assert FieldJson(f) + "," + t == FieldJson(f) + ("," + t);
    assert ("," + t)[1..] == t;
  }

  lemma FieldsRoundTrip(fs: seq<Field>, rest: string)
    ensures ReadFields(FieldsJson(fs) + rest) == Some((fs, rest))
  {
    if fs == [] {
      ExpectPrefix("null", rest);
    } else {
      var t := FieldItems(fs) + "]" + rest;
      assert FieldsJson(fs) + rest == "[" + t;
      ItemsRoundTrip(fs, rest);
      OpenBracket(t);
    }
  }

  lemma OpenBracket(t: string)
    ensures ReadFields("[" + t) == ReadItems(t)
  {
    var s := "[" + t;
    assert Expect("null", s).None? by {
      if 4 <= |s| { assert s[..4][0] == '['; }
    }
    assert s[1..] == t;
  }

  lemma KeyedFieldsRoundTrip(key: string, fs: seq<Field>, rest: string)
    ensures ReadKeyedFields(key, key + FieldsJson(fs) + rest) == Some((fs, rest))
  {
    assert key + FieldsJson(fs) + rest == key + (FieldsJson(fs) + rest);
    ExpectPrefix(key, FieldsJson(fs) + rest);
    FieldsRoundTrip(fs, rest);
  }

  lemma PayloadSplit(a: AttachmentData)
    ensures PayloadJson(a)
         == "{\"attachments\":[{\"color\":" + Quote(a.color)
          + (",\"fallback\":" + Quote(a.fallback)
          + (",\"fields\":" + FieldsJson(a.fields)
          + (",\"title_link\":" + Quote(a.titleLink)
          + (",\"title\":" + Quote(a.title) + "}]}"))))
  {
    RegroupPayload("{\"attachments\":[{\"color\":", Quote(a.color), ",\"fallback\":", Quote(a.fallback),
      ",\"fields\":", FieldsJson(a.fields), ",\"title_link\":", Quote(a.titleLink),
      ",\"title\":", Quote(a.title), "}]}");
  }

  /** Serialisation loses nothing: the document reads back as the attachment it
      was made from, field order included. */
  lemma PayloadRoundTrip(a: AttachmentData)
    ensures ReadPayload(PayloadJson(a)) == Some(a)
  {
    var t4 := ",\"title\":" + Quote(a.title) + "}]}";
    var t3 := ",\"title_link\":" + Quote(a.titleLink) + t4;
    var t2 := ",\"fields\":" + FieldsJson(a.fields) + t3;
    var t1 := ",\"fallback\":" + Quote(a.fallback) + t2;
    PayloadSplit(a);
    KeyedRoundTrip("{\"attachments\":[{\"color\":", a.color, t1);
    KeyedRoundTrip(",\"fallback\":", a.fallback, t2);
    KeyedFieldsRoundTrip(",\"fields\":", a.fields, t3);
    KeyedRoundTrip(",\"title_link\":", a.titleLink, t4);
    KeyedRoundTrip(",\"title\":", a.title, "}]}");
  }

  /** Distinct attachments never serialise to the same document. */
  lemma PayloadInjective(a: AttachmentData, b: AttachmentData)
    requires PayloadJson(a) == PayloadJson(b)
    ensures a == b
  {
    PayloadRoundTrip(a);
    PayloadRoundTrip(b);
  }
}
