/** The batch encoder of `src/CRXPayload.js`: a transaction in the repository's
    line-oriented diff language, one line per operation,

      `+path : {"jcr:primaryType":…}`   create a node
      `>path : destination`             move a node
      `-path : `                        remove a node or a property
      `^path/property : json`           set a property

    plus the out-of-band attachments that carry date and binary values, keyed
    `path/property`, and finally the `:diff` field that carries the text. */
module Payload {
  import opened Common
  import opened Json
  import opened Text

  /** A property value as a caller hands it to `setProperty`. */
  datatype Value =
    | Undefined
    | Plain(json: Json)
    /** A `Date`, by the text its `toISOString` gives. */
    | Date(iso: string)
    | Buffer(bytes: seq<bv8>)
    /** An `fs.ReadStream`, by the file it reads. */
    | ReadStream(file: string)

  /** Values that travel as attachments instead of inline JSON. */
  predicate OutOfBand(v: Value)
  {
    v.Date? || v.Buffer? || v.ReadStream?
  }

  datatype Content = Utf8(text: string) | Bytes(bytes: seq<bv8>) | StreamOf(file: string)

  /** One field of the multipart form: its name, its content, its content type
      (`None` when none is given). */
  datatype Attachment = Attachment(key: string, content: Content, contentType: Option<string>)

  datatype Line =
    | CreateLine(path: string, primaryType: string)
    | MoveLine(path: string, destination: string)
    | RemoveNodeLine(path: string)
    | SetLine(path: string, property: string, value: Value)
    | RemovePropertyLine(path: string, property: string)

  const DefaultPrimaryType := "nt:unstructured"
  const DiffKey := ":diff"
  const DateContentType := "jcr-value/date"
  const BinaryContentType := "jcr-value/binary"

  /** The default parameter of `setProperty`: an omitted value is the empty string. */
  function Defaulted(value: Value): (v: Value)
    ensures v != Undefined
    ensures value != Undefined ==> v == value
    ensures value == Undefined ==> v == Plain(JString(""))
  {
    if value == Undefined then Plain(JString("")) else value
  }

  /** `JSON.stringify({'jcr:primaryType': primaryType})`. */
  function TypeDescription(primaryType: string): string
  {
    Stringify(JObject([(PrimaryTypeKey, JString(primaryType))]))
  }

  /** The inline payload of a set line: empty for values sent as attachments. */
  function Inline(v: Value): string
  {
    if OutOfBand(v) then "" else Stringify(Defaulted(v).json)
  }

  /** The text of one line of the transaction. */
  function Render(l: Line): string
  {
    match l
    case CreateLine(p, t) => "+" + p + " : " + TypeDescription(t)
    case MoveLine(p, d) => ">" + p + " : " + d
    case RemoveNodeLine(p) => "-" + p + " : "
    case SetLine(p, prop, v) => "^" + p + "/" + prop + " : " + Inline(v)
    case RemovePropertyLine(p, prop) => "-" + p + "/" + prop + " : "
  }

  /** The attachment `setProperty` adds for a line (see `AttachmentShape`). */
  function AttachmentFor(l: Line): seq<Attachment>
  {
    match l
    case SetLine(p, prop, v) =>
      var key := p + "/" + prop;
      (match v
       case Date(iso) => [Attachment(key, Utf8(iso), Some(DateContentType))]
       case Buffer(b) => [Attachment(key, Bytes(b), Some(BinaryContentType))]
       case ReadStream(f) => [Attachment(key, StreamOf(f), Some(BinaryContentType))]
       case _ => [])
    case _ => []
  }

  /** One attachment for a date or binary value, keyed by the property's full
      path and typed by the kind of value; none for any other line. */
  lemma AttachmentShape(l: Line)
    ensures |AttachmentFor(l)| == (if l.SetLine? && OutOfBand(l.value) then 1 else 0)
    ensures |AttachmentFor(l)| == 1 ==> AttachmentFor(l)[0].key == l.path + "/" + l.property
    ensures |AttachmentFor(l)| == 1 ==>
      AttachmentFor(l)[0].contentType == Some(if l.value.Date? then DateContentType else BinaryContentType)
  {
  }

  function AttachmentsOf(lines: seq<Line>): seq<Attachment>
  {
    if lines == [] then [] else AttachmentsOf(lines[..|lines| - 1]) + AttachmentFor(lines[|lines| - 1])
  }

  function Rendered(lines: seq<Line>): (r: seq<string>)
    ensures |r| == |lines|
    ensures forall k :: 0 <= k < |lines| ==> r[k] == Render(lines[k])
  {
    if lines == [] then [] else Rendered(lines[..|lines| - 1]) + [Render(lines[|lines| - 1])]
  }

  /** `toString`: the lines joined by line feeds. */
  function DiffText(lines: seq<Line>): string
  {
    Join(Rendered(lines), "\n")
  }

  /** What `getFormData` gives for a payload built only by the builders: the
      attachments in call order, then the `:diff` field. */
  function FormDataOf(lines: seq<Line>): (r: seq<Attachment>)
    ensures |r| >= 1 && r[|r| - 1] == Attachment(DiffKey, Utf8(DiffText(lines)), None)
  {
    AttachmentsOf(lines) + [Attachment(DiffKey, Utf8(DiffText(lines)), None)]
  }

  /** The attachments of a line sequence are those of its parts, in order. */
  lemma {:induction false} AttachmentsOfAppend(a: seq<Line>, b: seq<Line>)
    ensures AttachmentsOf(a + b) == AttachmentsOf(a) + AttachmentsOf(b)
    decreases |b|
  {
    if b != [] {
      var b' := b[..|b| - 1];
      assert (a + b)[..|a + b| - 1] == a + b';
      assert (a + b)[|a + b| - 1] == b[|b| - 1];
      AttachmentsOfAppend(a, b');
      assert AttachmentsOf(a + b) == AttachmentsOf(a + b') + AttachmentFor(b[|b| - 1]);
      assert AttachmentsOf(b) == AttachmentsOf(b') + AttachmentFor(b[|b| - 1]);
    } else {
      assert a + b == a;
    }
  }

  /** The create line of a type name needing no escapes, as it goes on the wire. */
  lemma CreateLineText(path: string, primaryType: string)
    requires AllVerbatim(primaryType)
    ensures Render(CreateLine(path, primaryType))
         == "+" + path + " : {\"jcr:primaryType\":\"" + primaryType + "\"}"
  {
    TypeDescriptionText(primaryType);
    CreateLineRegroup(path, primaryType);
  }

  lemma TypeDescriptionText(primaryType: string)
    requires AllVerbatim(primaryType)
    ensures TypeDescription(primaryType) == "{" + "\"jcr:primaryType\"" + ":" + ("\"" + primaryType + "\"") + "}"
  {
    TypeDescriptionQuotes(primaryType);
    PrimaryTypeKeyQuoted();
    QuoteVerbatim(primaryType);
  }

  lemma CreateLineRegroup(path: string, primaryType: string)
    ensures "+" + path + " : " + ("{" + "\"jcr:primaryType\"" + ":" + ("\"" + primaryType + "\"") + "}")
         == "+" + path + " : {\"jcr:primaryType\":\"" + primaryType + "\"}"
  {
  }

  lemma TypeDescriptionQuotes(primaryType: string)
    ensures TypeDescription(primaryType) == "{" + Quote(PrimaryTypeKey) + ":" + Quote(primaryType) + "}"
  {
    StringifyStringEntry(PrimaryTypeKey, primaryType);
  }

  /** A line of the transaction whose paths and names hold no line feed. */
  predicate OneLine(l: Line)
  {
    match l
    case CreateLine(p, _) => '\n' !in p
    case MoveLine(p, d) => '\n' !in p && '\n' !in d
    case RemoveNodeLine(p) => '\n' !in p
    case SetLine(p, prop, _) => '\n' !in p && '\n' !in prop
    case RemovePropertyLine(p, prop) => '\n' !in p && '\n' !in prop
  }

  lemma PrintableHasNoLineFeed(s: string)
    requires Printable(s)
    ensures '\n' !in s
  {
  }

  /** The JSON payloads never break a line: a line's text holds a line feed only
      where one of its paths or names does. */
  lemma RenderOneLine(l: Line)
    requires OneLine(l)
    ensures '\n' !in Render(l)
  {
    match l
    case CreateLine(p, t) =>
      StringifyPrintable(JObject([(PrimaryTypeKey, JString(t))]));
      PrintableHasNoLineFeed(TypeDescription(t));
    case SetLine(p, prop, v) =>
      if !OutOfBand(v) {
        StringifyPrintable(Defaulted(v).json);
        PrintableHasNoLineFeed(Inline(v));
      }
    case _ =>
  }

  /** `toString` can be read back: splitting the diff text at line feeds gives the
      lines in call order, provided no path or name holds a line feed. */
  lemma DiffTextSplits(lines: seq<Line>)
    requires |lines| >= 1
    requires forall k :: 0 <= k < |lines| ==> OneLine(lines[k])
    ensures Split(DiffText(lines), '\n') == Rendered(lines)
  {
    var r := Rendered(lines);
    forall k | 0 <= k < |r|
      ensures '\n' !in r[k]
    {
      RenderOneLine(lines[k]);
    }
    SplitJoin(r, '\n');
  }

  /** Appending a line leaves the earlier text in place and adds the new line last. */
  lemma {:induction false} DiffTextAppend(lines: seq<Line>, l: Line)
    ensures DiffText(lines + [l]) == if lines == [] then Render(l) else DiffText(lines) + "\n" + Render(l)
    decreases |lines|
  {
    var all := lines + [l];
    assert all[..|all| - 1] == lines;
    assert Rendered(all) == Rendered(lines) + [Render(l)];
    JoinAppend(Rendered(lines), Render(l), "\n");
  }

  lemma {:induction false} JoinAppend(parts: seq<string>, last: string, sep: string)
    ensures Join(parts + [last], sep) == if parts == [] then last else Join(parts, sep) + sep + last
    decreases |parts|
  {
    if |parts| > 1 {
      assert (parts + [last])[1..] == parts[1..] + [last];
      JoinAppend(parts[1..], last, sep);
    } else if |parts| == 1 {
      assert (parts + [last])[1..] == [last];
    }
  }

  /** The builder: `data` is the list of lines, `formData` the attachments added so far. */
  class CRXPayload {
    var data: seq<Line>
    var formData: seq<Attachment>

    /** Every attachment so far came from a set line, in the order of the lines. */
    ghost predicate Synced()
      reads this
    {
      formData == AttachmentsOf(data)
    }

    constructor ()
      ensures data == [] && formData == []
      ensures Synced()
    {
      data := [];
      formData := [];
    }

    method CreateNode(path: string, primaryType: Option<string>) returns (r: Result<CRXPayload>)
      modifies this
      ensures formData == old(formData)
      ensures path == "" ==> r == Failure(TypeError("path required as first argument")) && data == old(data)
      ensures path != "" ==> r == Success(this)
      ensures path != "" ==> data == old(data) + [CreateLine(path, primaryType.GetOr(DefaultPrimaryType))]
      ensures old(Synced()) ==> Synced()
    {
      if path == "" {
        return Failure(TypeError("path required as first argument"));
      }
      var line := CreateLine(path, primaryType.GetOr(DefaultPrimaryType));
      AttachmentsOfAppend(data, [line]);
      data := data + [line];
      r := Success(this);
    }

    method MoveNode(path: string, destination: string) returns (r: Result<CRXPayload>)
      modifies this
      ensures formData == old(formData)
      ensures path == "" ==> r == Failure(TypeError("current path required as first argument")) && data == old(data)
      ensures path != "" && destination == "" ==>
        r == Failure(TypeError("destination path required as second argument")) && data == old(data)
      ensures path != "" && destination != "" ==> r == Success(this) && data == old(data) + [MoveLine(path, destination)]
      ensures old(Synced()) ==> Synced()
    {
      if path == "" {
        return Failure(TypeError("current path required as first argument"));
      }
      if destination == "" {
        return Failure(TypeError("destination path required as second argument"));
      }
      AttachmentsOfAppend(data, [MoveLine(path, destination)]);
      data := data + [MoveLine(path, destination)];
      r := Success(this);
    }

    method RemoveNode(path: string) returns (r: Result<CRXPayload>)
      modifies this
      ensures formData == old(formData)
      ensures path == "" ==> r == Failure(TypeError("path required as first argument")) && data == old(data)
      ensures path != "" ==> r == Success(this) && data == old(data) + [RemoveNodeLine(path)]
      ensures old(Synced()) ==> Synced()
    {
      if path == "" {
        return Failure(TypeError("path required as first argument"));
      }
      AttachmentsOfAppend(data, [RemoveNodeLine(path)]);
      data := data + [RemoveNodeLine(path)];
      r := Success(this);
    }

    /** An omitted value (`Undefined`) is not refused: it becomes the empty string. */
    method SetProperty(path: string, property: string, value: Value) returns (r: Result<CRXPayload>)
      modifies this
      ensures path == "" ==> r == Failure(TypeError("path required as first argument"))
      ensures path != "" && property == "" ==> r == Failure(TypeError("property name required as second argument"))
      ensures r.Failure? ==> data == old(data) && formData == old(formData)
      ensures path != "" && property != "" ==> r == Success(this)
      ensures r.Success? ==> data == old(data) + [SetLine(path, property, Defaulted(value))]
      ensures r.Success? ==> formData == old(formData) + AttachmentFor(SetLine(path, property, Defaulted(value)))
      ensures old(Synced()) ==> Synced()
    {
      if path == "" {
        return Failure(TypeError("path required as first argument"));
      }
      if property == "" {
        return Failure(TypeError("property name required as second argument"));
      }
      var line := SetLine(path, property, Defaulted(value));
      AttachmentsOfAppend(data, [line]);
      formData := formData + AttachmentFor(line);
      data := data + [line];
      r := Success(this);
    }

    method RemoveProperty(path: string, property: string) returns (r: Result<CRXPayload>)
      modifies this
      ensures formData == old(formData)
      ensures path == "" ==> r == Failure(TypeError("path required as first argument")) && data == old(data)
      ensures path != "" && property == "" ==>
        r == Failure(TypeError("property name required as second argument")) && data == old(data)
      ensures path != "" && property != "" ==> r == Success(this) && data == old(data) + [RemovePropertyLine(path, property)]
      ensures old(Synced()) ==> Synced()
    {
      if path == "" {
        return Failure(TypeError("path required as first argument"));
      }
      if property == "" {
        return Failure(TypeError("property name required as second argument"));
      }
      AttachmentsOfAppend(data, [RemovePropertyLine(path, property)]);
      data := data + [RemovePropertyLine(path, property)];
      r := Success(this);
    }

    /** Appends the `:diff` field after everything already in the form; a second
        call appends a second one. */
    method GetFormData() returns (form: seq<Attachment>)
      modifies this
      ensures data == old(data)
      ensures formData == old(formData) + [Attachment(DiffKey, Utf8(DiffText(data)), None)]
      ensures form == formData
      ensures old(Synced()) ==> form == FormDataOf(data)
    {
      formData := formData + [Attachment(DiffKey, Utf8(ToString()), None)];
      form := formData;
    }

    function ToString(): string
      reads this
    {
      DiffText(data)
    }
  }
}
