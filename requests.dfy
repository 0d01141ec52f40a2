/** The transactions both clients (src/AEM.js and its older variant src/aem.js)
    build with a `CRXPayload` before posting them: the argument checks, and the
    lines each operation puts in its payload, in order. The functions give the
    outcome of each; the methods build it step by step as the code does. */
module Requests {
  import opened Common
  import opened Json
  import opened Payload

  const PathRequired := "path required as first argument"
  const PropertyNameRequired := "property name required as second argument"
  const NameRequired := "property name is required as second argument"
  const ValueRequired := "property value cannot be undefined"
  const PropsRequired := "object of properties is required as second argument"
  const FileRequired := "file is required as second argument"
  const PathOrBuffer := "second argument must be either a path or a Buffer"
  const DefaultMimeType := "application/octet-stream"

  /** The `props` object of `createNode` without its `jcr:primaryType` key. */
  function WithoutPrimaryType(props: seq<(string, Value)>): (r: seq<(string, Value)>)
    ensures forall k :: 0 <= k < |r| ==> r[k].0 != PrimaryTypeKey
    ensures forall k :: 0 <= k < |r| ==> r[k] in props
  {
    if props == [] then []
    else
      var earlier := WithoutPrimaryType(props[..|props| - 1]);
      var last := props[|props| - 1];
      if last.0 == PrimaryTypeKey then earlier else earlier + [last]
  }

  /** One set line per key, in key order; a key `''` makes `setProperty` throw. */
  function SetLines(path: string, props: seq<(string, Value)>): (r: Result<seq<Line>>)
    ensures r.Failure? ==> r.error == TypeError(PropertyNameRequired)
    ensures r.Success? ==> |r.value| == |props|
  {
    if props == [] then Success([])
    else
      var earlier := SetLines(path, props[..|props| - 1]);
      var last := props[|props| - 1];
      if earlier.Failure? then earlier
      else if last.0 == "" then Failure(TypeError(PropertyNameRequired))
      else Success(earlier.value + [SetLine(path, last.0, Defaulted(last.1))])
  }

  /** Each key becomes the set line at its own position, with its defaulted value. */
  lemma {:induction false} SetLinesShape(path: string, props: seq<(string, Value)>)
    requires SetLines(path, props).Success?
    ensures forall k :: 0 <= k < |props| ==>
      props[k].0 != "" && SetLines(path, props).value[k] == SetLine(path, props[k].0, Defaulted(props[k].1))
  {
    if props != [] {
      var init := props[..|props| - 1];
      var last := props[|props| - 1];
      assert SetLines(path, init).Success? && last.0 != "";
      SetLinesShape(path, init);
      assert SetLines(path, props).value == SetLines(path, init).value + [SetLine(path, last.0, Defaulted(last.1))];
      forall k | 0 <= k < |props|
        ensures props[k].0 != "" && SetLines(path, props).value[k] == SetLine(path, props[k].0, Defaulted(props[k].1))
      {
        if k < |init| {
          assert props[k] == init[k];
        }
      }
    }
  }

  /** Each name becomes the remove line at its own position. */
  lemma {:induction false} RemoveLinesShape(path: string, names: seq<string>)
    requires RemoveLines(path, names).Success?
    ensures forall k :: 0 <= k < |names| ==>
      names[k] != "" && RemoveLines(path, names).value[k] == RemovePropertyLine(path, names[k])
  {
    if names != [] {
      var init := names[..|names| - 1];
      RemoveLinesShape(path, init);
      forall k | 0 <= k < |names|
        ensures names[k] != "" && RemoveLines(path, names).value[k] == RemovePropertyLine(path, names[k])
      {
        if k < |init| {
          assert names[k] == init[k];
        }
      }
    }
  }

  /** Setting properties succeeds exactly when no key is empty. */
  lemma {:induction false} SetLinesSucceed(path: string, props: seq<(string, Value)>)
    ensures SetLines(path, props).Success? <==> forall k :: 0 <= k < |props| ==> props[k].0 != ""
  {
    if props != [] {
      var init := props[..|props| - 1];
      SetLinesSucceed(path, init);
      if (forall k :: 0 <= k < |props| ==> props[k].0 != "") {
        assert forall k :: 0 <= k < |init| ==> init[k].0 != "" by {
          forall k | 0 <= k < |init| ensures init[k].0 != "" {
            assert init[k] == props[k];
          }
        }
      }
    }
  }

  /** Setting properties can only fail for a missing name. */
  lemma SetLinesFailure(path: string, entries: seq<(string, Value)>)
    requires SetLines(path, entries).Failure?
    ensures SetLines(path, entries).error == TypeError(PropertyNameRequired)
  {
  }

  /** One remove line per name, in order; a name `''` makes `removeProperty` throw. */
  function RemoveLines(path: string, names: seq<string>): (r: Result<seq<Line>>)
    ensures r.Failure? ==> r.error == TypeError(PropertyNameRequired)
    ensures r.Success? ==> |r.value| == |names|
  {
    if names == [] then Success([])
    else
      var earlier := RemoveLines(path, names[..|names| - 1]);
      var last := names[|names| - 1];
      if earlier.Failure? then earlier
      else if last == "" then Failure(TypeError(PropertyNameRequired))
      else Success(earlier.value + [RemovePropertyLine(path, last)])
  }

  /** `createNode(path, type, props)`: one create line, then one set line per key
      of `props` apart from `jcr:primaryType`. */
  function CreateNodeLines(path: string, primaryType: Option<string>, props: seq<(string, Value)>): Result<seq<Line>>
  {
    if path == "" then Failure(TypeError(PathRequired))
    else
      var sets :- SetLines(path, WithoutPrimaryType(props));
      Success([CreateLine(path, primaryType.GetOr(DefaultPrimaryType))] + sets)
  }

  /** `setProperties(path, props)`; `None` stands for a falsy `props`. */
  function SetPropertiesLines(path: string, props: Option<seq<(string, Value)>>): Result<seq<Line>>
  {
    if path == "" then Failure(TypeError(PathRequired))
    else if props.None? then Failure(TypeError(PropsRequired))
    else SetLines(path, props.value)
  }

  /** `removeProperties(path, names)`; `None` stands for a falsy `names`. */
  function RemovePropertiesLines(path: string, names: Option<seq<string>>): Result<seq<Line>>
  {
    if path == "" then Failure(TypeError(PathRequired))
    else if names.None? then Failure(TypeError(PropsRequired))
    else RemoveLines(path, names.value)
  }

  /** A payload's form for a list of lines, or the error building it throws. */
  function FormFor(lines: Result<seq<Line>>): Result<seq<Attachment>>
  {
    if lines.Failure? then Failure(lines.error) else Success(FormDataOf(lines.value))
  }

  /** No set line of `createNode` names the primary type again: the type is only
      the one of the create line. */
  lemma CreateNodeTypeOnce(path: string, primaryType: Option<string>, props: seq<(string, Value)>)
    requires CreateNodeLines(path, primaryType, props).Success?
    ensures CreateNodeLines(path, primaryType, props).value[0] == CreateLine(path, primaryType.GetOr(DefaultPrimaryType))
    ensures forall k :: 1 <= k < |CreateNodeLines(path, primaryType, props).value| ==>
      CreateNodeLines(path, primaryType, props).value[k].SetLine? &&
      CreateNodeLines(path, primaryType, props).value[k].property != PrimaryTypeKey
  {
    var lines := CreateNodeLines(path, primaryType, props).value;
    var kept := WithoutPrimaryType(props);
    var sets := SetLines(path, kept);
    assert lines == [CreateLine(path, primaryType.GetOr(DefaultPrimaryType))] + sets.value;
    forall k | 1 <= k < |lines|
      ensures lines[k].SetLine? && lines[k].property != PrimaryTypeKey
    {
      assert lines[k] == sets.value[k - 1];
      SetLinesShape(path, kept);
    }
  }

  /** One more key, as the `forEach` over a properties object sees it. */
  lemma SetLinesStep(path: string, entries: seq<(string, Value)>, e: (string, Value))
    ensures SetLines(path, entries + [e]) ==
      if SetLines(path, entries).Failure? then SetLines(path, entries)
      else if e.0 == "" then Failure(TypeError(PropertyNameRequired))
      else Success(SetLines(path, entries).value + [SetLine(path, e.0, Defaulted(e.1))])
  {
    assert (entries + [e])[..|entries|] == entries;
  }

  lemma CreateNodeLinesOf(path: string, primaryType: Option<string>, props: seq<(string, Value)>)
    requires path != ""
    ensures CreateNodeLines(path, primaryType, props) ==
      var sets := SetLines(path, WithoutPrimaryType(props));
      if sets.Failure? then Failure(sets.error)
      else Success([CreateLine(path, primaryType.GetOr(DefaultPrimaryType))] + sets.value)
  {
  }

  /** The `forEach` over the keys of a properties object: one `setProperty` call
      per key, stopping at the first that throws. */
  method SetEach(payload: CRXPayload, path: string, entries: seq<(string, Value)>) returns (r: Result<()>)
    requires path != "" && payload.Synced()
    modifies payload
    ensures payload.Synced()
    ensures r.Failure? <==> SetLines(path, entries).Failure?
    ensures r.Failure? ==> r == Failure(SetLines(path, entries).error)
    ensures r.Success? ==> payload.data == old(payload.data) + SetLines(path, entries).value
  {
    ghost var start := payload.data;
    ghost var lines: seq<Line> := [];
    var i := 0;
    assert entries[..0] == [];
    while i < |entries|
      invariant 0 <= i <= |entries|
      invariant payload.Synced()
      invariant SetLines(path, entries[..i]) == Success(lines)
      invariant payload.data == start + lines
    {
      var stored := payload.SetProperty(path, entries[i].0, entries[i].1);
      if stored.Failure? {
        SetEachFails(path, entries, i);
        return Failure(stored.error);
      }
      ghost var line := SetLine(path, entries[i].0, Defaulted(entries[i].1));
      assert SetLines(path, entries[..i + 1]) == Success(lines + [line]) by {
        SetEachAdvances(path, entries, i, lines);
      }
      assert payload.data == start + (lines + [line]) by {
        AppendAssociates(start, lines, line);
      }
      lines := lines + [line];
      i := i + 1;
    }
    assert entries[..i] == entries;
    return Success(());
  }

  lemma SetEachFails(path: string, entries: seq<(string, Value)>, i: nat)
    requires i < |entries| && SetLines(path, entries[..i]).Success? && entries[i].0 == ""
    ensures SetLines(path, entries) == Failure(TypeError(PropertyNameRequired))
  {
    assert entries[..i + 1] == entries[..i] + [entries[i]];
    SetLinesStep(path, entries[..i], entries[i]);
    SetFailureExtends(path, entries, i + 1);
  }

  lemma SetEachAdvances(path: string, entries: seq<(string, Value)>, i: nat, lines: seq<Line>)
    requires i < |entries| && SetLines(path, entries[..i]) == Success(lines) && entries[i].0 != ""
    ensures SetLines(path, entries[..i + 1]) == Success(lines + [SetLine(path, entries[i].0, Defaulted(entries[i].1))])
  {
    assert entries[..i + 1] == entries[..i] + [entries[i]];
    SetLinesStep(path, entries[..i], entries[i]);
  }

  lemma AppendAssociates<T>(a: seq<T>, b: seq<T>, x: T)
    ensures (a + b) + [x] == a + (b + [x])
  {
  }

  /** `createNode`: one create line, then `setProperty` for every key but the primary type. */
  method CreateNodeForm(path: string, primaryType: Option<string>, props: seq<(string, Value)>)
    returns (r: Result<seq<Attachment>>)
    ensures r == FormFor(CreateNodeLines(path, primaryType, props))
  {
    if path == "" {
      return Failure(TypeError(PathRequired));
    }
    var payload := new CRXPayload();
    var created := payload.CreateNode(path, primaryType);
    var kept := WithoutPrimaryType(props);
    var each := SetEach(payload, path, kept);
    CreateNodeLinesOf(path, primaryType, props);
    if each.Failure? {
      return Failure(each.error);
    }
    var form := payload.GetFormData();
    return Success(form);
  }

  /** An empty key stops the payload wherever it comes. */
  lemma {:induction false} SetFailureExtends(path: string, props: seq<(string, Value)>, i: nat)
    requires i <= |props| && SetLines(path, props[..i]).Failure?
    ensures SetLines(path, props).Failure?
    decreases |props| - i
  {
    if i < |props| {
      assert props[..i + 1][..i] == props[..i];
      SetFailureExtends(path, props, i + 1);
    } else {
      assert props[..i] == props;
    }
  }

  lemma {:induction false} RemoveFailureExtends(path: string, names: seq<string>, i: nat)
    requires i <= |names| && RemoveLines(path, names[..i]).Failure?
    ensures RemoveLines(path, names).Failure?
    decreases |names| - i
  {
    if i < |names| {
      assert names[..i + 1][..i] == names[..i];
      RemoveFailureExtends(path, names, i + 1);
    } else {
      assert names[..i] == names;
    }
  }

  /** `setProperties(path, props)`: one `setProperty` call per key. */
  method SetPropertiesForm(path: string, props: Option<seq<(string, Value)>>) returns (r: Result<seq<Attachment>>)
    ensures r == FormFor(SetPropertiesLines(path, props))
  {
    if path == "" {
      return Failure(TypeError(PathRequired));
    }
    if props.None? {
      return Failure(TypeError(PropsRequired));
    }
    var payload := new CRXPayload();
    var each := SetEach(payload, path, props.value);
    if each.Failure? {
      return Failure(each.error);
    }
    assert payload.data == SetLines(path, props.value).value;
    var form := payload.GetFormData();
    return Success(form);
  }

  /** `setProperty(path, name, value)` of the client: its own guards, then the
      payload of `setProperties` with a one-key object. */
  function SetPropertyLines(path: string, name: string, value: Value): Result<seq<Line>>
  {
    if path == "" then Failure(TypeError(PathRequired))
    else if name == "" then Failure(TypeError(NameRequired))
    else if value == Undefined then Failure(TypeError(ValueRequired))
    else SetPropertiesLines(path, Some([(name, value)]))
  }

  /** A property that passes the guards becomes exactly one set line, holding the
      value itself; the guards reject exactly the falsy path, the falsy name and
      `undefined`. */
  lemma SetPropertyOneLine(path: string, name: string, value: Value)
    ensures SetPropertyLines(path, name, value).Success? <==> path != "" && name != "" && value != Undefined
    ensures SetPropertyLines(path, name, value).Success? ==>
      SetPropertyLines(path, name, value).value == [SetLine(path, name, value)]
  {
    if path != "" && name != "" && value != Undefined {
      SetLinesStep(path, [], (name, value));
      assert [] + [(name, value)] == [(name, value)];
    }
  }

  method SetPropertyForm(path: string, name: string, value: Value) returns (r: Result<seq<Attachment>>)
    ensures r == FormFor(SetPropertyLines(path, name, value))
  {
    if path == "" {
      return Failure(TypeError(PathRequired));
    }
    if name == "" {
      return Failure(TypeError(NameRequired));
    }
    if value == Undefined {
      return Failure(TypeError(ValueRequired));
    }
    r := SetPropertiesForm(path, Some([(name, value)]));
  }

  /** `removeProperty(path, name)`: its own guards (a falsy name gets the message
      of a missing properties object), then `removeProperties` with one name. */
  function RemovePropertyLines(path: string, name: string): Result<seq<Line>>
  {
    if path == "" then Failure(TypeError(PathRequired))
    else if name == "" then Failure(TypeError(PropsRequired))
    else RemovePropertiesLines(path, Some([name]))
  }

  lemma RemovePropertyOneLine(path: string, name: string)
    ensures RemovePropertyLines(path, name).Success? <==> path != "" && name != ""
    ensures RemovePropertyLines(path, name).Success? ==>
      RemovePropertyLines(path, name).value == [RemovePropertyLine(path, name)]
  {
    if path != "" && name != "" {
      assert [name][..0] == [];
      assert RemoveLines(path, [name]) == Success([] + [RemovePropertyLine(path, name)]);
    }
  }

  method RemovePropertyForm(path: string, name: string) returns (r: Result<seq<Attachment>>)
    ensures r == FormFor(RemovePropertyLines(path, name))
  {
    if path == "" {
      return Failure(TypeError(PathRequired));
    }
    if name == "" {
      return Failure(TypeError(PropsRequired));
    }
    r := RemovePropertiesForm(path, Some([name]));
  }

  /** `removeProperties(path, names)`: one `removeProperty` call per name. */
  method RemovePropertiesForm(path: string, names: Option<seq<string>>) returns (r: Result<seq<Attachment>>)
    ensures r == FormFor(RemovePropertiesLines(path, names))
  {
    if path == "" {
      return Failure(TypeError(PathRequired));
    }
    if names.None? {
      return Failure(TypeError(PropsRequired));
    }
    var all := names.value;
    var payload := new CRXPayload();
    var i := 0;
    while i < |all|
      invariant 0 <= i <= |all|
      invariant fresh(payload) && payload.Synced()
      invariant RemoveLines(path, all[..i]).Success?
      invariant payload.data == RemoveLines(path, all[..i]).value
    {
      assert all[..i + 1][..i] == all[..i];
      var removed := payload.RemoveProperty(path, all[i]);
      if removed.Failure? {
        RemoveFailureExtends(path, all, i + 1);
        return Failure(removed.error);
      }
      i := i + 1;
    }
    assert all[..i] == all;
    var form := payload.GetFormData();
    return Success(form);
  }

  /** `moveNode(path, destination)`: one move line. */
  function MoveNodeLines(path: string, destination: string): Result<seq<Line>>
  {
    if path == "" then Failure(TypeError("current path required as first argument"))
    else if destination == "" then Failure(TypeError("destination path required as second argument"))
    else Success([MoveLine(path, destination)])
  }

  /** `removeNode(path)`: one remove line. */
  function RemoveNodeLines(path: string): Result<seq<Line>>
  {
    if path == "" then Failure(TypeError(PathRequired)) else Success([RemoveNodeLine(path)])
  }

  method MoveNodeForm(path: string, destination: string) returns (r: Result<seq<Attachment>>)
    ensures r == FormFor(MoveNodeLines(path, destination))
    ensures path == "" ==> r == Failure(TypeError("current path required as first argument"))
    ensures path != "" && destination == "" ==> r == Failure(TypeError("destination path required as second argument"))
    ensures path != "" && destination != "" ==> r == Success(FormDataOf([MoveLine(path, destination)]))
  {
    var payload := new CRXPayload();
    var moved := payload.MoveNode(path, destination);
    if moved.Failure? {
      return Failure(moved.error);
    }
    var form := payload.GetFormData();
    return Success(form);
  }

  method RemoveNodeForm(path: string) returns (r: Result<seq<Attachment>>)
    ensures r == FormFor(RemoveNodeLines(path))
    ensures path == "" ==> r == Failure(TypeError(PathRequired))
    ensures path != "" ==> r == Success(FormDataOf([RemoveNodeLine(path)]))
  {
    var payload := new CRXPayload();
    var removed := payload.RemoveNode(path);
    if removed.Failure? {
      return Failure(removed.error);
    }
    var form := payload.GetFormData();
    return Success(form);
  }

  /** The `file` argument of `createFile`, `updateFile` and `createAsset`. */
  datatype FileArg =
    /** `undefined`, `null`, `false` or `0`. */
    | Missing
    /** A string, which names a file to stream from. */
    | PathArg(name: string)
    | BufferArg(bytes: seq<bv8>)
    | StreamArg(file: string)
    /** Any other truthy value. */
    | OtherArg

  predicate FileFalsy(file: FileArg)
  {
    file.Missing? || (file.PathArg? && file.name == "")
  }

  /** A truthy string argument. */
  predicate Given(s: Option<string>)
  {
    s.Some? && s.value != ""
  }

  /** The lines of `updateFile` for a buffer or stream: in create mode the
      `nt:file` node and its `nt:resource` content node first, then the
      modification date, the user, the MIME type and the data, and the encoding
      last when one is given. */
  function FileLines(path: string, createMode: bool, now: string, username: Value, mimeType: string,
                     data: Value, encoding: Option<string>): seq<Line>
  {
    var content := path + "/jcr:content";
    NodeLines(path, createMode) + ContentLines(content, now, username, mimeType, data) + EncodingLines(content, encoding)
  }

  /** The `nt:file` node and its content node, in create mode only. */
  function NodeLines(path: string, createMode: bool): seq<Line>
  {
    if createMode then [CreateLine(path, "nt:file"), CreateLine(path + "/jcr:content", "nt:resource")] else []
  }

  /** The four properties every stored file gets on its content node. */
  function ContentLines(content: string, now: string, username: Value, mimeType: string, data: Value): seq<Line>
  {
    [SetLine(content, "jcr:lastModified", Date(now)),
     SetLine(content, "jcr:lastModifiedBy", Defaulted(username)),
     SetLine(content, "jcr:mimeType", Plain(JString(mimeType))),
     SetLine(content, "jcr:data", data)]
  }

  /** The encoding property, when an encoding is given. */
  function EncodingLines(content: string, encoding: Option<string>): seq<Line>
  {
    if Given(encoding) then [SetLine(content, "jcr:encoding", Plain(JString(encoding.value)))] else []
  }

  /** `updateFile(path, file, encoding, mimeType, createMode)`. A string names a
      file that is streamed instead, with the MIME type `lookup` guesses for it
      when it guesses one; `now` is the clock's ISO time. */
  function UpdateFileLines(path: string, file: FileArg, encoding: Option<string>, mimeType: Option<string>,
                           createMode: bool, now: string, username: Value, lookup: Option<string>): Result<seq<Line>>
  {
    if path == "" then Failure(TypeError(PathRequired))
    else if FileFalsy(file) then Failure(TypeError(FileRequired))
    else if file.OtherArg? then Failure(TypeError(PathOrBuffer))
    else Success(FileLines(path, createMode, now, username, MimeFor(file, mimeType, lookup), DataOf(file), encoding))
  }

  /** The MIME type stored for a file: the guess of `lookup` for a file named by
      path when it makes one, else the given type, else the default. */
  function MimeFor(file: FileArg, mimeType: Option<string>, lookup: Option<string>): string
  {
    if file.PathArg? && Given(lookup) then lookup.value else mimeType.GetOr(DefaultMimeType)
  }

  /** The data stored for a truthy file: a stream for a path or a stream, the buffer itself. */
  function DataOf(file: FileArg): (v: Value)
    requires file.PathArg? || file.BufferArg? || file.StreamArg?
    ensures v.Buffer? || v.ReadStream?
  {
    match file
    case PathArg(name) => ReadStream(name)
    case BufferArg(bytes) => Buffer(bytes)
    case StreamArg(f) => ReadStream(f)
  }

  /** The attachments of two and of four lines, one line at a time. */
  lemma AttachmentsOfTwo(l0: Line, l1: Line)
    ensures AttachmentsOf([l0, l1]) == AttachmentFor(l0) + AttachmentFor(l1)
  {
    assert [l0, l1][..1] == [l0];
    assert [l0][..0] == [];
    assert AttachmentsOf([l0]) == AttachmentsOf([]) + AttachmentFor(l0);
  }

  lemma AttachmentsOfFour(l0: Line, l1: Line, l2: Line, l3: Line)
    ensures AttachmentsOf([l0, l1, l2, l3]) ==
      AttachmentFor(l0) + AttachmentFor(l1) + AttachmentFor(l2) + AttachmentFor(l3)
  {
    assert [l0, l1, l2, l3][..3] == [l0, l1, l2];
    assert [l0, l1, l2][..2] == [l0, l1];
    AttachmentsOfTwo(l0, l1);
  }

  /** The data of a stored file always travels as the one binary attachment, keyed
      `path/jcr:content/jcr:data`, and the modification date as the only other one. */
  lemma FileAttachments(path: string, createMode: bool, now: string, username: Value, mimeType: string,
                        data: Value, encoding: Option<string>)
    requires data.Buffer? || data.ReadStream?
    requires !OutOfBand(username)
    ensures AttachmentsOf(FileLines(path, createMode, now, username, mimeType, data, encoding)) ==
      AttachmentFor(SetLine(path + "/jcr:content", "jcr:lastModified", Date(now))) +
      AttachmentFor(SetLine(path + "/jcr:content", "jcr:data", data))
  {
    var content := path + "/jcr:content";
    var front := NodeLines(path, createMode);
    var middle := ContentLines(content, now, username, mimeType, data);
    var tail := EncodingLines(content, encoding);
    AttachmentsOfAppend(front + middle, tail);
    AttachmentsOfAppend(front, middle);
    NodeLinesInline(path, createMode);
    ContentAttachments(content, now, username, mimeType, data);
    EncodingInline(content, encoding);
  }

  lemma NodeLinesInline(path: string, createMode: bool)
    ensures AttachmentsOf(NodeLines(path, createMode)) == []
  {
    if createMode {
      AttachmentsOfTwo(CreateLine(path, "nt:file"), CreateLine(path + "/jcr:content", "nt:resource"));
    }
  }

  lemma EncodingInline(content: string, encoding: Option<string>)
    ensures AttachmentsOf(EncodingLines(content, encoding)) == []
  {
    if Given(encoding) {
      assert EncodingLines(content, encoding)[..0] == [];
    }
  }

  lemma ContentAttachments(content: string, now: string, username: Value, mimeType: string, data: Value)
    requires !OutOfBand(username)
    ensures AttachmentsOf(ContentLines(content, now, username, mimeType, data)) ==
      AttachmentFor(SetLine(content, "jcr:lastModified", Date(now))) + AttachmentFor(SetLine(content, "jcr:data", data))
  {
    var l1 := SetLine(content, "jcr:lastModifiedBy", Defaulted(username));
    var l2 := SetLine(content, "jcr:mimeType", Plain(JString(mimeType)));
    AttachmentsOfFour(SetLine(content, "jcr:lastModified", Date(now)), l1, l2, SetLine(content, "jcr:data", data));
    assert AttachmentFor(l1) == [] && AttachmentFor(l2) == [];
  }

  /** `updateFile` for a buffer or stream: the builder's calls in the code's order. */
  method FileForm(path: string, createMode: bool, now: string, username: Value, mime: string,
                  data: Value, encoding: Option<string>) returns (form: seq<Attachment>)
    requires path != "" && (data.Buffer? || data.ReadStream?)
    ensures form == FormDataOf(FileLines(path, createMode, now, username, mime, data, encoding))
  {
    var content := path + "/jcr:content";
    var payload := new CRXPayload();
    var step: Result<CRXPayload>;
    if createMode {
      step := payload.CreateNode(path, Some("nt:file"));
      step := payload.CreateNode(content, Some("nt:resource"));
    }
    assert payload.data == NodeLines(path, createMode);
    SetContent(payload, content, now, username, mime, data);
    ghost var middle := payload.data;
    if Given(encoding) {
      step := payload.SetProperty(content, "jcr:encoding", Plain(JString(encoding.value)));
    }
    assert payload.data == middle + EncodingLines(content, encoding);
    form := payload.GetFormData();
  }

  /** The four `setProperty` calls every stored file makes on its content node. */
  method SetContent(payload: CRXPayload, content: string, now: string, username: Value, mime: string, data: Value)
    requires content != "" && payload.Synced() && (data.Buffer? || data.ReadStream?)
    modifies payload
    ensures payload.Synced()
    ensures payload.data == old(payload.data) + ContentLines(content, now, username, mime, data)
  {
    ghost var d0 := payload.data;
    var step := payload.SetProperty(content, "jcr:lastModified", Date(now));
    ghost var d1 := payload.data;
    step := payload.SetProperty(content, "jcr:lastModifiedBy", username);
    ghost var d2 := payload.data;
    step := payload.SetProperty(content, "jcr:mimeType", Plain(JString(mime)));
    ghost var d3 := payload.data;
    step := payload.SetProperty(content, "jcr:data", data);
    Append4(d0, d1, d2, d3, payload.data,
            SetLine(content, "jcr:lastModified", Defaulted(Date(now))),
            SetLine(content, "jcr:lastModifiedBy", Defaulted(username)),
            SetLine(content, "jcr:mimeType", Defaulted(Plain(JString(mime)))),
            SetLine(content, "jcr:data", Defaulted(data)));
    ContentLinesDefaulted(content, now, username, mime, data);
  }

  lemma Append4<T>(d0: seq<T>, d1: seq<T>, d2: seq<T>, d3: seq<T>, d4: seq<T>, a: T, b: T, c: T, d: T)
    requires d1 == d0 + [a] && d2 == d1 + [b] && d3 == d2 + [c] && d4 == d3 + [d]
    ensures d4 == d0 + [a, b, c, d]
  {
  }

  lemma ContentLinesDefaulted(content: string, now: string, username: Value, mime: string, data: Value)
    requires data.Buffer? || data.ReadStream?
    ensures ContentLines(content, now, username, mime, data) ==
      [SetLine(content, "jcr:lastModified", Defaulted(Date(now))),
       SetLine(content, "jcr:lastModifiedBy", Defaulted(username)),
       SetLine(content, "jcr:mimeType", Defaulted(Plain(JString(mime)))),
       SetLine(content, "jcr:data", Defaulted(data))]
  {
  }

  /** `updateFile(path, file, encoding, mimeType, createMode)`, dispatching on the file argument. */
  method UpdateFileForm(path: string, file: FileArg, encoding: Option<string>, mimeType: Option<string>,
                        createMode: bool, now: string, username: Value, lookup: Option<string>)
    returns (r: Result<seq<Attachment>>)
    ensures r == FormFor(UpdateFileLines(path, file, encoding, mimeType, createMode, now, username, lookup))
  {
    if path == "" {
      return Failure(TypeError(PathRequired));
    }
    if FileFalsy(file) {
      return Failure(TypeError(FileRequired));
    }
    if file.OtherArg? {
      return Failure(TypeError(PathOrBuffer));
    }
    var mime := MimeFor(file, mimeType, lookup);
    var data := DataOf(file);
    var form := FileForm(path, createMode, now, username, mime, data, encoding);
    assert UpdateFileLines(path, file, encoding, mimeType, createMode, now, username, lookup) ==
      Success(FileLines(path, createMode, now, username, mime, data, encoding));
    return Success(form);
  }
}
