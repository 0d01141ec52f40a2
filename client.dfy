/** The client of src/AEM.js: its configuration, the memoised CSRF token, and for
    every public operation what it throws synchronously, or what it posts, where,
    and what it does once the post succeeds. The transport is an oracle: a post
    is described by a `Plan`, and what the server answers is a parameter of
    `Settle`. */
module Client {
  import opened Common
  import opened Json
  import opened Text
  import opened Payload
  import opened Requests
  import opened UrlForm
  import Nodes

  const CrxEndpoint := "/crx/server/crx.default/jcr%3aroot"
  const TokenEndpoint := "/libs/granite/csrf/token.json"
  const CrxReferer := "/crx/de/index.jsp"
  const ActivationTreeEndpoint := "/etc/replication/treeactivation.html"
  const ReplicationEndpoint := "/crx/de/replication.jsp"
  const PageVersionEndpoint := "/bin/wcmcommand"

  const NoTokenPrefix := "No token found from server response: "
  const MimeRequired := "mimeType is required as the third argument when a stream or buffer is used"
  const PathParseError := "Error parsing path"
  const TokenKey := ":cq_csrf_token"

  /** JavaScript truthiness of a JSON value. */
  predicate Truthy(v: Json)
  {
    match v
    case JNull => false
    case JBool(b) => b
    case JNumber(n) => n != 0
    case JString(s) => s != ""
    case _ => true
  }

  /** Truthiness of a property read, `None` being `undefined`. */
  predicate Holds(v: Option<Json>)
  {
    v.Some? && Truthy(v.value)
  }

  /** The module-level `defaultConfig` object, key by key in its order. */
  function DefaultEntries(): seq<(string, Json)>
  {
    [("ACTIVATION_TREE_API_ENDPOINT", JString(ActivationTreeEndpoint)),
     ("CRX_API_ENDPOINT", JString(CrxEndpoint)),
     ("CRX_REFERER", JString(CrxReferer)),
     ("REPLICATION_API_ENDPOINT", JString(ReplicationEndpoint)),
     ("TOKEN_API_ENDPOINT", JString(TokenEndpoint)),
     ("PAGE_VERSION_ENDPOINT", JString(PageVersionEndpoint)),
     ("treeActivationParams", JObject([])),
     ("activationParams", JObject([])),
     ("deactivationParams", JObject([])),
     ("useToken", JBool(true))]
  }

  /** The one `defaultConfig` object all clients share: every constructor merges
      its caller's config into it and keeps a reference to it. */
  class SharedConfig {
    var entries: seq<(string, Json)>

    constructor ()
      ensures entries == DefaultEntries()
    {
      entries := DefaultEntries();
    }
  }

  /** A value in a template literal: `undefined` when the key is absent. */
  function Interpolate(v: Option<Json>): string
  {
    if v.None? then "undefined" else FormString(v.value)
  }

  /** The endpoint URLs, fixed when the client is constructed. */
  datatype Api = Api(instance: string, crx: string, token: string, activateTree: string,
                     replication: string, createVersion: string)

  function ApiFor(host: string, port: string, entries: seq<(string, Json)>): Api
  {
    var instance := host + ":" + port;
    Api(instance,
        instance + Interpolate(Lookup(entries, "CRX_API_ENDPOINT")),
        instance + Interpolate(Lookup(entries, "TOKEN_API_ENDPOINT")),
        instance + Interpolate(Lookup(entries, "ACTIVATION_TREE_API_ENDPOINT")),
        instance + Interpolate(Lookup(entries, "REPLICATION_API_ENDPOINT")),
        instance + Interpolate(Lookup(entries, "PAGE_VERSION_ENDPOINT")))
  }

  /** Without overrides the CRX and token endpoints are `host:port` followed by
      their default paths. */
  lemma DefaultEndpoints(host: string, port: string)
    ensures ApiFor(host, port, DefaultEntries()).crx == host + ":" + port + CrxEndpoint
    ensures ApiFor(host, port, DefaultEntries()).token == host + ":" + port + TokenEndpoint
  {
    DefaultCrx();
    DefaultToken();
  }

  lemma DefaultCrx()
    ensures Lookup(DefaultEntries(), "CRX_API_ENDPOINT") == Some(JString(CrxEndpoint))
  {
    var d := DefaultEntries();
    assert d[0].0[0] != 'C';
    LookupAt(d, 1, "CRX_API_ENDPOINT");
  }

  lemma DefaultToken()
    ensures Lookup(DefaultEntries(), "TOKEN_API_ENDPOINT") == Some(JString(TokenEndpoint))
  {
    var d := DefaultEntries();
    assert forall j :: 0 <= j < 4 ==> d[j].0[0] != 'T';
    LookupAt(d, 4, "TOKEN_API_ENDPOINT");
  }

  /** Because the defaults are one shared object, a key the first client's config
      set and the second's did not is still set for the second client. */
  lemma LaterClientInherits(first: seq<(string, Json)>, second: seq<(string, Json)>, key: string)
    requires DistinctKeys(first) && DistinctKeys(second)
    requires HasKey(first, key) && !HasKey(second, key)
    ensures Lookup(Assign(Assign(DefaultEntries(), first), second), key) == Lookup(first, key)
  {
    AssignLookup(Assign(DefaultEntries(), first), second, key);
    AssignLookup(DefaultEntries(), first, key);
  }

  /** What `resp.token` reads from the token endpoint's JSON answer. */
  function TokenField(resp: Json): Result<Option<Json>>
  {
    match resp
    case JNull => Failure(ReadOfUndefined("token"))
    case JObject(fields) => Success(Lookup(fields, "token"))
    case _ => Success(None)
  }

  /** `getToken`: the result and the new `this.token`. A truthy token, or a false
      `useToken`, answers without asking the server (`answer` is then unused);
      otherwise a truthy `token` field of the answer is stored and returned. */
  function TokenStep(token: Json, useToken: Option<Json>, answer: Result<Json>): (r: (Result<Json>, Json))
    ensures Truthy(token) ==> r == (Success(token), token)
    ensures r.1 == token || (r.0 == Success(r.1) && Truthy(r.1))
    ensures r.0.Success? && Holds(useToken) ==> Truthy(r.0.value) && r.1 == r.0.value
    ensures r.0.Failure? ==> r.1 == token
  {
    if Truthy(token) || !Holds(useToken) then (Success(if Truthy(token) then token else JNull), token)
    else if answer.Failure? then (Failure(answer.error), token)
    else
      var field := TokenField(answer.value);
      if field.Failure? then (Failure(field.error), token)
      else if Holds(field.value) then (Success(field.value.value), field.value.value)
      else (Failure(PlainError(NoTokenPrefix + Stringify(answer.value))), token)
  }

  /** The memo: once `getToken` has succeeded, every later call gives the same
      token and the same state again, whatever the server would answer. */
  lemma TokenMemo(token: Json, useToken: Option<Json>, answer: Result<Json>, later: Result<Json>)
    requires TokenStep(token, useToken, answer).0.Success?
    ensures TokenStep(TokenStep(token, useToken, answer).1, useToken, later) == TokenStep(token, useToken, answer)
  {
  }

  /** A call that does not fetch neither depends on the answer nor changes the state;
      with `useToken` off it always gives the stored token, or `null`. */
  lemma TokenWithoutFetch(token: Json, useToken: Option<Json>, answer: Result<Json>, other: Result<Json>)
    requires Truthy(token) || !Holds(useToken)
    ensures TokenStep(token, useToken, answer) == TokenStep(token, useToken, other)
    ensures TokenStep(token, useToken, answer).1 == token
    ensures !Truthy(token) ==> TokenStep(token, useToken, answer).0 == Success(JNull)
  {
  }

  /** A fetch succeeds exactly when the answer carries a truthy `token`, and a
      failed fetch leaves the state as it was. */
  lemma TokenFetched(token: Json, useToken: Option<Json>, answer: Result<Json>)
    requires !Truthy(token) && Holds(useToken)
    ensures TokenStep(token, useToken, answer).0.Success? <==>
      answer.Success? && answer.value.JObject? && Holds(Lookup(answer.value.fields, "token"))
    ensures TokenStep(token, useToken, answer).0.Success? ==>
      TokenStep(token, useToken, answer).1 == Lookup(answer.value.fields, "token").value &&
      TokenStep(token, useToken, answer).0.value == TokenStep(token, useToken, answer).1
    ensures TokenStep(token, useToken, answer).0.Failure? ==> TokenStep(token, useToken, answer).1 == token
  {
  }

  /** An instance of the client. `config` is the shared defaults object itself. */
  class AEM {
    const config: SharedConfig
    const username: Value
    const api: Api
    var token: Json

    constructor (host: string, port: string, username: Value, overrides: seq<(string, Json)>, shared: SharedConfig)
      modifies shared
      ensures shared.entries == Assign(old(shared.entries), overrides)
      ensures config == shared && this.username == username && token == JNull
      ensures api == ApiFor(host, port, shared.entries)
    {
      shared.entries := Assign(shared.entries, overrides);
      config := shared;
      this.username := username;
      api := ApiFor(host, port, shared.entries);
      token := JNull;
    }

    function UseToken(): Option<Json>
      reads this, config
    {
      Lookup(config.entries, "useToken")
    }

    /** `getToken`, with the server's answer to the token request as `answer`. */
    method GetToken(answer: Result<Json>) returns (r: Result<Json>)
      modifies this
      ensures (r, token) == TokenStep(old(token), UseToken(), answer)
    {
      if Truthy(token) || !Holds(Lookup(config.entries, "useToken")) {
        r := Success(if Truthy(token) then token else JNull);
        return;
      }
      if answer.Failure? {
        return Failure(answer.error);
      }
      var field := TokenField(answer.value);
      if field.Failure? {
        return Failure(field.error);
      }
      if Holds(field.value) {
        token := field.value.value;
        r := Success(token);
      } else {
        r := Failure(PlainError(NoTokenPrefix + Stringify(answer.value)));
      }
    }
  }

  /** What goes over the wire: the builder's multipart form, a url-encoded body,
      or the asset upload form (the file, then `_charset_=utf-8`). */
  datatype Body =
    | Multipart(parts: seq<Attachment>)
    | UrlEncoded(text: string)
    | AssetUpload(file: Value, contentType: string, filename: string)

  /** What a successful post turns into. */
  datatype After = ReRead(path: string) | ResolveNull | ResolveResponse

  datatype Plan = Plan(endpoint: string, body: Body, after: After)

  /** An operation either throws before any request, returns a promise that
      rejects before any request, or posts. */
  datatype Issued = Thrown(error: Exception) | Rejected(error: Exception) | Posted(plan: Plan)

  function Posting(form: Result<seq<Attachment>>, endpoint: string, after: After): (r: Issued)
    ensures r.Thrown? <==> form.Failure?
    ensures form.Failure? ==> r.error == form.error
    ensures form.Success? ==> r == Posted(Plan(endpoint, Multipart(form.value), after))
  {
    if form.Failure? then Thrown(form.error) else Posted(Plan(endpoint, Multipart(form.value), after))
  }

  /** The node and property operations. Each throws before posting exactly when
      its payload cannot be built, posts that payload to the CRX endpoint, and
      then re-reads the node it changed (the destination for `moveNode`), except
      `removeNode`, which resolves to `null`. */
  function CreateNode(api: Api, path: string, primaryType: Option<string>, props: seq<(string, Value)>): (r: Issued)
    ensures !r.Rejected?
    ensures r.Thrown? <==> path == "" || SetLines(path, WithoutPrimaryType(props)).Failure?
    ensures path == "" ==> r == Thrown(TypeError(PathRequired))
    ensures r.Posted? ==> (r.plan.endpoint == api.crx && r.plan.after == ReRead(path) &&
      r.plan.body == Multipart(FormDataOf([CreateLine(path, primaryType.GetOr(DefaultPrimaryType))] +
                                          SetLines(path, WithoutPrimaryType(props)).value)))
  {
    Posting(FormFor(CreateNodeLines(path, primaryType, props)), api.crx, ReRead(path))
  }

  function MoveNode(api: Api, path: string, destination: string): (r: Issued)
    ensures !r.Rejected?
    ensures r.Thrown? <==> path == "" || destination == ""
    ensures r.Posted? ==> r.plan == Plan(api.crx, Multipart(FormDataOf([MoveLine(path, destination)])), ReRead(destination))
  {
    Posting(FormFor(MoveNodeLines(path, destination)), api.crx, ReRead(destination))
  }

  function RemoveNode(api: Api, path: string): (r: Issued)
    ensures !r.Rejected?
    ensures r.Thrown? <==> path == ""
    ensures path == "" ==> r == Thrown(TypeError(PathRequired))
    ensures r.Posted? ==> r.plan == Plan(api.crx, Multipart(FormDataOf([RemoveNodeLine(path)])), ResolveNull)
  {
    Posting(FormFor(RemoveNodeLines(path)), api.crx, ResolveNull)
  }

  function SetProperties(api: Api, path: string, props: Option<seq<(string, Value)>>): (r: Issued)
    ensures !r.Rejected?
    ensures r.Thrown? <==> path == "" || props.None? || SetLines(path, props.value).Failure?
    ensures path == "" ==> r == Thrown(TypeError(PathRequired))
    ensures path != "" && props.None? ==> r == Thrown(TypeError(PropsRequired))
    ensures r.Posted? ==> (r.plan.endpoint == api.crx && r.plan.after == ReRead(path) &&
      r.plan.body == Multipart(FormDataOf(SetLines(path, props.value).value)))
  {
    Posting(FormFor(SetPropertiesLines(path, props)), api.crx, ReRead(path))
  }

  function SetProperty(api: Api, path: string, name: string, value: Value): (r: Issued)
    ensures !r.Rejected?
    ensures r.Thrown? <==> path == "" || name == "" || value == Undefined
    ensures path != "" && name != "" && value == Undefined ==> r == Thrown(TypeError(ValueRequired))
    ensures r.Posted? ==> r.plan == Plan(api.crx, Multipart(FormDataOf([SetLine(path, name, value)])), ReRead(path))
  {
    SetPropertyOneLine(path, name, value);
    Posting(FormFor(SetPropertyLines(path, name, value)), api.crx, ReRead(path))
  }

  function RemoveProperties(api: Api, path: string, names: Option<seq<string>>): (r: Issued)
    ensures !r.Rejected?
    ensures r.Thrown? <==> path == "" || names.None? || RemoveLines(path, names.value).Failure?
    ensures path != "" && names.None? ==> r == Thrown(TypeError(PropsRequired))
    ensures r.Posted? ==> (r.plan.endpoint == api.crx && r.plan.after == ReRead(path) &&
      r.plan.body == Multipart(FormDataOf(RemoveLines(path, names.value).value)))
  {
    Posting(FormFor(RemovePropertiesLines(path, names)), api.crx, ReRead(path))
  }

  function RemoveProperty(api: Api, path: string, name: string): (r: Issued)
    ensures !r.Rejected?
    ensures r.Thrown? <==> path == "" || name == ""
    ensures path != "" && name == "" ==> r == Thrown(TypeError(PropsRequired))
    ensures r.Posted? ==> r.plan == Plan(api.crx, Multipart(FormDataOf([RemovePropertyLine(path, name)])), ReRead(path))
  {
    RemovePropertyOneLine(path, name);
    Posting(FormFor(RemovePropertyLines(path, name)), api.crx, ReRead(path))
  }

  function UpdateFile(api: Api, username: Value, path: string, file: FileArg, encoding: Option<string>,
                      mimeType: Option<string>, createMode: bool, now: string, lookup: Option<string>): (r: Issued)
    ensures !r.Rejected?
    ensures r.Thrown? <==> path == "" || FileFalsy(file) || file.OtherArg?
    ensures path != "" && !FileFalsy(file) && file.OtherArg? ==> r == Thrown(TypeError(PathOrBuffer))
    ensures r.Posted? ==> (r.plan.endpoint == api.crx && r.plan.after == ReRead(path) &&
      r.plan.body == Multipart(FormDataOf(FileLines(path, createMode, now, username, MimeFor(file, mimeType, lookup),
                                                    DataOf(file), encoding))))
  {
    Posting(FormFor(UpdateFileLines(path, file, encoding, mimeType, createMode, now, username, lookup)),
            api.crx, ReRead(path))
  }

  /** `setProperty` posts the very payload `setProperties` posts for the one-key object. */
  lemma SetPropertyIsSetProperties(api: Api, path: string, name: string, value: Value)
    requires path != "" && name != "" && value != Undefined
    ensures SetProperty(api, path, name, value) == SetProperties(api, path, Some([(name, value)]))
  {
  }

  predicate LineTerminator(ch: char)
  {
    ch == '\n' || ch == '\r' || ch == '\U{2028}' || ch == '\U{2029}'
  }

  predicate NoTerminator(s: string)
  {
    forall i :: 0 <= i < |s| ==> !LineTerminator(s[i])
  }

  /** `path.match(/^(.+)\/([^\/]+)$/)`: the parent and the file name, split at the
      last `/`; the parent must be non-empty and `.` matches no line terminator. */
  function AssetPathSplit(path: string): Option<(string, string)>
  {
    if '/' !in path then None
    else
      var k := LastIndex(path, '/');
      if k == 0 || k == |path| - 1 || !NoTerminator(path[..k]) then None
      else Some((path[..k], path[k + 1..]))
  }

  /** A split puts the path back together, with a non-empty parent free of
      line terminators and a non-empty name free of `/`. */
  lemma AssetPathSplitSound(path: string)
    requires AssetPathSplit(path).Some?
    ensures var (parent, name) := AssetPathSplit(path).value;
      parent + "/" + name == path && parent != "" && NoTerminator(parent) && name != "" && '/' !in name
  {
    var k := LastIndex(path, '/');
    assert path == path[..k] + "/" + path[k + 1..];
  }

  /** Every such path splits, and in exactly that way. */
  lemma AssetPathSplitComplete(parent: string, name: string)
    requires parent != "" && NoTerminator(parent) && name != "" && '/' !in name
    ensures AssetPathSplit(parent + "/" + name) == Some((parent, name))
  {
    var path := parent + "/" + name;
    assert path[|parent|] == '/';
    var k := LastIndex(path, '/');
    assert path[|parent| + 1..] == name;
    assert k == |parent|;
    assert path[..k] == parent;
  }

  /** `createAsset(path, file, mimeType)`. A file given by name is streamed, with
      the MIME type `lookup` guesses for it or else `mimeType`; the check that a
      type is known then happens inside the promise, so it rejects. */
  function CreateAsset(api: Api, path: string, file: FileArg, mimeType: Option<string>, lookup: Option<string>): (r: Issued)
    ensures path == "" ==> r == Thrown(TypeError(PathRequired))
    ensures path != "" && FileFalsy(file) ==> r == Thrown(TypeError(FileRequired))
    ensures path != "" && !FileFalsy(file) && file.OtherArg? && Given(mimeType) && AssetPathSplit(path).Some? ==>
      r == Thrown(TypeError(PathOrBuffer))
    ensures r.Rejected? ==> file.PathArg? && r.error == TypeError(MimeRequired)
    ensures r.Posted? ==> !file.Missing? && !file.OtherArg? && r.plan.body.AssetUpload? && r.plan.body.file == DataOf(file)
    ensures r.Posted? && !file.PathArg? ==> Given(mimeType) && r.plan.body.contentType == mimeType.value
    ensures r.Rejected? <==>
      path != "" && !FileFalsy(file) && file.PathArg? && AssetPathSplit(path).Some? && !Given(lookup) && !Given(mimeType)
    ensures (path != "" && !FileFalsy(file) && AssetPathSplit(path).Some? &&
             ((file.PathArg? && (Given(lookup) || Given(mimeType))) || ((file.BufferArg? || file.StreamArg?) && Given(mimeType)))) ==>
        r.Posted? && r.plan.endpoint == api.instance + AssetPathSplit(path).value.0 + ".createasset.html" &&
        r.plan.after == ReRead(path) && r.plan.body.filename == AssetPathSplit(path).value.1
  {
    if path == "" then Thrown(TypeError(PathRequired))
    else if FileFalsy(file) then Thrown(TypeError(FileRequired))
    else if !file.PathArg? && !Given(mimeType) then Thrown(TypeError(MimeRequired))
    else
      var split := AssetPathSplit(path);
      if split.None? then Thrown(PlainError(PathParseError))
      else
        var (parent, filename) := split.value;
        var upload := api.instance + parent + ".createasset.html";
        match file
        case PathArg(name) =>
          var mime := if Given(lookup) then lookup else mimeType;
          if !Given(mime) then Rejected(TypeError(MimeRequired))
          else Posted(Plan(upload, AssetUpload(ReadStream(name), mime.value, filename), ReRead(path)))
        case BufferArg(bytes) => Posted(Plan(upload, AssetUpload(Buffer(bytes), mimeType.value, filename), ReRead(path)))
        case StreamArg(f) => Posted(Plan(upload, AssetUpload(ReadStream(f), mimeType.value, filename), ReRead(path)))
        case _ => Thrown(TypeError(PathOrBuffer))
  }

  /** A buffer or stream without a MIME type is refused before anything else is
      looked at, once path and file are given; and a posted asset goes to
      `<instance><parent>.createasset.html` and re-reads its own path. */
  lemma CreateAssetGuards(api: Api, path: string, file: FileArg, mimeType: Option<string>, lookup: Option<string>)
    ensures path != "" && !FileFalsy(file) && !file.PathArg? && !Given(mimeType) ==>
      CreateAsset(api, path, file, mimeType, lookup) == Thrown(TypeError(MimeRequired))
    ensures path != "" && !FileFalsy(file) && AssetPathSplit(path).None? && (file.PathArg? || Given(mimeType)) ==>
      CreateAsset(api, path, file, mimeType, lookup) == Thrown(PlainError(PathParseError))
    ensures CreateAsset(api, path, file, mimeType, lookup).Posted? ==>
      var plan := CreateAsset(api, path, file, mimeType, lookup).plan;
      AssetPathSplit(path).Some? &&
      plan.endpoint == api.instance + AssetPathSplit(path).value.0 + ".createasset.html" &&
      plan.after == ReRead(path) &&
      plan.body.AssetUpload? && plan.body.filename == AssetPathSplit(path).value.1 &&
      plan.body.contentType != ""
  {
  }

  /** `createAsset` of a file name rejects only when neither the guess nor the
      argument gives a MIME type. */
  lemma CreateAssetByName(api: Api, path: string, name: string, mimeType: Option<string>, lookup: Option<string>)
    requires path != "" && name != "" && AssetPathSplit(path).Some?
    ensures CreateAsset(api, path, PathArg(name), mimeType, lookup).Rejected? <==> !Given(lookup) && !Given(mimeType)
    ensures CreateAsset(api, path, PathArg(name), mimeType, lookup).Posted? ==>
      CreateAsset(api, path, PathArg(name), mimeType, lookup).plan.body.contentType ==
        (if Given(lookup) then lookup.value else mimeType.value)
  {
  }

  /** The fields of `createVersion`, in the code's order. */
  function VersionFields(path: string, title: Option<Json>, comment: Option<Json>): seq<(string, Json)>
  {
    [("_charset_", JString("utf-8")), (":status", JString("browser")), ("cmd", JString("createVersion")),
     ("label", title.GetOr(JString(""))), ("comment", comment.GetOr(JString(""))), ("path", JString(path))]
  }

  function CreateVersion(api: Api, path: string, title: Option<Json>, comment: Option<Json>): (r: Issued)
    ensures r.Thrown? <==> path == ""
    ensures path == "" ==> r.error == TypeError(PathRequired)
    ensures r.Posted? ==> r.plan == Plan(api.createVersion, UrlEncoded(EncodeBody(VersionFields(path, title, comment))), ReRead(path))
    ensures !r.Rejected?
  {
    if path == "" then Thrown(TypeError(PathRequired))
    else Posted(Plan(api.createVersion, UrlEncoded(EncodeBody(VersionFields(path, title, comment))), ReRead(path)))
  }

  /** The version body is the six `key=value` pairs joined by `&`. */
  lemma VersionBody(api: Api, path: string, title: Option<Json>, comment: Option<Json>)
    requires path != ""
    ensures CreateVersion(api, path, title, comment).Posted?
    ensures Split(CreateVersion(api, path, title, comment).plan.body.text, '&') == Pairs(VersionFields(path, title, comment))
    ensures |Pairs(VersionFields(path, title, comment))| == 6
  {
    BodySplits(VersionFields(path, title, comment));
  }

  /** The keys `Object.assign` copies from a params value of the configuration:
      an object's fields, the index keys of an array or a string, and nothing for
      a missing key, `null`, a number or a boolean. */
  function ParamsOf(entries: seq<(string, Json)>, key: string): seq<(string, Json)>
  {
    match Lookup(entries, key)
    case Some(v) => KeysView(v)
    case None => []
  }

  /** The tree-activation fields: the defaults, then the configured params over them. */
  function TreeActivationFields(path: string, onlyModified: Json, ignoreDeactivated: Json, token: Json,
                                params: seq<(string, Json)>): seq<(string, Json)>
  {
    Assign([("path", JString(path)), ("_charset_", JString("UTF-8")), ("onlymodified", onlyModified),
            ("ignoredeactivated", ignoreDeactivated), ("cmd", JString("activate")), (TokenKey, token)], params)
  }

  /** `replicationRequest(params)`: the token is written into the params after
      they are built. */
  function ReplicationFields(params: seq<(string, Json)>, token: Json): seq<(string, Json)>
  {
    Put(params, TokenKey, token)
  }

  function ReplicationPlan(api: Api, path: string, params: seq<(string, Json)>, token: Json): Plan
  {
    Plan(api.replication, UrlEncoded(EncodeBody(ReplicationFields(params, token))), ReRead(path))
  }

  /** The params `activateNode` and `deactivateNode` hand to `replicationRequest`:
      the path, the charset and the action, then the configured params over them. */
  function SingleParams(path: string, action: string, params: seq<(string, Json)>): seq<(string, Json)>
  {
    Assign([("path", JString(path)), ("_charset_", JString("UTF-8")), ("action", JString(action))], params)
  }

  /** `activateNode(path, treeActivation, onlyModified, ignoreDeactivated)`, with
      the outcome of its `getToken` call. In single-node mode `replicationRequest`
      asks for the token again, and gets the same one (`TokenMemo`). */
  function ActivateNode(api: Api, entries: seq<(string, Json)>, path: string, treeActivation: bool,
                        onlyModified: Option<Json>, ignoreDeactivated: Option<Json>, token: Result<Json>): (r: Issued)
    ensures token.Failure? ==> r == Rejected(token.error)
    ensures token.Success? ==> r.Posted? && r.plan.after == ReRead(path)
    ensures token.Success? && treeActivation ==>
      r.plan.endpoint == api.activateTree &&
      r.plan.body == UrlEncoded(EncodeBody(TreeActivationFields(path, onlyModified.GetOr(JBool(true)),
                                                                ignoreDeactivated.GetOr(JBool(true)), token.value,
                                                                ParamsOf(entries, "treeActivationParams"))))
    ensures token.Success? && !treeActivation ==>
      r.plan.endpoint == api.replication &&
      r.plan.body == UrlEncoded(EncodeBody(ReplicationFields(SingleParams(path, "replicate", ParamsOf(entries, "activationParams")),
                                                             token.value)))
  {
    if token.Failure? then Rejected(token.error)
    else if treeActivation then
      var fields := TreeActivationFields(path, onlyModified.GetOr(JBool(true)), ignoreDeactivated.GetOr(JBool(true)),
                                         token.value, ParamsOf(entries, "treeActivationParams"));
      Posted(Plan(api.activateTree, UrlEncoded(EncodeBody(fields)), ReRead(path)))
    else
      Posted(ReplicationPlan(api, path, SingleParams(path, "replicate", ParamsOf(entries, "activationParams")), token.value))
  }

  /** `deactivateNode(path)`, with the outcome of `getToken`. */
  function DeactivateNode(api: Api, entries: seq<(string, Json)>, path: string, token: Result<Json>): (r: Issued)
    ensures token.Failure? ==> r == Rejected(token.error)
    ensures token.Success? ==> r.Posted? && r.plan.after == ReRead(path) && r.plan.endpoint == api.replication
    ensures token.Success? ==>
      r.plan.body == UrlEncoded(EncodeBody(ReplicationFields(SingleParams(path, "replicatedelete",
                                                                          ParamsOf(entries, "deactivationParams")),
                                                             token.value)))
  {
    if token.Failure? then Rejected(token.error)
    else Posted(ReplicationPlan(api, path, SingleParams(path, "replicatedelete", ParamsOf(entries, "deactivationParams")),
                                token.value))
  }

  /** In a replication request the token always wins, and every other param keeps its value. */
  lemma ReplicationTokenWins(params: seq<(string, Json)>, token: Json, key: string)
    ensures Lookup(ReplicationFields(params, token), TokenKey) == Some(token)
    ensures key != TokenKey ==> Lookup(ReplicationFields(params, token), key) == Lookup(params, key)
  {
    PutLookup(params, TokenKey, token, key);
  }

  /** In a tree activation a configured param overrides the default of the same
      key, the token included. */
  lemma TreeParamsOverride(path: string, onlyModified: Json, ignoreDeactivated: Json, token: Json,
                           params: seq<(string, Json)>, key: string)
    requires DistinctKeys(params)
    ensures HasKey(params, key) ==>
      Lookup(TreeActivationFields(path, onlyModified, ignoreDeactivated, token, params), key) == Lookup(params, key)
    ensures !HasKey(params, TokenKey) ==>
      Lookup(TreeActivationFields(path, onlyModified, ignoreDeactivated, token, params), TokenKey) == Some(token)
  {
    var base := [("path", JString(path)), ("_charset_", JString("UTF-8")), ("onlymodified", onlyModified),
                 ("ignoredeactivated", ignoreDeactivated), ("cmd", JString("activate")), (TokenKey, token)];
    AssignLookup(base, params, key);
    AssignLookup(base, params, TokenKey);
    assert forall j :: 0 <= j < 5 ==> base[j].0[0] != ':';
    LookupAt(base, 5, TokenKey);
  }

  /** What the client sees of a post: the token request, then the transport's
      answer, then `checkStatus`. */
  function PostOutcome(token: Result<Json>, transport: Result<Response>): (r: Result<Response>)
    ensures r.Success? <==> token.Success? && transport.Success? && 200 <= transport.value.status < 300
    ensures r.Success? ==> r.value == transport.value
    ensures token.Failure? ==> r == Failure(token.error)
    ensures token.Success? && transport.Failure? ==> r == Failure(transport.error)
    ensures token.Success? && transport.Success? && r.Failure? ==> r.error == ResponseError(transport.value)
  {
    if token.Failure? then Failure(token.error)
    else if transport.Failure? then Failure(transport.error)
    else CheckStatus(transport.value)
  }

  /** How an operation's promise settles. A node is described by its path and the
      config its constructor parses (`None` for an uninitialised placeholder). */
  datatype Settled =
    | ResolvedNode(path: string, config: Option<seq<(string, Json)>>)
    | ResolvedNull
    | ResolvedResponse(response: Response)
    | SettledRejected(error: Exception)

  /** The keys `Object.keys` sees on a parsed answer: an object's own fields, the
      indices of an array or a string; none for other values. */
  function KeysView(v: Json): seq<(string, Json)>
  {
    match v
    case JObject(fields) => fields
    case JArray(items) => seq(|items|, i requires 0 <= i < |items| => (NatToDecimal(i), items[i]))
    case JString(s) => seq(|s|, i requires 0 <= i < |s| => (NatToDecimal(i), JString([s[i]])))
    case _ => []
  }

  /** `getNode(path)` inside a continuation, with the parsed answer of the read. */
  function GetNode(path: string, fetched: Result<Json>): (r: Settled)
    ensures path == "" ==> r == SettledRejected(TypeError(PathRequired))
    ensures r.ResolvedNode? ==> r.path == path
    ensures path != "" && fetched.Failure? ==> r == SettledRejected(fetched.error)
    ensures path != "" && fetched.Success? && !Truthy(fetched.value) ==> r == ResolvedNode(path, None)
    ensures path != "" && fetched.Success? && Truthy(fetched.value) ==>
      r == if Nodes.Fails(KeysView(fetched.value)) then SettledRejected(Nodes.NullValueError)
           else ResolvedNode(path, Some(KeysView(fetched.value)))
  {
    if path == "" then SettledRejected(TypeError(PathRequired))
    else if fetched.Failure? then SettledRejected(fetched.error)
    else if !Truthy(fetched.value) then ResolvedNode(path, None)
    else if Nodes.Fails(KeysView(fetched.value)) then SettledRejected(Nodes.NullValueError)
    else ResolvedNode(path, Some(KeysView(fetched.value)))
  }

  function Settle(after: After, posted: Result<Response>, fetched: Result<Json>): (r: Settled)
    ensures posted.Failure? ==> r == SettledRejected(posted.error)
    ensures posted.Success? && after.ResolveNull? ==> r == ResolvedNull
    ensures posted.Success? && after.ResolveResponse? ==> r == ResolvedResponse(posted.value)
    ensures r.ResolvedNode? ==> posted.Success? && after.ReRead? && r.path == after.path
    ensures r.ResolvedResponse? ==> posted.Success? && r.response == posted.value
    ensures posted.Success? && after.ReRead? ==> r == GetNode(after.path, fetched)
  {
    if posted.Failure? then SettledRejected(posted.error)
    else match after
      case ReRead(path) => GetNode(path, fetched)
      case ResolveNull => ResolvedNull
      case ResolveResponse => ResolvedResponse(posted.value)
  }

  /** A refused status rejects with the response attached, whatever the continuation. */
  lemma RefusedStatusRejects(after: After, token: Json, response: Response, fetched: Result<Json>)
    requires !(200 <= response.status < 300)
    ensures Settle(after, PostOutcome(Success(token), Success(response)), fetched) == SettledRejected(ResponseError(response))
  {
  }

  /** A re-read node is initialised from a truthy object answer exactly when no
      property value is `null`, and a falsy answer gives a placeholder. */
  lemma ReReadNode(path: string, fields: seq<(string, Json)>)
    requires path != ""
    ensures GetNode(path, Success(JObject(fields))) ==
      if Nodes.Fails(fields) then SettledRejected(Nodes.NullValueError) else ResolvedNode(path, Some(fields))
    ensures GetNode(path, Success(JNull)) == ResolvedNode(path, None)
  {
  }
}
