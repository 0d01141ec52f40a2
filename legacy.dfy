/** The legacy client of src/aem.js: the same payloads as the current client,
    always fetching a CSRF token, posting every payload to the CRX endpoint and
    resolving with the raw response instead of re-reading the node. */
module LegacyClient {
  import opened Common
  import opened Json
  import opened Payload
  import opened Requests
  import Client
  import UrlForm

  /** The CRX endpoint `${host}:${port}` plus the fixed path. */
  function CrxUrl(host: string, port: string): string
  {
    host + ":" + port + Client.CrxEndpoint
  }

  /** The legacy client has no `useToken` switch: it behaves like the current
      one with the switch on. */
  const AlwaysUseToken: Option<Json> := Some(JBool(true))

  /** The arguments of a `fetch` the client issues: where, the `CSRF-Token`
      and `Referer` headers (`None` for `undefined`), and the body. */
  datatype Request = Request(url: string, csrfToken: Json, referer: Option<Json>, body: Client.Body)

  class LegacyAEM {
    const host: string
    const port: string
    const username: Value
    const crx: string
    const tokenUrl: string
    const referer: string
    var token: Json

    constructor (host: string, port: string, username: Value)
      ensures this.host == host && this.port == port && this.username == username
      ensures crx == host + ":" + port + Client.CrxEndpoint && tokenUrl == host + ":" + port + Client.TokenEndpoint
      ensures referer == host + ":" + port + Client.CrxReferer && token == JNull
    {
      this.host := host;
      this.port := port;
      this.username := username;
      crx := CrxUrl(host, port);
      tokenUrl := host + ":" + port + Client.TokenEndpoint;
      referer := host + ":" + port + Client.CrxReferer;
      token := JNull;
    }

    /** The own properties the constructor assigns, in order (`username` and
        `auth` are not part of this model). */
    function Own(): seq<(string, Json)>
      reads this
    {
      [("host", JString(host)), ("port", JString(port)),
       ("api", JObject([("crx", JString(crx)), ("token", JString(tokenUrl))])),
       ("referer", JString(referer)), ("token", token)]
    }

    /** The request `sendRequest` issues as written: its `Referer` header reads
        `this.referrer`, a property the constructor never assigns. */
    function RequestAsWritten(body: Client.Body): Request
      reads this
    {
      Request(crx, token, UrlForm.Lookup(Own(), "referrer"), body)
    }

    /** The request with the header read from the property the constructor sets. */
    function RequestFor(body: Client.Body): Request
      reads this
    {
      Request(crx, token, UrlForm.Lookup(Own(), "referer"), body)
    }

    /** `getToken`, with the server's answer to the token request as `answer`. */
    method GetToken(answer: Result<Json>) returns (r: Result<Json>)
      modifies this
      ensures (r, token) == Client.TokenStep(old(token), AlwaysUseToken, answer)
    {
      if Client.Truthy(token) {
        return Success(token);
      }
      if answer.Failure? {
        return Failure(answer.error);
      }
      var field := Client.TokenField(answer.value);
      if field.Failure? {
        return Failure(field.error);
      }
      if Client.Holds(field.value) {
        token := field.value.value;
        r := Success(token);
      } else {
        r := Failure(PlainError(Client.NoTokenPrefix + Stringify(answer.value)));
      }
    }

    /** `sendRequest(formData)`: the token first, then one post to the CRX
        endpoint carrying the stored token and, as written, the `Referer` read
        from `this.referrer`, settled by `checkStatus`. `answer` is
        the token endpoint's answer and `transport` the post's. */
    method SendRequest(parts: seq<Attachment>, answer: Result<Json>, transport: Result<Response>)
      returns (sent: Option<Request>, r: Result<Response>)
      modifies this
      ensures token == Client.TokenStep(old(token), AlwaysUseToken, answer).1
      ensures Client.TokenStep(old(token), AlwaysUseToken, answer).0.Failure? ==>
        sent == None && r == Failure(Client.TokenStep(old(token), AlwaysUseToken, answer).0.error)
      ensures Client.TokenStep(old(token), AlwaysUseToken, answer).0.Success? ==>
        sent == Some(RequestAsWritten(Client.Multipart(parts))) && sent.value.csrfToken == token && Client.Truthy(token) &&
        r == Client.PostOutcome(Success(token), transport)
    {
      var t := GetToken(answer);
      if t.Failure? {
        return None, Failure(t.error);
      }
      sent := Some(RequestAsWritten(Client.Multipart(parts)));
      r := Client.PostOutcome(t, transport);
    }
  }

  /** As written, the value read for the `Referer` header is `undefined`, whatever
      the instance; read from the property the constructor assigns it is the CRX
      referer page. */
  lemma RefererDropped(c: LegacyAEM, body: Client.Body)
    ensures c.RequestAsWritten(body).referer == None
    ensures c.RequestFor(body) == c.RequestAsWritten(body).(referer := Some(JString(c.referer)))
  {
    var own := c.Own();
    assert UrlForm.Lookup(own, "referrer") == None by {
      assert forall k :: 0 <= k < |own| ==> own[k].0 != "referrer";
    }
    assert UrlForm.Lookup(own, "referer") == Some(JString(c.referer)) by {
      UrlForm.LookupAt(own, 3, "referer");
    }
  }

  /** A legacy operation is the current one posting to `crx` and resolving with
      the response. */
  function Retargeted(issued: Client.Issued, crx: string): (r: Client.Issued)
    ensures r.Posted? <==> issued.Posted?
    ensures !issued.Posted? ==> r == issued
    ensures issued.Posted? ==>
      r.plan.endpoint == crx && r.plan.body == issued.plan.body && r.plan.after == Client.ResolveResponse
  {
    if issued.Posted? then Client.Posted(issued.plan.(endpoint := crx, after := Client.ResolveResponse))
    else issued
  }

  function CreateNode(crx: string, path: string, primaryType: Option<string>, props: seq<(string, Value)>): (r: Client.Issued)
    ensures !r.Rejected?
    ensures r.Thrown? <==> path == "" || SetLines(path, WithoutPrimaryType(props)).Failure?
    ensures r.Posted? ==> r.plan.endpoint == crx && r.plan.after == Client.ResolveResponse
  {
    Client.Posting(FormFor(CreateNodeLines(path, primaryType, props)), crx, Client.ResolveResponse)
  }

  function MoveNode(crx: string, path: string, destination: string): (r: Client.Issued)
    ensures !r.Rejected?
    ensures r.Thrown? <==> path == "" || destination == ""
    ensures r.Posted? ==> r.plan.endpoint == crx && r.plan.after == Client.ResolveResponse
  {
    Client.Posting(FormFor(MoveNodeLines(path, destination)), crx, Client.ResolveResponse)
  }

  function RemoveNode(crx: string, path: string): (r: Client.Issued)
    ensures !r.Rejected?
    ensures r.Thrown? <==> path == ""
    ensures r.Posted? ==> r.plan.endpoint == crx && r.plan.after == Client.ResolveResponse
  {
    Client.Posting(FormFor(RemoveNodeLines(path)), crx, Client.ResolveResponse)
  }

  function SetProperties(crx: string, path: string, props: Option<seq<(string, Value)>>): (r: Client.Issued)
    ensures !r.Rejected?
    ensures r.Thrown? <==> path == "" || props.None? || SetLines(path, props.value).Failure?
    ensures r.Posted? ==> r.plan.endpoint == crx && r.plan.after == Client.ResolveResponse
  {
    Client.Posting(FormFor(SetPropertiesLines(path, props)), crx, Client.ResolveResponse)
  }

  function SetProperty(crx: string, path: string, name: string, value: Value): (r: Client.Issued)
    ensures !r.Rejected?
    ensures r.Thrown? <==> path == "" || name == "" || value == Undefined
    ensures r.Posted? ==> r.plan.endpoint == crx && r.plan.after == Client.ResolveResponse
  {
    SetPropertyOneLine(path, name, value);
    Client.Posting(FormFor(SetPropertyLines(path, name, value)), crx, Client.ResolveResponse)
  }

  function RemoveProperties(crx: string, path: string, names: Option<seq<string>>): (r: Client.Issued)
    ensures !r.Rejected?
    ensures r.Thrown? <==> path == "" || names.None? || RemoveLines(path, names.value).Failure?
    ensures r.Posted? ==> r.plan.endpoint == crx && r.plan.after == Client.ResolveResponse
  {
    Client.Posting(FormFor(RemovePropertiesLines(path, names)), crx, Client.ResolveResponse)
  }

  function UpdateFile(crx: string, username: Value, path: string, file: FileArg, encoding: Option<string>,
                      mimeType: Option<string>, createMode: bool, now: string, lookup: Option<string>): (r: Client.Issued)
    ensures !r.Rejected?
    ensures r.Thrown? <==> path == "" || FileFalsy(file) || file.OtherArg?
    ensures r.Posted? ==> r.plan.endpoint == crx && r.plan.after == Client.ResolveResponse
  {
    Client.Posting(FormFor(UpdateFileLines(path, file, encoding, mimeType, createMode, now, username, lookup)),
                   crx, Client.ResolveResponse)
  }

  /** Each legacy operation throws, or builds, exactly what the current client's
      operation of the same name does; only the endpoint and the continuation differ. */
  lemma SamePayloads(api: Client.Api, crx: string, username: Value, path: string, destination: string,
                       primaryType: Option<string>, props: seq<(string, Value)>, maybeProps: Option<seq<(string, Value)>>,
                       names: Option<seq<string>>, name: string, value: Value, file: FileArg,
                       encoding: Option<string>, mimeType: Option<string>, createMode: bool, now: string,
                       lookup: Option<string>)
    ensures CreateNode(crx, path, primaryType, props) == Retargeted(Client.CreateNode(api, path, primaryType, props), crx)
    ensures MoveNode(crx, path, destination) == Retargeted(Client.MoveNode(api, path, destination), crx)
    ensures RemoveNode(crx, path) == Retargeted(Client.RemoveNode(api, path), crx)
    ensures SetProperties(crx, path, maybeProps) == Retargeted(Client.SetProperties(api, path, maybeProps), crx)
    ensures SetProperty(crx, path, name, value) == Retargeted(Client.SetProperty(api, path, name, value), crx)
    ensures RemoveProperties(crx, path, names) == Retargeted(Client.RemoveProperties(api, path, names), crx)
    ensures UpdateFile(crx, username, path, file, encoding, mimeType, createMode, now, lookup) ==
      Retargeted(Client.UpdateFile(api, username, path, file, encoding, mimeType, createMode, now, lookup), crx)
  {
    SameNodePayloads(api, crx, path, destination, primaryType, props);
    SamePropertyPayloads(api, crx, path, maybeProps, names, name, value);
    SameFilePayload(api, crx, username, path, file, encoding, mimeType, createMode, now, lookup);
  }

  lemma SameNodePayloads(api: Client.Api, crx: string, path: string, destination: string,
                         primaryType: Option<string>, props: seq<(string, Value)>)
    ensures CreateNode(crx, path, primaryType, props) == Retargeted(Client.CreateNode(api, path, primaryType, props), crx)
    ensures MoveNode(crx, path, destination) == Retargeted(Client.MoveNode(api, path, destination), crx)
    ensures RemoveNode(crx, path) == Retargeted(Client.RemoveNode(api, path), crx)
  {
  }

  lemma SamePropertyPayloads(api: Client.Api, crx: string, path: string, maybeProps: Option<seq<(string, Value)>>,
                             names: Option<seq<string>>, name: string, value: Value)
    ensures SetProperties(crx, path, maybeProps) == Retargeted(Client.SetProperties(api, path, maybeProps), crx)
    ensures SetProperty(crx, path, name, value) == Retargeted(Client.SetProperty(api, path, name, value), crx)
    ensures RemoveProperties(crx, path, names) == Retargeted(Client.RemoveProperties(api, path, names), crx)
  {
  }

  lemma SameFilePayload(api: Client.Api, crx: string, username: Value, path: string, file: FileArg,
                        encoding: Option<string>, mimeType: Option<string>, createMode: bool, now: string,
                        lookup: Option<string>)
    ensures UpdateFile(crx, username, path, file, encoding, mimeType, createMode, now, lookup) ==
      Retargeted(Client.UpdateFile(api, username, path, file, encoding, mimeType, createMode, now, lookup), crx)
  {
  }

  /** Whatever a legacy operation posts resolves with the server's response when
      the status is a success, and rejects with it attached otherwise. */
  lemma LegacySettles(plan: Client.Plan, token: Json, response: Response, fetched: Result<Json>)
    requires plan.after == Client.ResolveResponse
    ensures Client.Settle(plan.after, Client.PostOutcome(Success(token), Success(response)), fetched) ==
      if 200 <= response.status < 300 then Client.ResolvedResponse(response)
      else Client.SettledRejected(ResponseError(response))
  {
  }
}
