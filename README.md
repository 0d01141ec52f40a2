# node-aem-api, modelled in Dafny

A model of the core of `node-aem-api`, a small client for an Adobe Experience
Manager (AEM) author instance. It has five parts:

- **The payload builder.** `CRXPayload` collects the lines of a CRX "diff"
  transaction (`+path : {…}`, `>src : dst`, `-path`, `^path/prop : value`) and
  the binary attachments that travel beside them.
  - `Payload`: the builder, as a class over the line list and the form it builds.
  - `Json`: the JSON values the builder renders.
- **The node view.** `Node` turns a JSON dump of a repository node into
  properties and child placeholders. It resolves relative paths and dispatches
  its operations to the client.
  - `Nodes`: the node view.
  - `PathResolver`: the path arithmetic.
  - `PathExamples`: worked examples of that arithmetic.
- **The current client** (`src/AEM.js`).
  - `Requests`: the payload of every transaction.
  - `Client`: configuration and endpoints, the CSRF-token memo, each
    operation's guards and the plan it posts, and how a response settles
    ("re-read the node", "resolve with `null`", "resolve with the response").
  - `UrlForm`: the URL-encoded bodies of versioning and replication.
- **The legacy client** (`src/aem.js`).
  - `LegacyClient`: a class holding the token, its `sendRequest`, and its
    operations stated in terms of the current client's.
- **`throttledAll`** (`Promise.concurrent.js`). It runs the tasks an iterator
  yields with at most `concurrency` of them in flight.
  - `Throttle`: a class over its closure variables. Every method is proved
    against a step function on a state record. The lemmas about those
    functions state the scheduler's guarantees.

Shared helpers:
- `Common`: `Option`, `Result`, the error values and `checkStatus`.
- `Text`: split, join and repeat.

The outside world becomes parameters:
- The server's answers to `fetch` are a `Result<Response>` or a `Result<Json>`.
- The token endpoint's answer is an argument of `GetToken`.
- The clock is a `now` string.
- `mime.lookup` is an `Option<string>`.
- A task's settling is a `Completion` that an event loop would deliver.

Four behaviours are modelled as the code has them:
- **`throttledAll` can leave its promise pending.** Its promise never settles
  when the source is empty or when the concurrency is below one. With a
  concurrency of one it never resolves either. The promise resolves only from
  `didSucceed`, and only once `iteratorDone` is already set, but with one task
  in flight `iteratorDone` is set only in the `runNext` after the last success.
  A caller awaiting an empty source therefore waits forever
  (`Throttle.NothingToRunNeverSettles`, `Throttle.ThrottleBound`).
- **`relativeToAbsolute` can keep stale `..` segments.** It removes each `..`
  with the segment before it but does not look back after the removal. So
  `a/b/../../c` from `/x` leaves `/x/a/../c`, and `../b` from `/` gives `b`
  (`PathExamples.StaleParentKept`, `PathExamples.ParentOfRoot`).
- **A `Date` type hint has no effect.** `parseProps` falls through from `case 'Date'` into `default`, so the property keeps its raw value (`Nodes.PropsOf`).
- **`Lookup` reads the first entry.** Objects are key/value sequences in
  insertion order, and a lookup finds the first entry with the key. Integer
  keys are not reordered (see below).

## Model

| member | source | states |
|---|---|---|
| Common.CheckStatus | src/AEM.js:23-31 | a response passes exactly when its status is in 200..299; otherwise the error carries the response |
| Payload.Defaulted | src/CRXPayload.js:47-52 | an `undefined` value becomes exactly `''`; any other value is kept |
| Payload.CRXPayload.constructor | src/CRXPayload.js:9-12 | a new builder has no lines and no attachments |
| Payload.CRXPayload.CreateNode | src/CRXPayload.js:14-23 | an empty path throws and changes nothing; otherwise it appends one create line with the given type, or `nt:unstructured` when none is given, and returns the builder |
| Payload.CRXPayload.MoveNode | src/CRXPayload.js:25-36 | an empty source or destination throws its own message and changes nothing; otherwise it appends one move line |
| Payload.CRXPayload.RemoveNode | src/CRXPayload.js:38-45 | an empty path throws; otherwise it appends one remove line |
| Payload.CRXPayload.SetProperty | src/CRXPayload.js:47-67 | an empty path or name throws, with its own message, and changes nothing; otherwise it appends one set line with the defaulted value, plus the one attachment a date or binary value needs |
| Payload.CRXPayload.RemoveProperty | src/CRXPayload.js:69-80 | an empty path or name throws; otherwise it appends one property-remove line |
| Payload.CRXPayload.GetFormData | src/CRXPayload.js:82-85 | appends the `:diff` attachment holding the lines joined by line feeds; for a builder in sync, the form is every line's attachment in order followed by the diff |
| Payload.Rendered | src/CRXPayload.js:87-89 | one text per line, each the rendering of its line |
| Payload.FormDataOf | src/CRXPayload.js:82-85 | the last attachment of a form is always the diff text |
| Payload.AttachmentsOfAppend | src/CRXPayload.js:57-64 | the attachments of two line runs are those of each run, in order |
| Payload.CreateLineText | src/CRXPayload.js:19-20 | a create line reads `+path : {"jcr:primaryType":"type"}` for a plain type name |
| Payload.RenderOneLine | src/CRXPayload.js:19-79 | no rendered line holds a line feed when its paths and names hold none, because JSON escapes the values |
| Payload.DiffTextSplits | src/CRXPayload.js:82-89 | splitting the diff at line feeds gives back exactly the rendered lines |
| Payload.DiffTextAppend | src/CRXPayload.js:82-89 | one more line extends the diff by a line feed and that line's text |
| Json.StringifyPrintable | src/CRXPayload.js:19-66 | `JSON.stringify` output never holds a control character |
| Json.EscapeVerbatim | src/CRXPayload.js:19-20 | a string of plain characters is stringified unescaped |
| Text.JoinSplit | src/CRXPayload.js:82-89 | joining the parts of a split with the separator gives back the string |
| Text.SplitJoin | src/CRXPayload.js:82-89 | splitting a join of separator-free parts gives back the parts |
| PathResolver.DropDots | src/Node.js:80-100 | dropping `.` segments leaves no `.` segment and adds no new segment |
| PathResolver.CollapseKeepsPrefix | src/Node.js:89-97 | the collapsing loop never revisits the segments before its cursor |
| PathResolver.CollapseRemovesPairs | src/Node.js:89-97 | collapsing removes segments only in pairs and invents none |
| PathResolver.CollapseWithoutParent | src/Node.js:89-97 | a path without `..` segments is left as it is |
| PathResolver.ResolveHasNoDotSegment | src/Node.js:80-100 | a resolved relative path holds no `.` segment |
| PathResolver.DepthIsParentPrefix | src/Node.js:80-88 | a depth of `-n` means the same as `n` leading `../` segments |
| PathExamples.ParentOfBase | src/Node.js:80-100 | `../c` from `/a/b` is `/a/c` |
| PathExamples.NameThenParent | src/Node.js:80-100 | `b/../c` from `/a` is `/a/c` |
| PathExamples.ParentOfRoot | src/Node.js:80-100 | `../b` from `/` is `b`: the root's parent swallows the leading slash |
| PathExamples.StaleParentKept | src/Node.js:89-97 | `a/b/../../c` from `/x` is `/x/a/../c`: the loop does not step back after a removal |
| PathExamples.SiblingOfNode | src/Node.js:80-100 | a destination resolved at depth -1 from `/x` is a sibling: `b` gives `/b` |
| Nodes.KeysFromConfig | src/Node.js:37-72 | every property and every child of a parsed node comes from a non-meta key of its JSON, a property from a non-object value and a child from an object |
| Nodes.SortedEntry | src/Node.js:37-72 | for distinct keys, each entry is dropped (meta), becomes a property with its value, or becomes a child placeholder |
| Nodes.SplitOffFirst | src/Node.js:168-175 | a link splits at its first `/` into the direct child and the rest of the path |
| Nodes.Node.constructor | src/Node.js:12-17 | a new node has its path and no properties or children yet |
| Nodes.Node.FromConfig | src/Node.js:12-17 | a node built from a JSON dump fails exactly when a value is `null`, and otherwise holds the parsed properties and one child per object entry |
| Nodes.Node.ParseProps | src/Node.js:37-72 | parsing fails exactly on a `null` value and then keeps the old state; otherwise properties and children are those of the dump, and each child is a placeholder at the resolved path or a parsed node |
| Nodes.Node.FailsExtends | src/Node.js:37-72 | a `null` value among the first entries makes the whole dump fail |
| Nodes.Node.RelativeToAbsolute | src/Node.js:80-100 | the result is the resolved path; an absolute link is returned unchanged |
| Nodes.Node.GetChildAsWritten | src/Node.js:168-201 | the lookup as written: with no children map it throws a read of `undefined`; a child that is missing or fails the cache test is fetched from the server at the resolved path; a passing configuration is replaced by a new node, which is returned or asked for the rest of the path |
| Nodes.Node.GetChild | src/Node.js:168-201 | the same lookup, except that a child node already holding its properties is returned, or asked for the rest of the path, with no fetch and no change |
| Nodes.ParsedChildMissesCache | src/Node.js:176-177 | a child `parseProps` built from a configuration with its primary type fails the cache test as written but passes the corrected one |
| Nodes.Node.InitializeNodeAsWritten | src/Node.js:339-358 | as written, a node with properties resolves to itself and a node without them rejects with a read of `undefined` (`this.aem` is never set) |
| Nodes.PlaceholderNeverLoads | src/Node.js:339-358 | as written, a placeholder node can never load itself |
| Nodes.Node.InitializeNode | src/Node.js:339-358 | a loaded node resolves to itself unchanged; otherwise a failed fetch rejects and a fetched node's properties and children are adopted |
| Nodes.Node.GetPropertiesAsWritten | src/Node.js:143-149 | as written: a loaded node resolves with its properties; a placeholder rejects with the read of `undefined` that the written `initializeNode` raises |
| Nodes.Node.GetChildrenAsWritten | src/Node.js:155-161 | as written: a loaded node resolves with its children; a placeholder rejects with the same read of `undefined` |
| Nodes.Node.GetProperties | src/Node.js:143-149 | corrected (Findings, first row): resolves with the properties, loading the node through the corrected `initializeNode` when needed, and rejects with the load's error |
| Nodes.Node.GetChildren | src/Node.js:155-161 | corrected (Findings, first row): resolves with the children, loading the node through the corrected `initializeNode` when needed, and rejects with the load's error |
| Nodes.Node.CreateChild | src/Node.js:210-212 | asks the client to create the node at the link resolved against this path |
| Nodes.Node.MoveChild | src/Node.js:220-222 | moves the resolved child to a destination resolved one level up, i.e. among this node's siblings |
| Nodes.Node.RemoveChild | src/Node.js:229-231 | removes the resolved child |
| Nodes.Node.Move | src/Node.js:302-304 | moves this node to a destination resolved among its siblings |
| Nodes.Node.Remove | src/Node.js:310-312 | removes this node's own path |
| UrlForm.EncodeComponent | src/AEM.js:307-309 | `encodeURIComponent` output holds only unreserved characters and `%XX` escapes |
| UrlForm.DecodeEncode | src/AEM.js:307-309 | percent-decoding an encoded component gives back its UTF-8 bytes |
| UrlForm.EncodeUnreserved | src/AEM.js:307-309 | a component of unreserved characters is sent as it is |
| UrlForm.SafeExcludes | src/AEM.js:307-309 | an encoded component never holds `&` or `=` |
| UrlForm.BodySplits | src/AEM.js:307-309 | a form body splits at `&` into one `key=value` pair per field, in key order, and each pair splits at `=` into the two encoded parts |
| UrlForm.Pairs | src/AEM.js:307-309 | one encoded pair per field, in order |
| UrlForm.Lookup | src/AEM.js:551-558 | a key is found exactly when the object has it |
| UrlForm.PutLookup | src/AEM.js:625-630 | assigning a key makes it read the new value and leaves every other key as it was |
| UrlForm.PutKeepsOrder | src/AEM.js:625-630 | assigning a key keeps every existing key in its place and appends a new one |
| UrlForm.AssignLookup | src/AEM.js:551-558 | after `Object.assign`, a key reads the source's value when the source has it and the target's otherwise |
| UrlForm.AssignKeepsOrder | src/AEM.js:551-558 | `Object.assign` keeps the target's keys in their places |
| Requests.WithoutPrimaryType | src/AEM.js:91-113 | the extra properties of `createNode` never repeat the primary type and come from the given properties |
| Requests.SetLines | src/AEM.js:186-208 | one set line per key; the only failure is a missing property name |
| Requests.SetLinesShape | src/AEM.js:186-208 | when the payload builds, every key is non-empty and line `k` sets key `k` to its defaulted value, in order |
| Requests.SetLinesSucceed | src/AEM.js:186-208 | setting properties succeeds exactly when no key is empty |
| Requests.SetLinesFailure | src/AEM.js:186-208 | a failing `setProperties` fails with the missing-name error |
| Requests.RemoveLines | src/AEM.js:242-266 | one remove line per name; the only failure is a missing property name |
| Requests.RemoveLinesShape | src/AEM.js:242-266 | when the payload builds, every name is non-empty and line `k` removes name `k`, in order |
| Requests.CreateNodeTypeOnce | src/AEM.js:91-113 | the payload of `createNode` starts with the create line and no later line sets the primary type again |
| Requests.SetLinesStep | src/AEM.js:197-199 | one more key appends its one line, or fails the whole payload |
| Requests.SetEach | src/AEM.js:197-199 | the loop over the keys fails exactly when the specification does, and otherwise appends exactly the specified lines to the builder |
| Requests.CreateNodeForm | src/AEM.js:91-113 | the form `createNode` builds is the one its line specification gives, and it throws the same errors |
| Requests.SetFailureExtends | src/AEM.js:197-199 | an empty key fails the payload wherever it comes |
| Requests.RemoveFailureExtends | src/AEM.js:253-255 | an empty name fails the payload wherever it comes |
| Requests.SetPropertiesForm | src/AEM.js:186-208 | the form `setProperties` builds is the specified one for a given or missing object |
| Requests.SetPropertyOneLine | src/AEM.js:217-234 | `setProperty` succeeds exactly for a path, a name and a defined value, and then posts one set line |
| Requests.SetPropertyForm | src/AEM.js:217-234 | the form `setProperty` builds is the specified one |
| Requests.RemovePropertyOneLine | src/AEM.js:274-284 | `removeProperty` succeeds exactly for a path and a name, and then posts one remove line |
| Requests.RemovePropertyForm | src/AEM.js:274-284 | the form `removeProperty` builds is the specified one |
| Requests.RemovePropertiesForm | src/AEM.js:242-266 | the form `removeProperties` builds is the specified one for given or missing names |
| Requests.MoveNodeForm | src/AEM.js:121-140 | an empty path or destination throws its message; otherwise the form is one move line |
| Requests.RemoveNodeForm | src/AEM.js:147-160 | an empty path throws; otherwise the form is one remove line |
| Requests.FileAttachments | src/AEM.js:432-492 | a stored file's data is the single binary attachment, keyed by the content node's `jcr:data` |
| Requests.FileForm | src/AEM.js:451-490 | the builder calls of `updateFile` give the form of its specified lines: the create lines in create mode, then `jcr:lastModified`, `jcr:lastModifiedBy`, `jcr:mimeType` and `jcr:data`, then `jcr:encoding` when given |
| Requests.UpdateFileForm | src/AEM.js:432-492 | `updateFile` throws, rejects or builds exactly what its specification gives for each kind of file argument |
| Client.DefaultEndpoints | src/AEM.js:33-45 | with the default configuration, the CRX and token endpoints are `host:port` plus their fixed paths |
| Client.LaterClientInherits | src/AEM.js:61-82 | a key the first client overrode and a later one did not keeps the first override, because the configuration object is shared |
| Client.SharedConfig.constructor | src/AEM.js:33-45 | the shared configuration starts as the defaults |
| Client.AEM.constructor | src/AEM.js:61-82 | a client merges its overrides into the shared configuration and derives its endpoints from it; the token starts as `null` |
| Client.AEM.GetToken | src/AEM.js:518-535 | the token is the step function's: a stored token is returned with no fetch; a missing `useToken` resolves `null`; a fetched `token` field is stored and returned; anything else rejects |
| Client.TokenMemo | src/AEM.js:518-535 | once a token is obtained, every later call returns it without consulting the server |
| Client.TokenWithoutFetch | src/AEM.js:518-535 | with a stored token or tokens switched off, the server's answer does not matter and the stored token does not change |
| Client.TokenFetched | src/AEM.js:524-533 | fetching succeeds exactly when the answer holds a truthy `token`, which is then stored; a failure leaves the token as it was |
| Client.TokenStep | src/AEM.js:518-535 | a stored truthy token answers at once and stays; the stored token changes only to a truthy value that is also the result; with `useToken` on a success is always truthy; a failure keeps the stored token |
| Client.Posting | src/AEM.js:660-685 | a payload that throws is thrown synchronously; any other is posted to the endpoint with its continuation |
| Client.CreateNode | src/AEM.js:91-113 | throws exactly for an empty path or an empty property name; otherwise posts the create line with the type (default `nt:unstructured`) and one set line per other property to the CRX endpoint, then re-reads the path |
| Client.MoveNode | src/AEM.js:121-140 | throws exactly for an empty path or destination; otherwise posts one move line to the CRX endpoint and re-reads the destination |
| Client.RemoveNode | src/AEM.js:147-160 | throws exactly for an empty path; otherwise posts one remove line to the CRX endpoint and resolves `null` |
| Client.SetProperties | src/AEM.js:186-208 | throws exactly for an empty path, a missing object or an empty key; otherwise posts one set line per key to the CRX endpoint and re-reads the path |
| Client.SetProperty | src/AEM.js:217-234 | throws exactly for an empty path or name or an `undefined` value; otherwise posts the one set line and re-reads the path |
| Client.RemoveProperties | src/AEM.js:242-266 | throws exactly for an empty path, missing names or an empty name; otherwise posts one remove line per name and re-reads the path |
| Client.RemoveProperty | src/AEM.js:274-284 | throws exactly for an empty path or name (the latter with the missing-properties message); otherwise posts the one remove line and re-reads the path |
| Client.UpdateFile | src/AEM.js:432-492 | throws exactly for an empty path, a falsy file or a file that is neither a path nor a buffer nor a stream; otherwise posts the file's lines to the CRX endpoint and re-reads the path |
| Client.CreateAsset | src/AEM.js:326-379 | an empty path or a falsy file throws its message; it rejects exactly for a file named by path with neither a guessed nor a given mime type; a valid path with a named file that has a type, or a buffer or stream with a given mime type, posts to `<instance><parent>.createasset.html` under the file name and re-reads the path; a posted upload carries the file's data, and a buffer or stream its given mime type |
| Client.CreateVersion | src/AEM.js:293-317 | throws exactly for an empty path; otherwise posts the version fields URL-encoded to the versioning endpoint and re-reads the path |
| Client.ActivateNode | src/AEM.js:545-596 | a token failure rejects; otherwise tree mode posts the tree fields (defaults `true` for both flags, the token, configured params over them) to the tree endpoint, and single mode posts the path, `_charset_`, `action=replicate` and the configured params, with the token written last, to the replication endpoint; both re-read the path |
| Client.DeactivateNode | src/AEM.js:603-617 | a token failure rejects; otherwise posts the path, `_charset_`, `action=replicatedelete` and the configured params, with the token written last, to the replication endpoint, then re-reads the path |
| Client.PostOutcome | src/AEM.js:660-685 | a post succeeds exactly when the token and the transport succeed and the status is 2xx, and then yields the response; otherwise the first failure wins: the token's, the transport's, then the refused response |
| Client.Settle | src/AEM.js:91-317 | a failed post rejects with its error; a successful one resolves `null`, the response, or exactly what `getNode` of the continuation's path settles to, as the continuation says |
| Client.SetPropertyIsSetProperties | src/AEM.js:217-234 | `setProperty` posts exactly what `setProperties` posts for the one-entry object |
| Client.AssetPathSplitSound | src/AEM.js:341-344 | a path the asset expression accepts is a parent without line terminators, a `/`, and a name without `/` |
| Client.AssetPathSplitComplete | src/AEM.js:341-344 | every such parent and name is accepted and split back into its parts |
| Client.CreateAssetGuards | src/AEM.js:326-379 | a file that is neither a path nor has a mime type throws; a malformed path throws when a name or mime type is given; a posted asset goes to `parent.createasset.html` |
| Client.CreateAssetByName | src/AEM.js:326-379 | for a file named by path, the upload rejects exactly when neither a lookup nor an explicit mime type gives a type |
| Client.VersionBody | src/AEM.js:293-317 | `createVersion` posts six URL-encoded fields in the code's order |
| Client.ReplicationTokenWins | src/AEM.js:625-630 | the replication body carries the fetched token under `:cq_csrf_token`, overriding any configured one, and every other parameter unchanged |
| Client.TreeParamsOverride | src/AEM.js:545-568 | configured tree-activation parameters override the defaults, but the token is only overridden when configured |
| Client.GetNode | src/AEM.js:167-178 | inside a `.then` continuation, an empty path rejects (a direct call throws, which is not modelled); a failed read rejects with its error; a falsy answer gives an uninitialised node at the path; a truthy answer rejects on a `null` value and otherwise gives a node at the path parsed from the answer's keys |
| Client.RefusedStatusRejects | src/AEM.js:23-31 | whatever the continuation, a refused status rejects with the response |
| Client.ReReadNode | src/AEM.js:167-178 | a fetched object becomes a node parsed from it, and `null` a node with no data |
| LegacyClient.LegacyAEM.constructor | src/aem.js:36-49 | the endpoints and referer page are derived from host and port; the token starts as `null` |
| LegacyClient.LegacyAEM.GetToken | src/aem.js:295-312 | the current client's token step with tokens always on |
| LegacyClient.LegacyAEM.SendRequest | src/aem.js:319-338 | a token failure rejects without sending; otherwise one post goes to the CRX endpoint with the stored, truthy token and, as written, the `Referer` header read from `this.referrer`, and settles by status |
| LegacyClient.CreateNode | src/aem.js:58-75 | throws exactly when the current client's `createNode` does; otherwise posts to the CRX endpoint and resolves with the response |
| LegacyClient.MoveNode | src/aem.js:83-97 | throws exactly for an empty path or destination; otherwise posts to the CRX endpoint and resolves with the response |
| LegacyClient.RemoveNode | src/aem.js:104-114 | throws exactly for an empty path; otherwise posts to the CRX endpoint and resolves with the response |
| LegacyClient.SetProperties | src/aem.js:122-140 | throws exactly for an empty path, a missing object or an empty key; otherwise posts to the CRX endpoint and resolves with the response |
| LegacyClient.SetProperty | src/aem.js:149-166 | throws exactly for an empty path or name or an `undefined` value; otherwise posts to the CRX endpoint and resolves with the response |
| LegacyClient.RemoveProperties | src/aem.js:174-192 | throws exactly for an empty path, missing names or an empty name; otherwise posts to the CRX endpoint and resolves with the response |
| LegacyClient.UpdateFile | src/aem.js:215-269 | throws exactly for an empty path, a falsy file or a file of the wrong kind; otherwise posts to the CRX endpoint and resolves with the response |
| LegacyClient.RefererDropped | src/aem.js:326-330 | as written, the value read for the `Referer` header is always `undefined` (whether the header is then omitted or sent depends on the `Headers` library, which is not modelled); read from the property the constructor sets, it is the CRX referer page |
| LegacyClient.Retargeted | src/aem.js:58-269 | the legacy form of an operation keeps its guards and body and only changes the endpoint and continuation |
| LegacyClient.SamePayloads | src/aem.js:58-269 | each legacy operation throws or posts exactly what the current client's operation of the same name does, sent to the CRX endpoint and resolving with the response |
| LegacyClient.LegacySettles | src/aem.js:330-334 | a legacy post resolves with the response on a 2xx status and rejects with it otherwise |
| Throttle.First | Promise.concurrent.js:50-65 | a settled promise stays settled; a pending one takes the new settlement |
| Throttle.Cursor.constructor | Promise.concurrent.js:8-15 | the iterator over an array starts at index 0 |
| Throttle.Cursor.Next | Promise.concurrent.js:11-14 | yields the next element and advances, or reports done at the end without moving |
| Throttle.MakeIterable | Promise.concurrent.js:3-16 | an iterator is returned as it is; an array gets a fresh iterator at its start |
| Throttle.Throttled.constructor | Promise.concurrent.js:20-27 | the closure starts with no tasks started, collected or pending |
| Throttle.Throttled.DidError | Promise.concurrent.js:62-65 | records the error and rejects, unless already settled |
| Throttle.Throttled.Runner | Promise.concurrent.js:67-77 | records the task as the last one run; a task that throws rejects at once, any other becomes pending |
| Throttle.Throttled.RunNext | Promise.concurrent.js:29-48 | after an error or an exhausted iterator nothing happens; otherwise it takes the next item and runs it with the next id, or marks the iterator done |
| Throttle.Throttled.DidSucceed | Promise.concurrent.js:50-60 | counts the success, stores the result at its id, then resolves if the iterator is done and more have been collected than the last id run, and otherwise runs the next task |
| Throttle.Throttled.Deliver | Promise.concurrent.js:71-73 | a pending task's settling runs `didSucceed` or `didError` |
| Throttle.Throttled.Start | Promise.concurrent.js:79-81 | calls `runNext` `concurrency` times |
| Throttle.ThrottledAll | Promise.concurrent.js:18-84 | the state after the call is the specified start over the source's remaining items, with a default concurrency of 5 |
| Throttle.InitValid | Promise.concurrent.js:20-27 | the initial state satisfies the scheduler's invariant |
| Throttle.ThrottleBound | Promise.concurrent.js:18-84 | after any sequence of settlings, at most `concurrency` tasks are pending at once, and with a concurrency of one the promise never resolves |
| Throttle.StartsInOrder | Promise.concurrent.js:29-48 | a task starts with the next id from the iterator's next item, and no task with that id was pending |
| Throttle.DeliveryEffect | Promise.concurrent.js:50-65 | a success stores its result at its id and is counted; a failure rejects unless already settled; the task is no longer pending |
| Throttle.ResolvesOnlyWhenAllSucceeded | Promise.concurrent.js:50-60 | the promise resolves only from a success with the iterator done; then nothing failed, nothing is pending, and the responses hold exactly one entry for every task started |
| Throttle.ErrorStopsStarts | Promise.concurrent.js:33-35 | after an error no task starts and the rejection stays |
| Throttle.NothingToRunNeverSettles | Promise.concurrent.js:79-81 | an empty source or a concurrency below one starts nothing, so no settling ever comes and the promise stays pending |
| Throttle.ResolvesWithoutErrors | Promise.concurrent.js:18-84 | with a concurrency of at least two, a non-empty source of tasks that do not throw, and only successes, nothing is rejected and once nothing is pending the promise has resolved with all responses |
| Throttle.DeliveryProgress | Promise.concurrent.js:50-65 | every settling lowers the count of tasks left to start or finish, so the run terminates |

## Left out

- HTTP headers of the current client are not modelled: a `Client.Plan` carries no headers, so the `Authorization`, `Content-Type`, `CSRF-Token` and `Referer` headers of src/AEM.js (lines 570, 640, 667 and 702) are left out. Only the legacy `LegacyClient.Request` records a header pair, the `CSRF-Token` and the `Referer`; its `Authorization` header is left out too.
- The multipart wire format of `FormData` is not modelled. A form is its sequence of attachments, and the URL-encoded bodies are modelled to the character.
- `fetch`, `fs.createReadStream`, `mime.lookup` and the clock are parameters of the model, as said above.
- Asynchrony is not modelled. Promises show only as the difference between throwing (`Thrown`), rejecting (`Rejected`) and resolving. In `throttledAll` the event loop is a sequence of `Completion`s.
- The `Object.freeze` of a parsed node's `props` and `children` (src/Node.js:68-69) is not modelled; the model has no operation that writes to them afterwards. The default configuration is not frozen in the code and is modelled as one shared, mutable object.
- JSON numbers are integers only (`Json.JNumber(n: int)`). Non-integer numbers and the way `JSON.stringify` writes numbers (`1.5`, `1e+21`, `NaN` as `null`) are not modelled.
- Engine error messages are kept only as the read of `undefined` that raises them (`ReadOfUndefined`).
- Integer-like keys are not moved to the front of an object's key order. Objects are insertion-ordered sequences. Duplicate keys read the first entry.
- A `props` argument that is not a plain object or array cannot be represented: the model takes a key-ordered sequence of entries, or an array of names. The source does not treat such arguments as empty. `createNode(path, type, null)` throws at `Object.keys(props)` (src/AEM.js:99). A string given to `setProperties` contributes its index keys `"0"`, `"1"`, … (src/AEM.js:197). A truthy non-array given to `removeProperties` throws at `props.forEach` (src/AEM.js:253). The configured activation params are JSON values and follow `Object.assign` (`Client.ParamsOf`): an object gives its fields, an array or a string its index keys, anything else nothing.
- `createFile`, `moveFile`, `removeFile`, `updateAsset`, `moveAsset` and `removeAsset` only delegate to the operations modelled here with fixed arguments, and have no members of their own.
- The helper scripts `fixup-terms.js` and `generatorExec.js`, and the non-core parts of `src/Node.js` (the query helpers), are not part of this model.
- Client.DefaultEndpoints: states only the CRX and token endpoints of the default configuration. The other endpoints are derived the same way in `Client.ApiFor`.
- Client.GetNode: models `getNode` as it runs inside a `.then` continuation, where the empty-path throw of src/AEM.js:168-170 becomes a rejection; a direct call, such as the one at src/Node.js:199, throws synchronously instead.
- Requests.UpdateFileForm: a mime type of `null` and one of `undefined` are both `None`.
- Payload.CRXPayload.CreateNode: a `primaryType` of `null` is not distinguished from `undefined` (both are `None`), so the model writes `nt:unstructured` where the code writes `{"jcr:primaryType":null}`; the same holds for Requests.CreateNodeLines, Client.CreateNode, LegacyClient.CreateNode and Nodes.Node.CreateChild.
- Payload.CRXPayload.SetProperty: a `Date` is modelled by the text its `toISOString` gives, so an invalid `Date`, for which `toISOString` throws a RangeError, is not representable; the throws of `setProperty`, `setProperties` and `updateFile` on such a value are not modelled.
- Throttle.Cursor.Next: an iterator supplied by the caller is modelled as a cursor over a finite sequence of tasks. An infinite or stateful generator is not modelled.
- Throttle.ThrottledAll: a concurrency that is not an integer is not modelled. The loop runs `max(0, ⌈c⌉)` times only for integer `c`.
- Throttle.Throttled.DidSucceed: an exception thrown inside `didSucceed` itself, which the code's `.catch(didError)` would turn into a rejection, is not modelled.

## Findings

| source | as written | input that shows it | evidently intended | confidence | as-written member | corrected member |
|---|---|---|---|---|---|---|
| src/Node.js:339-358 | `initializeNode` fetches through `this.aem`, which no constructor or caller ever assigns | any placeholder child, such as `getChildren().then(cs => cs.c.getProperties())` on a node whose dump is `{"c": {}}` | load the node through the client that created its parent | not executed | Nodes.Node.InitializeNodeAsWritten, Nodes.Node.GetPropertiesAsWritten, Nodes.Node.GetChildrenAsWritten, Nodes.PlaceholderNeverLoads | Nodes.Node.InitializeNode, Nodes.Node.GetProperties, Nodes.Node.GetChildren |
| src/Node.js:176-177 | the cache test `child['jcr:primaryType'] !== undefined` reads a property a `Node` object never has, and `parseProps` stores every child as a `Node`, so every child is fetched from the server again | a dump `{"c": {"jcr:primaryType": "nt:folder"}}`, then `getChild('c')` | return the child that is already parsed | not executed | Nodes.Node.GetChildAsWritten, Nodes.ParsedChildMissesCache | Nodes.Node.GetChild |
| src/aem.js:326-330 | the `Referer` header reads `this.referrer`, but the constructor sets `referer` (the same happens in src/AEM.js at lines 570, 640, 667 and 702) | any `sendRequest`, which reads `undefined` as the `Referer` header value | send the CRX referer page `host:port/crx/de/index.jsp` | not executed | LegacyClient.LegacyAEM.RequestAsWritten, LegacyClient.LegacyAEM.SendRequest, LegacyClient.RefererDropped | LegacyClient.LegacyAEM.RequestFor |
