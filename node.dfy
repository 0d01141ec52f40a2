/** A node of the repository tree as the client holds it (src/Node.js): its
    path, and, once initialised, its properties and its child nodes. The client
    itself is not part of a node here: every call a node hands to the client is
    returned as a `Call` describing it. */
module Nodes {
  import opened Common
  import opened Text
  import opened Json
  import opened PathResolver
  import Payload

  /** A metadata key, such as `:jcr:created` for `jcr:created`. */
  predicate IsMeta(key: string)
  {
    StartsWith(key, ':')
  }

  /** A key whose value is a (non-array) object names a child node. */
  predicate IsChildEntry(entry: (string, Json))
  {
    !IsMeta(entry.0) && entry.1.JObject?
  }

  /** A child's configuration counts as complete when it names its primary type. */
  predicate HasPrimaryType(config: seq<(string, Json)>)
  {
    HasKey(config, PrimaryTypeKey)
  }

  /** The property map `parseProps` builds: every key that is neither metadata nor
      a child, with its value unchanged (a `:key` of `Date` changes nothing). */
  function PropsOf(config: seq<(string, Json)>): map<string, Json>
  {
    if config == [] then map[]
    else
      var entry := config[|config| - 1];
      var earlier := PropsOf(config[..|config| - 1]);
      if IsMeta(entry.0) || entry.1.JObject? then earlier else earlier[entry.0 := entry.1]
  }

  /** The children `parseProps` creates, each with the configuration it is
      initialised from, or `None` for a placeholder left to load on demand. */
  function ChildConfigs(config: seq<(string, Json)>): map<string, Option<seq<(string, Json)>>>
  {
    if config == [] then map[]
    else
      var entry := config[|config| - 1];
      var earlier := ChildConfigs(config[..|config| - 1]);
      if IsChildEntry(entry) then
        earlier[entry.0 := ChildConfigOf(entry)]
      else earlier
  }

  /** The configuration a child entry is initialised from, if any. */
  function ChildConfigOf(entry: (string, Json)): Option<seq<(string, Json)>>
    requires entry.1.JObject?
  {
    if HasPrimaryType(entry.1.fields) then Some(entry.1.fields) else None
  }

  /** One more entry of a configuration, as the loop of `parseProps` sees it. */
  lemma PrefixStep(config: seq<(string, Json)>, j: nat)
    requires j < |config|
    ensures var entry := config[j];
      PropsOf(config[..j + 1]) ==
        (if IsMeta(entry.0) || entry.1.JObject? then PropsOf(config[..j]) else PropsOf(config[..j])[entry.0 := entry.1])
    ensures var entry := config[j];
      ChildConfigs(config[..j + 1]) ==
        (if IsChildEntry(entry) then ChildConfigs(config[..j])[entry.0 := ChildConfigOf(entry)] else ChildConfigs(config[..j]))
    ensures Fails(config[..j + 1]) == (Fails(config[..j]) || EntryFails(config[j]))
  {
    assert config[..j + 1][..j] == config[..j];
  }

  /** Whether `parseProps` throws: some non-metadata value is `null` (reading
      `jcr:primaryType` of it fails), or a child initialised from its own
      configuration throws in turn. */
  predicate Fails(config: seq<(string, Json)>)
    decreases config
  {
    if config == [] then false
    else
      var entry := config[|config| - 1];
      assert entry in config;
      assert entry.1 < entry;
      Fails(config[..|config| - 1]) || EntryFails(entry)
  }

  predicate EntryFails(entry: (string, Json))
    decreases entry, 0
  {
    !IsMeta(entry.0) &&
    (entry.1.JNull? ||
     (entry.1.JObject? && HasPrimaryType(entry.1.fields) &&
      Fails(entry.1.fields)))
  }

  /** The error `parseProps` throws. */
  const NullValueError := ReadOfUndefined(PrimaryTypeKey)

  /** `levels.splice(0, 1)[0]` of `path.split('/')`: the first segment. */
  function DirectChild(path: string): string
  {
    Split(path, '/')[0]
  }

  /** `levels.join('/')` of the segments after the first. */
  function RestOfPath(path: string): string
  {
    Join(Split(path, '/')[1..], "/")
  }

  /** Every key of the property map and of the children comes from a
      non-metadata entry of the configuration, of the matching kind. */
  lemma {:induction false} KeysFromConfig(config: seq<(string, Json)>)
    ensures forall k :: k in PropsOf(config) ==>
      !IsMeta(k) && exists j :: 0 <= j < |config| && config[j].0 == k && !config[j].1.JObject?
    ensures forall k :: k in ChildConfigs(config) ==>
      !IsMeta(k) && exists j :: 0 <= j < |config| && config[j].0 == k && config[j].1.JObject?
  {
    if config != [] {
      var n := |config| - 1;
      var init := config[..n];
      KeysFromConfig(init);
      forall k | k in PropsOf(config)
        ensures !IsMeta(k) && exists j :: 0 <= j < |config| && config[j].0 == k && !config[j].1.JObject?
      {
        if k in PropsOf(init) {
          var j :| 0 <= j < |init| && init[j].0 == k && !init[j].1.JObject?;
          assert config[j] == init[j];
        } else {
          assert config[n].0 == k;
        }
      }
      forall k | k in ChildConfigs(config)
        ensures !IsMeta(k) && exists j :: 0 <= j < |config| && config[j].0 == k && config[j].1.JObject?
      {
        if k in ChildConfigs(init) {
          var j :| 0 <= j < |init| && init[j].0 == k && init[j].1.JObject?;
          assert config[j] == init[j];
        } else {
          assert config[n].0 == k;
        }
      }
    }
  }

  /** With distinct keys `parseProps` puts each entry in exactly one place:
      metadata nowhere, an object among the children (initialised from it iff it
      names its primary type), anything else among the properties with its value
      unchanged. */
  lemma {:induction false} SortedEntry(config: seq<(string, Json)>, j: nat)
    requires DistinctKeys(config) && j < |config|
    ensures IsMeta(config[j].0) ==> config[j].0 !in PropsOf(config) && config[j].0 !in ChildConfigs(config)
    ensures !IsMeta(config[j].0) && !config[j].1.JObject? ==>
      config[j].0 in PropsOf(config) && PropsOf(config)[config[j].0] == config[j].1 &&
      config[j].0 !in ChildConfigs(config)
    ensures !IsMeta(config[j].0) && config[j].1.JObject? ==>
      config[j].0 !in PropsOf(config) && config[j].0 in ChildConfigs(config) &&
      ChildConfigs(config)[config[j].0] ==
        (if HasPrimaryType(config[j].1.fields) then Some(config[j].1.fields) else None)
  {
    var n := |config| - 1;
    var init := config[..n];
    var k := config[j].0;
    assert DistinctKeys(init);
    if j == n {
      KeysFromConfig(init);
      forall i | 0 <= i < |init|
        ensures init[i].0 != k
      {
        assert config[i].0 != config[n].0;
      }
    } else {
      SortedEntry(init, j);
      assert init[j] == config[j];
      assert config[n].0 != k;
    }
  }

  /** `path.split('/')` and the join of all but the first piece: the first
      segment never contains `/`, and with a `/` in the path the two pieces and
      one `/` make up the path again. */
  lemma SplitOffFirst(path: string)
    ensures '/' !in DirectChild(path)
    ensures '/' in path ==> path == DirectChild(path) + "/" + RestOfPath(path)
    ensures '/' !in path ==> DirectChild(path) == path && RestOfPath(path) == ""
  {
    if '/' in path {
      SplitOffFirstSlash(path);
    }
  }

  lemma SplitOffFirstSlash(path: string)
    requires '/' in path
    ensures path == DirectChild(path) + "/" + RestOfPath(path)
  {
    var k := FirstIndex(path, '/');
    var rest := path[k + 1..];
    var parts := Split(path, '/');
    assert parts == [path[..k]] + Split(rest, '/');
    assert parts[1..] == Split(rest, '/');
    assert RestOfPath(path) == rest by {
      JoinSplit(rest, '/');
    }
    assert path == path[..k] + "/" + rest;
  }

  /** A child entry as the code can hold it: a node, or (for the branch of
      `getChild` that builds one) a plain configuration. */
  datatype Entry = NodeEntry(node: Node) | ConfigEntry(config: Json)

  /** The test `child && child['jcr:primaryType'] !== undefined` of `getChild`:
      a node object has no such property, so only a configuration can pass it. */
  predicate CachedAsWritten(e: Entry)
  {
    e.ConfigEntry? && e.config.JObject? && HasPrimaryType(e.config.fields)
  }

  /** The evidently intended test: a configuration carrying its primary type, or a
      child node that is already initialised. */
  predicate Cached(e: Entry)
    reads if e.NodeEntry? then {e.node} else {}
  {
    CachedAsWritten(e) || (e.NodeEntry? && e.node.props.Some?)
  }

  /** A call a node hands on to the client, with the arguments it computed. */
  datatype Call =
    | GetNodeCall(path: string)
    | ChildOfCall(node: Node, path: string)
    | CreateNodeCall(path: string, primaryType: Option<string>, props: seq<(string, Payload.Value)>)
    | MoveNodeCall(path: string, destination: string)
    | RemoveNodeCall(path: string)

  /** How a call on a node settles, as far as the node decides it. */
  datatype Outcome<+T> =
    | Resolved(value: T)
    /** The returned promise rejects. */
    | Rejected(error: Exception)
    /** The call throws before it returns a promise. */
    | Thrown(error: Exception)
    /** The returned promise settles as the client's call does. */
    | Delegated(call: Call)

  class Node {
    var path: string
    /** `_config.props`; `None` while the node is a placeholder. */
    var props: Option<map<string, Json>>
    /** `_config.children`; `None` while the node is a placeholder. */
    var children: Option<map<string, Entry>>

    /** `new Node(aem, path)`: a placeholder without configuration. */
    constructor(path: string)
      ensures this.path == path && props == None && children == None
    {
      this.path := path;
      props := None;
      children := None;
    }

    /** `new Node(aem, path, config)` for a configuration object: the constructor
        runs `parseProps` and throws what it throws. */
    static method FromConfig(path: string, config: seq<(string, Json)>) returns (r: Result<Node>)
      decreases JObject(config), 1
      ensures r.Success? <==> !Fails(config)
      ensures r.Failure? ==> r.error == NullValueError
      ensures r.Success? ==> fresh(r.value) && r.value.path == path
      ensures r.Success? ==> r.value.props == Some(PropsOf(config))
      ensures r.Success? ==> r.value.children.Some? && r.value.children.value.Keys == ChildConfigs(config).Keys
    {
      var node := new Node(path);
      var parsed := node.ParseProps(config);
      if parsed.Failure? {
        return Failure(parsed.error);
      }
      return Success(node);
    }

    /** `parseProps(config)`: sorts the non-metadata keys into properties and
        children, then installs both maps together; nothing is installed when it throws. */
    method ParseProps(config: seq<(string, Json)>) returns (r: Result<()>)
      modifies this
      decreases JObject(config), 0
      ensures path == old(path)
      ensures r.Success? <==> !Fails(config)
      ensures r.Failure? ==> r.error == NullValueError && props == old(props) && children == old(children)
      ensures r.Success? ==> props == Some(PropsOf(config))
      ensures r.Success? ==> children.Some? && children.value.Keys == ChildConfigs(config).Keys
      ensures r.Success? ==> forall k :: k in children.value ==>
        children.value[k].NodeEntry? && fresh(children.value[k].node) &&
        Placed(children.value[k].node, Resolve(path, k, 0), ChildConfigs(config)[k])
    {
      var ps: map<string, Json> := map[];
      var cs: map<string, Entry> := map[];
      var j := 0;
      while j < |config|
        invariant 0 <= j <= |config|
        invariant !Fails(config[..j])
        invariant ps == PropsOf(config[..j])
        invariant cs.Keys == ChildConfigs(config[..j]).Keys
        invariant forall k :: k in cs ==>
          cs[k].NodeEntry? && fresh(cs[k].node) &&
          Placed(cs[k].node, Resolve(path, k, 0), ChildConfigs(config[..j])[k])
        invariant path == old(path) && props == old(props) && children == old(children)
      {
        var entry := config[j];
        PrefixStep(config, j);
        if !IsMeta(entry.0) {
          var value := entry.1;
          if value.JNull? {
            FailsExtends(config, j + 1);
            return Failure(NullValueError);
          }
          if value.JObject? {
            assert entry in config;
            var made := MakeChild(entry);
            if made.Failure? {
              FailsExtends(config, j + 1);
              return Failure(made.error);
            }
            cs := cs[entry.0 := NodeEntry(made.value)];
          } else {
            ps := ps[entry.0 := value];
          }
        }
        j := j + 1;
      }
      assert config[..j] == config;
      props := Some(ps);
      children := Some(cs);
      return Success(());
    }

    /** The child node `parseProps` builds for an object entry: one initialised
        from the entry when it names its primary type, or else a placeholder. */
    method MakeChild(entry: (string, Json)) returns (r: Result<Node>)
      requires IsChildEntry(entry)
      decreases entry.1, 2
      ensures r.Success? <==> !EntryFails(entry)
      ensures r.Failure? ==> r.error == NullValueError
      ensures r.Success? ==> fresh(r.value)
      ensures r.Success? ==> Placed(r.value, Resolve(path, entry.0, 0), ChildConfigOf(entry))
    {
      var childPath := RelativeToAbsolute(entry.0, 0);
      var value := entry.1;
      if HasPrimaryType(value.fields) {
        assert value == JObject(value.fields);
        r := FromConfig(childPath, value.fields);
      } else {
        var child := new Node(childPath);
        r := Success(child);
      }
    }

    /** A child node at `childPath` that is initialised from `config` when it is
        given, or else a placeholder. */
    static predicate Placed(child: Node, childPath: string, config: Option<seq<(string, Json)>>)
      reads child
    {
      child.path == childPath &&
      match config
      case Some(c) => child.props == Some(PropsOf(c)) && child.children.Some?
      case None => child.props == None && child.children == None
    }

    /** Once `parseProps` throws, no later entry can undo it. */
    static lemma {:induction false} FailsExtends(config: seq<(string, Json)>, j: nat)
      requires j <= |config| && Fails(config[..j])
      ensures Fails(config)
      decreases |config| - j
    {
      if j < |config| {
        assert config[..j + 1][..j] == config[..j];
        FailsExtends(config, j + 1);
      } else {
        assert config[..j] == config;
      }
    }

    /** `relativeToAbsolute(path, depth)`: prepends `-depth` copies of `../`, then
        removes `.` segments and splices out each name followed by `..`. */
    method RelativeToAbsolute(link: string, depth: int) returns (r: string)
      ensures r == Resolve(path, link, depth)
      ensures StartsWith(link, '/') ==> r == link
    {
      if StartsWith(link, '/') {
        return link;
      }
      var prepend := "";
      var i := 0;
      while i > depth
        invariant i <= 0 && (depth < 0 ==> depth <= i) && (depth >= 0 ==> i == 0)
        invariant prepend == Repeat("../", -i)
        decreases i - depth
      {
        RepeatAppend("../", -i);
        prepend := prepend + "../";
        i := i - 1;
      }
      assert -i == UpLevels(depth);
      var parts := DropDots(Split(SquashSlashes(path + "/" + prepend + link), '/'));
      ghost var target := Collapse(parts, 0);
      var k := 0;
      while k < |parts|
        invariant k <= |parts| + 1
        invariant Collapse(parts, k) == target
        decreases |parts| + 1 - k
      {
        while k + 1 < |parts| && parts[k + 1] == ".."
          invariant k <= |parts|
          invariant Collapse(parts, k) == target
          decreases |parts|
        {
          parts := parts[..k] + parts[k + 2..];
        }
        k := k + 1;
      }
      return Join(parts, "/");
    }

    /** `getChild(path)` as written: the first segment is looked up among the
        children, and unless the cache test passes the whole path is fetched. */
    method GetChildAsWritten(link: string) returns (r: Outcome<Node>)
      modifies this
      ensures children == None ==> r == Thrown(ReadOfUndefined(DirectChild(link)))
      ensures old(children).Some? && (DirectChild(link) !in old(children).value ||
                                      !CachedAsWritten(old(children).value[DirectChild(link)])) ==>
        r == Delegated(GetNodeCall(Resolve(path, link, 0)))
      ensures !r.Resolved? && !(r.Delegated? && r.call.ChildOfCall?) ==> unchanged(this)
      ensures old(children).Some? && DirectChild(link) in old(children).value &&
              CachedAsWritten(old(children).value[DirectChild(link)]) ==>
        ReplacedChild(old(children).value, DirectChild(link), Resolve(path, DirectChild(link), 0),
                      old(children).value[DirectChild(link)].config.fields, RestOfPath(link), r)
    {
      if children.None? {
        return Thrown(ReadOfUndefined(DirectChild(link)));
      }
      var direct := DirectChild(link);
      var rest := RestOfPath(link);
      if direct in children.value && CachedAsWritten(children.value[direct]) {
        r := Instantiate(direct, rest);
      } else {
        var absolute := RelativeToAbsolute(link, 0);
        r := Delegated(GetNodeCall(absolute));
      }
    }

    /** The cached branch of `getChild` for a configuration: builds the child node,
        stores it in a copy of the children map and settles with it, or with the
        child's own `getChild` of the rest of the path. */
    method Instantiate(direct: string, rest: string) returns (r: Outcome<Node>)
      requires children.Some? && direct in children.value
      requires CachedAsWritten(children.value[direct])
      modifies this
      ensures r.Rejected? ==> unchanged(this)
      ensures ReplacedChild(old(children).value, direct, Resolve(path, direct, 0),
                            old(children).value[direct].config.fields, rest, r)
      ensures path == old(path) && props == old(props)
    {
      var config := children.value[direct].config.fields;
      var childPath := RelativeToAbsolute(direct, 0);
      var made := FromConfig(childPath, config);
      if made.Failure? {
        return Rejected(made.error);
      }
      var child := made.value;
      children := Some(children.value[direct := NodeEntry(child)]);
      if rest != "" {
        r := Delegated(ChildOfCall(child, rest));
      } else {
        r := Resolved(child);
      }
    }

    /** What the cached branch leaves behind: a rejection when the configuration
        does not parse; otherwise a new node for it, a children map that differs
        from the old only at `direct`, and the child itself or the rest of the
        path handed to it. */
    twostate predicate ReplacedChild(before: map<string, Entry>, direct: string, childPath: string,
                                     config: seq<(string, Json)>, rest: string, new r: Outcome<Node>)
      reads this, if HandsNode(r) then {NodeOf(r)} else {}
    {
      if Fails(config) then r == Rejected(NullValueError)
      else
        (if rest == "" then r.Resolved? else r.Delegated? && r.call.ChildOfCall? && r.call.path == rest) &&
        fresh(NodeOf(r)) && NodeOf(r).path == childPath && NodeOf(r).props == Some(PropsOf(config)) &&
        children == Some(before[direct := NodeEntry(NodeOf(r))])
    }

    /** An outcome that settles with a node, or hands the rest of a path to one. */
    static predicate HandsNode(r: Outcome<Node>)
    {
      r.Resolved? || (r.Delegated? && r.call.ChildOfCall?)
    }

    static function NodeOf(r: Outcome<Node>): Node
      requires HandsNode(r)
    {
      if r.Resolved? then r.value else r.call.node
    }

    /** `getChild(path)` with the cache test the code evidently intends: an
        initialised child node is reused instead of fetched again. */
    method GetChild(link: string) returns (r: Outcome<Node>)
      modifies this
      ensures children == None ==> r == Thrown(ReadOfUndefined(DirectChild(link)))
      ensures old(children).Some? && (DirectChild(link) !in old(children).value ||
                                      !Cached(old(children).value[DirectChild(link)])) ==>
        r == Delegated(GetNodeCall(Resolve(path, link, 0)))
      ensures old(children).Some? && DirectChild(link) in old(children).value &&
              old(children).value[DirectChild(link)].NodeEntry? &&
              old(children).value[DirectChild(link)].node.props.Some? ==>
        unchanged(this) &&
        var child := old(children).value[DirectChild(link)].node;
        r == if RestOfPath(link) == "" then Resolved(child) else Delegated(ChildOfCall(child, RestOfPath(link)))
      ensures old(children).Some? && DirectChild(link) in old(children).value &&
              CachedAsWritten(old(children).value[DirectChild(link)]) ==>
        ReplacedChild(old(children).value, DirectChild(link), Resolve(path, DirectChild(link), 0),
                      old(children).value[DirectChild(link)].config.fields, RestOfPath(link), r)
      ensures !CachedAsWrittenAt(old(children), DirectChild(link)) ==> unchanged(this)
    {
      if children.None? {
        return Thrown(ReadOfUndefined(DirectChild(link)));
      }
      var direct := DirectChild(link);
      var rest := RestOfPath(link);
      if direct in children.value && CachedAsWritten(children.value[direct]) {
        r := Instantiate(direct, rest);
      } else if direct in children.value && Cached(children.value[direct]) {
        var child := children.value[direct].node;
        if rest != "" {
          r := Delegated(ChildOfCall(child, rest));
        } else {
          r := Resolved(child);
        }
      } else {
        var absolute := RelativeToAbsolute(link, 0);
        r := Delegated(GetNodeCall(absolute));
      }
    }

    static predicate CachedAsWrittenAt(cs: Option<map<string, Entry>>, direct: string)
    {
      cs.Some? && direct in cs.value && CachedAsWritten(cs.value[direct])
    }

    /** `initializeNode()` as written: an uninitialised node reads `getNode` from
        `this.aem`, which is never set, so its promise always rejects. */
    function InitializeNodeAsWritten(): (r: Outcome<Node>)
      reads this
      ensures props.Some? <==> r == Resolved(this)
      ensures props.None? <==> r == Rejected(ReadOfUndefined("getNode"))
    {
      if props.Some? then Resolved(this) else Rejected(ReadOfUndefined("getNode"))
    }

    /** `initializeNode()` as evidently intended, through `this._config.aem`: an
        initialised node settles with itself; otherwise the node at its path is
        fetched (`fetched` is what the client's `getNode` settles with) and its
        path, props and children are copied into this one. */
    method InitializeNode(fetched: Result<Node>) returns (r: Outcome<Node>)
      modifies this
      ensures old(props).Some? ==> r == Resolved(this) && unchanged(this)
      ensures old(props).None? && fetched.Failure? ==> r == Rejected(fetched.error) && unchanged(this)
      ensures old(props).None? && fetched.Success? ==>
        r == Resolved(this) && path == old(fetched.value.path) &&
        props == old(fetched.value.props) && children == old(fetched.value.children)
    {
      if props.Some? {
        return Resolved(this);
      }
      if fetched.Failure? {
        return Rejected(fetched.error);
      }
      var other := fetched.value;
      path, props, children := other.path, other.props, other.children;
      return Resolved(this);
    }

    /** `getProperties()` as written: a placeholder's props are never loaded,
        because the written `initializeNode` rejects for it. */
    function GetPropertiesAsWritten(): (r: Outcome<Option<map<string, Json>>>)
      reads this
      ensures props.Some? ==> r == Resolved(props)
      ensures props.None? ==> r == Rejected(ReadOfUndefined("getNode"))
    {
      var init := InitializeNodeAsWritten();
      if init.Resolved? then Resolved(props) else Rejected(init.error)
    }

    /** `getChildren()` as written: a placeholder's children are never loaded. */
    function GetChildrenAsWritten(): (r: Outcome<Option<map<string, Entry>>>)
      reads this
      ensures props.Some? ==> r == Resolved(children)
      ensures props.None? ==> r == Rejected(ReadOfUndefined("getNode"))
    {
      var init := InitializeNodeAsWritten();
      if init.Resolved? then Resolved(children) else Rejected(init.error)
    }

    /** `getProperties()` with the corrected `initializeNode`: the props once the
        node is initialised. */
    method GetProperties(fetched: Result<Node>) returns (r: Outcome<Option<map<string, Json>>>)
      modifies this
      ensures old(props).Some? ==> r == Resolved(old(props)) && unchanged(this)
      ensures old(props).None? && fetched.Failure? ==> r == Rejected(fetched.error)
      ensures old(props).None? && fetched.Success? ==> r == Resolved(old(fetched.value.props))
    {
      var init := InitializeNode(fetched);
      if init.Resolved? {
        return Resolved(props);
      }
      return Rejected(init.error);
    }

    /** `getChildren()` with the corrected `initializeNode`: the children once
        the node is initialised. */
    method GetChildren(fetched: Result<Node>) returns (r: Outcome<Option<map<string, Entry>>>)
      modifies this
      ensures old(props).Some? ==> r == Resolved(old(children)) && unchanged(this)
      ensures old(props).None? && fetched.Failure? ==> r == Rejected(fetched.error)
      ensures old(props).None? && fetched.Success? ==> r == Resolved(old(fetched.value.children))
    {
      var init := InitializeNode(fetched);
      if init.Resolved? {
        return Resolved(children);
      }
      return Rejected(init.error);
    }

    /** `createChild(path, type, props)`: creates the node at the resolved link. */
    method CreateChild(link: string, primaryType: Option<string>, childProps: seq<(string, Payload.Value)>)
      returns (c: Call)
      ensures c == CreateNodeCall(Resolve(path, link, 0), primaryType, childProps)
    {
      var target := RelativeToAbsolute(link, 0);
      c := CreateNodeCall(target, primaryType, childProps);
    }

    /** `moveChild(path, destination)`: the destination is resolved one level up,
        from this node's parent. */
    method MoveChild(link: string, destination: string) returns (c: Call)
      ensures c == MoveNodeCall(Resolve(path, link, 0), Resolve(path, destination, -1))
    {
      var source := RelativeToAbsolute(link, 0);
      var target := RelativeToAbsolute(destination, -1);
      c := MoveNodeCall(source, target);
    }

    /** `removeChild(path)`. */
    method RemoveChild(link: string) returns (c: Call)
      ensures c == RemoveNodeCall(Resolve(path, link, 0))
    {
      var target := RelativeToAbsolute(link, 0);
      c := RemoveNodeCall(target);
    }

    /** `move(destination)`: this node to a destination resolved from its parent. */
    method Move(destination: string) returns (c: Call)
      ensures c == MoveNodeCall(path, Resolve(path, destination, -1))
    {
      var target := RelativeToAbsolute(destination, -1);
      c := MoveNodeCall(path, target);
    }

    /** `remove()`: this node's own path, unresolved. */
    method Remove() returns (c: Call)
      ensures c == RemoveNodeCall(path)
    {
      c := RemoveNodeCall(path);
    }
  }

  /** A child that `parseProps` initialised from a configuration carrying its
      primary type is a node object, so the written cache test of `getChild`
      rejects it although it holds all the metadata; the intended test accepts it. */
  lemma ParsedChildMissesCache(child: Node, childPath: string, config: seq<(string, Json)>)
    requires Node.Placed(child, childPath, Some(config))
    ensures !CachedAsWritten(NodeEntry(child))
    ensures Cached(NodeEntry(child))
  {
  }

  /** A placeholder can never be initialised by the written `initializeNode`,
      so neither its properties nor its children can be read. */
  lemma PlaceholderNeverLoads(node: Node)
    requires node.props == None
    ensures node.InitializeNodeAsWritten() == Rejected(ReadOfUndefined("getNode"))
    ensures node.GetPropertiesAsWritten().Rejected? && node.GetChildrenAsWritten().Rejected?
  {
  }
}
