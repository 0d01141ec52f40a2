/** Resolution of a path given relative to a node (`relativeToAbsolute` in
    src/Node.js), as a specification: the loop that `Node.RelativeToAbsolute`
    runs is proved to compute `Resolve`. */
module PathResolver {
  import opened Text

  /** `s.replace(/\/\//g, '/')`: each pair of slashes, scanning left to right
      without overlap, becomes one slash (so three slashes become two). */
  function SquashSlashes(s: string): string
  {
    if |s| >= 2 && s[0] == '/' && s[1] == '/' then "/" + SquashSlashes(s[2..])
    else if s == [] then ""
    else [s[0]] + SquashSlashes(s[1..])
  }

  /** `parts.filter(part => part !== '.')`. */
  function DropDots(parts: seq<string>): (r: seq<string>)
    ensures "." !in r
    ensures forall x :: x in r ==> x in parts
  {
    if parts == [] then []
    else (if parts[0] == "." then [] else [parts[0]]) + DropDots(parts[1..])
  }

  /** The splice loop from index `i` on: while the segment after `i` is `..`,
      the segment at `i` and that `..` are removed together; then `i` moves on. */
  function Collapse(parts: seq<string>, i: nat): seq<string>
    decreases |parts| - i
  {
    if i >= |parts| then parts
    else if i + 1 < |parts| && parts[i + 1] == ".." then Collapse(parts[..i] + parts[i + 2..], i)
    else Collapse(parts, i + 1)
  }

  /** How many `../` a depth prepends: `-depth` of them when negative, none otherwise. */
  function UpLevels(depth: int): nat
  {
    if depth < 0 then -depth else 0
  }

  /** The segments `relativeToAbsolute` joins for a relative path. */
  function Segments(base: string, path: string, depth: int): seq<string>
  {
    DropDots(Split(SquashSlashes(base + "/" + Repeat("../", UpLevels(depth)) + path), '/'))
  }

  /** `relativeToAbsolute(path, depth)` on a node at `base`. */
  function Resolve(base: string, path: string, depth: int): string
  {
    if StartsWith(path, '/') then path
    else Join(Collapse(Segments(base, path, depth), 0), "/")
  }

  /** Segments before the current index are never touched: the loop only moves forward. */
  lemma {:induction false} CollapseKeepsPrefix(parts: seq<string>, i: nat)
    requires i <= |parts|
    ensures Collapse(parts, i) == parts[..i] + Collapse(parts[i..], 0)
    decreases |parts| - i
  {
    if i == |parts| {
      assert parts[i..] == [];
      assert parts[..i] == parts;
    } else if i + 1 < |parts| && parts[i + 1] == ".." {
      var spliced := parts[..i] + parts[i + 2..];
      assert spliced[..i] == parts[..i];
      assert spliced[i..] == parts[i + 2..];
      CollapseKeepsPrefix(spliced, i);
      var tail := parts[i..];
      assert tail[1] == "..";
      assert tail[..0] + tail[2..] == parts[i + 2..];
      assert Collapse(tail, 0) == Collapse(parts[i + 2..], 0);
    } else {
      CollapseKeepsPrefix(parts, i + 1);
      var tail := parts[i..];
      assert !(1 < |tail| && tail[1] == "..");
      assert Collapse(tail, 0) == Collapse(tail, 1);
      CollapseKeepsPrefix(tail, 1);
      assert tail[1..] == parts[i + 1..];
      assert parts[..i + 1] == parts[..i] + tail[..1];
    }
  }

  /** Collapsing only removes segments, two at a time. */
  lemma {:induction false} CollapseRemovesPairs(parts: seq<string>, i: nat)
    ensures |Collapse(parts, i)| <= |parts|
    ensures (|parts| - |Collapse(parts, i)|) % 2 == 0
    ensures forall x :: x in Collapse(parts, i) ==> x in parts
    decreases |parts| - i
  {
    if i < |parts| {
      if i + 1 < |parts| && parts[i + 1] == ".." {
        var spliced := parts[..i] + parts[i + 2..];
        CollapseRemovesPairs(spliced, i);
        forall x | x in spliced
          ensures x in parts
        {
          var k :| 0 <= k < |spliced| && spliced[k] == x;
          if k < i {
            assert parts[k] == x;
          } else {
            assert parts[k + 2] == x;
          }
        }
      } else {
        CollapseRemovesPairs(parts, i + 1);
      }
    }
  }

  /** Without any `..` segment nothing is removed. */
  lemma {:induction false} CollapseWithoutParent(parts: seq<string>, i: nat)
    requires ".." !in parts
    ensures Collapse(parts, i) == parts
    decreases |parts| - i
  {
    if i < |parts| {
      assert parts[i + 1..] == parts[i + 1..];
      if i + 1 < |parts| {
        assert parts[i + 1] != "..";
      }
      CollapseWithoutParent(parts, i + 1);
    }
  }

  /** A relative path never resolves to a path with a `.` segment. */
  lemma ResolveHasNoDotSegment(base: string, path: string, depth: int)
    requires !StartsWith(path, '/')
    ensures "." !in Split(Resolve(base, path, depth), '/')
  {
    var segments := Segments(base, path, depth);
    var parts := Collapse(segments, 0);
    CollapseRemovesPairs(segments, 0);
    var split := Split(SquashSlashes(base + "/" + Repeat("../", UpLevels(depth)) + path), '/');
    forall k | 0 <= k < |parts|
      ensures '/' !in parts[k] && parts[k] != "."
    {
      assert parts[k] in parts;
      assert parts[k] in segments;
      assert parts[k] in split;
    }
    if parts == [] {
      assert Resolve(base, path, depth) == "";
      assert Split("", '/') == [""];
    } else {
      SplitJoin(parts, '/');
    }
  }

  /** A negative depth is the same as writing its `../` segments in front of the path. */
  lemma DepthIsParentPrefix(base: string, path: string, depth: int)
    requires !StartsWith(path, '/')
    ensures Resolve(base, path, depth) == Resolve(base, Repeat("../", UpLevels(depth)) + path, 0)
  {
    var prefixed := Repeat("../", UpLevels(depth)) + path;
    if UpLevels(depth) > 0 {
      assert prefixed[0] == '.';
    } else {
      assert prefixed == path;
    }
    assert !StartsWith(prefixed, '/');
    assert Repeat("../", UpLevels(0)) == "";
    assert base + "/" + Repeat("../", UpLevels(0)) + prefixed == base + "/" + Repeat("../", UpLevels(depth)) + path;
    assert Segments(base, prefixed, 0) == Segments(base, path, depth);
  }
}

/** Worked resolutions of relative links. */
module PathExamples {
  import opened Text
  import opened PathResolver

  /** Resolving a relative link through the string it builds and the segments
      that string splits into. */
  lemma ResolveThrough(base: string, path: string, depth: int, parts: seq<string>, collapsed: seq<string>)
    requires !StartsWith(path, '/')
    requires |parts| >= 1 && "." !in parts
    requires forall k :: 0 <= k < |parts| ==> '/' !in parts[k]
    requires SquashSlashes(base + "/" + Repeat("../", UpLevels(depth)) + path) == Join(parts, "/")
    requires Collapse(parts, 0) == collapsed
    ensures Resolve(base, path, depth) == Join(collapsed, "/")
  {
    SplitJoin(parts, '/');
    DropDotsUnchanged(parts);
  }

  lemma {:induction false} DropDotsUnchanged(parts: seq<string>)
    requires "." !in parts
    ensures DropDots(parts) == parts
  {
    if parts != [] {
      assert parts[0] in parts;
      assert "." !in parts[1..];
      DropDotsUnchanged(parts[1..]);
      assert parts == [parts[0]] + parts[1..];
    }
  }

  /** A string with no two adjacent slashes is left as it is by the `//` replacement. */
  lemma {:induction false} SquashWithoutDouble(s: string)
    requires forall k :: 0 <= k < |s| - 1 ==> !(s[k] == '/' && s[k + 1] == '/')
    ensures SquashSlashes(s) == s
  {
    if s != [] {
      SquashWithoutDouble(s[1..]);
      assert s == [s[0]] + s[1..];
    }
  }

  /* Single facts about literals, kept apart so that each stays cheap. */

  lemma NoLevels() ensures Repeat("../", UpLevels(0)) == "" {}
  lemma OneLevel() ensures Repeat("../", UpLevels(-1)) == "../" {}

  lemma ABParentC()
    ensures "/a/b" + "/" + "" + "../c" == "/a/b/../c"
    ensures "/a" + "/" + "" + "b/../c" == "/a/b/../c"
    ensures SquashSlashes("/a/b/../c") == "/a/b/../c"
  {
    ABConcat();
    ABSquash();
  }
  lemma ABConcat()
    ensures "/a/b" + "/" + "" + "../c" == "/a/b/../c"
    ensures "/a" + "/" + "" + "b/../c" == "/a/b/../c"
  {}
  lemma ABSquash() ensures SquashSlashes("/a/b/../c") == "/a/b/../c"
  {
    ABNoDouble();
    SquashWithoutDouble("/a/b/../c");
  }
  lemma ABNoDouble()
    ensures forall k :: 0 <= k < |"/a/b/../c"| - 1 ==> !("/a/b/../c"[k] == '/' && "/a/b/../c"[k + 1] == '/')
  {}
  lemma ABParentCParts()
    ensures Join(["", "a", "b", "..", "c"], "/") == "/a/b/../c"
    ensures "." !in ["", "a", "b", "..", "c"]
    ensures forall k :: 0 <= k < 5 ==> '/' !in ["", "a", "b", "..", "c"][k]
  {}
  lemma ABParentCCollapse() ensures Collapse(["", "a", "b", "..", "c"], 0) == ["", "a", "c"] {}
  lemma ACJoined() ensures Join(["", "a", "c"], "/") == "/a/c" {}

  /** Base `/a/b` with `../c` gives `/a/c`: the `..` removes `b`. */
  lemma ParentOfBase()
    ensures Resolve("/a/b", "../c", 0) == "/a/c"
  {
    NoLevels(); ABParentC(); ABParentCParts(); ABParentCCollapse();
    ResolveThrough("/a/b", "../c", 0, ["", "a", "b", "..", "c"], ["", "a", "c"]);
    ACJoined();
  }

  /** Base `/a` with `b/../c` gives `/a/c`: a name followed by `..` goes as a pair. */
  lemma NameThenParent()
    ensures Resolve("/a", "b/../c", 0) == "/a/c"
  {
    NoLevels(); ABParentC(); ABParentCParts(); ABParentCCollapse();
    ResolveThrough("/a", "b/../c", 0, ["", "a", "b", "..", "c"], ["", "a", "c"]);
    ACJoined();
  }

  lemma RootParentB()
    ensures "/" + "/" + "" + "../b" == "//../b"
    ensures SquashSlashes("//../b") == "/../b"
  {
    SquashWithoutDouble("../b");
    assert SquashSlashes("//../b") == "/" + SquashSlashes("../b");
  }
  lemma RootParentBParts()
    ensures Join(["", "..", "b"], "/") == "/../b"
    ensures "." !in ["", "..", "b"]
    ensures forall k :: 0 <= k < 3 ==> '/' !in ["", "..", "b"][k]
  {}
  lemma RootParentBCollapse() ensures Collapse(["", "..", "b"], 0) == ["b"] {}

  /** Base `/` with `../b` gives `b`: the `..` consumes the empty segment before
      the root slash, and the result is no longer absolute. */
  lemma ParentOfRoot()
    ensures Resolve("/", "../b", 0) == "b"
  {
    NoLevels(); RootParentB(); RootParentBParts(); RootParentBCollapse();
    ResolveThrough("/", "../b", 0, ["", "..", "b"], ["b"]);
  }

  lemma XStale()
    ensures "/x" + "/" + "" + "a/b/../../c" == "/x/a/b/../../c"
    ensures SquashSlashes("/x/a/b/../../c") == "/x/a/b/../../c"
  {
    XStaleConcat();
    XStaleSquash();
  }
  lemma XStaleConcat() ensures "/x" + "/" + "" + "a/b/../../c" == "/x/a/b/../../c" {}
  lemma XStaleSquash() ensures SquashSlashes("/x/a/b/../../c") == "/x/a/b/../../c"
  {
    XNoDouble();
    SquashWithoutDouble("/x/a/b/../../c");
  }
  lemma XNoDouble()
    ensures forall k :: 0 <= k < |"/x/a/b/../../c"| - 1 ==>
      !("/x/a/b/../../c"[k] == '/' && "/x/a/b/../../c"[k + 1] == '/')
  {}
  lemma XStaleParts()
    ensures Join(["", "x", "a", "b", "..", "..", "c"], "/") == "/x/a/b/../../c"
    ensures "." !in ["", "x", "a", "b", "..", "..", "c"]
    ensures forall k :: 0 <= k < 7 ==> '/' !in ["", "x", "a", "b", "..", "..", "c"][k]
  {
    XStaleTailJoined();
    var parts := ["", "x", "a", "b", "..", "..", "c"];
    assert parts[1..] == ["x", "a", "b", "..", "..", "c"];
    assert parts[1..][1..] == ["a", "b", "..", "..", "c"];
  }
  lemma XStaleTailJoined()
    ensures Join(["a", "b", "..", "..", "c"], "/") == "a/b/../../c"
  {
    var parts := ["a", "b", "..", "..", "c"];
    assert parts[1..] == ["b", "..", "..", "c"];
    assert parts[1..][1..] == ["..", "..", "c"];
    assert Join(["..", "..", "c"], "/") == "../../c";
  }
  lemma XStaleCollapse()
    ensures Collapse(["", "x", "a", "b", "..", "..", "c"], 0) == ["", "x", "a", "..", "c"]
  {
    var parts := ["", "x", "a", "b", "..", "..", "c"];
    assert Collapse(parts, 0) == Collapse(parts, 3);
    assert parts[..3] + parts[5..] == ["", "x", "a", "..", "c"];
    assert Collapse(["", "x", "a", "..", "c"], 3) == ["", "x", "a", "..", "c"];
  }
  lemma XStaleJoined() ensures Join(["", "x", "a", "..", "c"], "/") == "/x/a/../c" {}

  /** Base `/x` with `a/b/../../c` gives `/x/a/../c`: after `b/..` is removed the
      index does not step back, so the second `..` stays. */
  lemma StaleParentKept()
    ensures Resolve("/x", "a/b/../../c", 0) == "/x/a/../c"
  {
    NoLevels(); XStale(); XStaleParts(); XStaleCollapse();
    ResolveThrough("/x", "a/b/../../c", 0, ["", "x", "a", "b", "..", "..", "c"], ["", "x", "a", "..", "c"]);
    XStaleJoined();
  }

  lemma XSibling()
    ensures "/x" + "/" + "../" + "b" == "/x/../b"
    ensures SquashSlashes("/x/../b") == "/x/../b"
  {
    XSiblingConcat();
    XSiblingSquash();
  }
  lemma XSiblingConcat() ensures "/x" + "/" + "../" + "b" == "/x/../b" {}
  lemma XSiblingSquash() ensures SquashSlashes("/x/../b") == "/x/../b"
  {
    assert forall k :: 0 <= k < |"/x/../b"| - 1 ==> !("/x/../b"[k] == '/' && "/x/../b"[k + 1] == '/');
    SquashWithoutDouble("/x/../b");
  }
  lemma XSiblingParts()
    ensures Join(["", "x", "..", "b"], "/") == "/x/../b"
    ensures "." !in ["", "x", "..", "b"]
    ensures forall k :: 0 <= k < 4 ==> '/' !in ["", "x", "..", "b"][k]
  {}
  lemma XSiblingCollapse() ensures Collapse(["", "x", "..", "b"], 0) == ["", "b"] {}
  lemma BJoined() ensures Join(["", "b"], "/") == "/b" {}

  /** Depth -1, as `move` and `moveChild` use for a destination: from `/x`, `b`
      names the sibling `/b`. */
  lemma SiblingOfNode()
    ensures Resolve("/x", "b", -1) == "/b"
  {
    OneLevel(); XSibling(); XSiblingParts(); XSiblingCollapse();
    ResolveThrough("/x", "b", -1, ["", "x", "..", "b"], ["", "b"]);
    BJoined();
  }
}
