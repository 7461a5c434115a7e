/**
  The configuration store (conf.c): a tree of nodes found by '.'-separated names. Over every run
  of ConfSet and ConfRemove it is a map from paths to values and override flags.
 */
module ConfStore {
  import opened Options

  /** A node: its value and flag, and its children in the order of its list. */
  datatype Node = Node(name: string, val: Option<string>, isSeq: bool, allowOverride: bool, children: seq<Node>)

  type Path = seq<string>

  /** A fresh node: no value, and it may be overridden. */
  function NewNode(name: string): Node {
    Node(name, None, false, true, [])
  }

  /** The first child with a name. */
  function FindChild(children: seq<Node>, name: string): (r: Option<nat>)
    ensures r.Some? ==> r.value < |children| && children[r.value].name == name
  {
    if children == [] then None
    else if children[0].name == name then Some(0)
    else
      match FindChild(children[1..], name)
      case None => None
      case Some(k) => Some(k + 1)
  }

  function GetNode(node: Node, path: Path): Option<Node>
    decreases |path|
  {
    if path == [] then Some(node)
    else
      match FindChild(node.children, path[0])
      case None => None
      case Some(k) => GetNode(node.children[k], path[1..])
  }

  /** The node at the end of the path gets a value; nodes missing on the way are created. */
  function SetNode(node: Node, path: Path, val: string, allowOverride: bool): Node
    decreases |path|
  {
    if path == [] then node.(val := Some(val), allowOverride := allowOverride)
    else
      match FindChild(node.children, path[0])
      case None => node.(children := node.children + [SetNode(NewNode(path[0]), path[1..], val, allowOverride)])
      case Some(k) => node.(children := node.children[k := SetNode(node.children[k], path[1..], val, allowOverride)])
  }

  /** Takes the node at the end of the path out of its parent's list. */
  function DropNode(node: Node, path: Path): Node
    requires path != []
    decreases |path|
  {
    match FindChild(node.children, path[0])
    case None => node
    case Some(k) =>
      if |path| == 1 then node.(children := node.children[..k] + node.children[k + 1..])
      else node.(children := node.children[k := DropNode(node.children[k], path[1..])])
  }

  /** The store after a call, and what it returned. */
  datatype Called = Called(root: Node, ok: bool)

  function ConfSet(root: Node, path: Path, val: string, allowOverride: bool): Called {
    match GetNode(root, path)
    case Some(node) =>
      if !node.allowOverride then Called(root, false) else Called(SetNode(root, path, val, allowOverride), true)
    case None => Called(SetNode(root, path, val, allowOverride), true)
  }

  /** The value, none where there is no node; a node without a value has none inside. */
  function ConfGet(root: Node, path: Path): Option<Option<string>> {
    match GetNode(root, path)
    case None => None
    case Some(node) => Some(node.val)
  }

  function ConfRemove(root: Node, path: Path): Called
    requires path != []
  {
    if GetNode(root, path) == None then Called(root, false) else Called(DropNode(root, path), true)
  }

  // ----- The names

  const DOT := '.'

  /** The '.'-separated parts of a name, the empty ones skipped, as strtok_r gives them. */
  function Tokens(name: string): (r: Path)
    ensures forall k :: 0 <= k < |r| ==> r[k] != [] && DOT !in r[k]
    decreases |name|
  {
    if name == [] then []
    else if name[0] == DOT then Tokens(name[1..])
    else
      var n := PartLength(name);
      [name[..n]] + Tokens(name[n..])
  }

  function PartLength(name: string): (n: nat)
    ensures n <= |name| && DOT !in name[..n] && (n < |name| ==> name[n] == DOT)
    ensures name != [] && name[0] != DOT ==> n > 0
  {
    if name == [] || name[0] == DOT then 0
    else
      var n := PartLength(name[1..]) + 1;
      assert name[..n] == [name[0]] + name[1..][..n - 1];
      n
  }

  /** What strtok_r gives next: a part, and the rest of the name behind it; no part at the end. */
  function NextToken(rest: string): (r: (Option<string>, string))
    ensures Tokens(rest) == match r.0 case None => [] case Some(token) => [token] + Tokens(r.1)
    ensures r.0.Some? ==> |r.1| < |rest|
    decreases |rest|
  {
    if rest == [] then (None, [])
    else if rest[0] == DOT then NextToken(rest[1..])
    else (Some(rest[..PartLength(rest)]), rest[PartLength(rest)..])
  }

  /** Parts joined by dots. */
  function Joined(path: Path): string {
    if path == [] then [] else if |path| == 1 then path[0] else path[0] + [DOT] + Joined(path[1..])
  }

  /** Non-empty parts without dots. */
  predicate IsPart(part: string) {
    part != [] && DOT !in part
  }

  lemma {:induction false} PartEnds(part: string, rest: string)
    requires DOT !in part && (rest == [] || rest[0] == DOT)
    ensures PartLength(part + rest) == |part|
    decreases |part|
  {
    if part == [] {
      assert part + rest == rest;
    } else {
      assert (part + rest)[1..] == part[1..] + rest;
      PartEnds(part[1..], rest);
    }
  }

  /** Every path of such parts is the path of a name. */
  lemma {:induction false} EveryPathHasAName(path: Path)
    requires forall k :: 0 <= k < |path| ==> IsPart(path[k])
    ensures Tokens(Joined(path)) == path
    decreases |path|
  {
    if path != [] {
      var rest := if |path| == 1 then [] else [DOT] + Joined(path[1..]);
      assert Joined(path) == path[0] + rest;
      PartEnds(path[0], rest);
      assert (path[0] + rest)[..|path[0]|] == path[0] && (path[0] + rest)[|path[0]|..] == rest;
      EveryPathHasAName(path[1..]);
      if |path| > 1 {
        assert rest[1..] == Joined(path[1..]);
      } else {
        assert path[1..] == [] && path == [path[0]];
      }
    }
  }

  /** A name has a part unless it is nothing but dots. */
  lemma {:induction false} NamesWithoutParts(name: string)
    ensures Tokens(name) == [] <==> forall k :: 0 <= k < |name| ==> name[k] == DOT
    decreases |name|
  {
    if name != [] && name[0] == DOT {
      NamesWithoutParts(name[1..]);
      assert forall k :: 0 <= k < |name[1..]| ==> name[1..][k] == name[k + 1];
      if Tokens(name) == [] {
        forall k | 0 <= k < |name| ensures name[k] == DOT {
          if k > 0 {
            assert name[1..][k - 1] == name[k];
          }
        }
      }
    }
  }

  // ----- The map

  datatype Entry = Entry(val: Option<string>, allowOverride: bool)

  /** What is stored under a path. */
  function EntryAt(node: Node, path: Path): Option<Entry> {
    match GetNode(node, path)
    case None => None
    case Some(n) => Some(Entry(n.val, n.allowOverride))
  }

  predicate DistinctNames(children: seq<Node>) {
    forall i, j :: 0 <= i < j < |children| ==> children[i].name != children[j].name
  }

  /** No two children of a node have the same name. */
  predicate Valid(node: Node) {
    DistinctNames(node.children) && forall k :: 0 <= k < |node.children| ==> Valid(node.children[k])
  }

  lemma {:induction false} Found(children: seq<Node>, k: nat)
    requires DistinctNames(children) && k < |children|
    ensures FindChild(children, children[k].name) == Some(k)
  {
    if k > 0 {
      var rest := children[1..];
      assert forall i, j :: 0 <= i < j < |rest| ==> rest[i].name != rest[j].name by {
        forall i, j | 0 <= i < j < |rest| ensures rest[i].name != rest[j].name {
          assert children[i + 1].name != children[j + 1].name;
        }
      }
      assert children[0].name != children[k].name;
      Found(rest, k - 1);
    }
  }

  lemma {:induction false} NotFound(children: seq<Node>, name: string)
    ensures FindChild(children, name) == None <==> forall k :: 0 <= k < |children| ==> children[k].name != name
  {
    if children != [] {
      NotFound(children[1..], name);
      if forall k :: 0 <= k < |children| ==> children[k].name != name {
        forall k | 0 <= k < |children[1..]| ensures children[1..][k].name != name {
          assert children[1..][k] == children[k + 1];
        }
      }
      if FindChild(children, name) == None {
        forall k | 0 <= k < |children| ensures children[k].name != name {
          if k > 0 { assert children[1..][k - 1] == children[k]; }
        }
      }
    }
  }

  /** A child is found by its name wherever a list with distinct names has it. */
  lemma FoundIs(children: seq<Node>, name: string, k: nat)
    requires DistinctNames(children) && k < |children| && children[k].name == name
    ensures FindChild(children, name) == Some(k)
  {
    Found(children, k);
  }

  lemma {:induction false} SetKeepsValid(node: Node, path: Path, val: string, allowOverride: bool)
    requires Valid(node)
    ensures Valid(SetNode(node, path, val, allowOverride)) && SetNode(node, path, val, allowOverride).name == node.name
    decreases |path|
  {
    if path != [] {
      NotFound(node.children, path[0]);
      match FindChild(node.children, path[0])
      case None => SetKeepsValid(NewNode(path[0]), path[1..], val, allowOverride);
      case Some(k) => SetKeepsValid(node.children[k], path[1..], val, allowOverride);
    }
  }

  lemma WithoutKeepsValid(node: Node, k: nat)
    requires Valid(node) && k < |node.children|
    ensures Valid(node.(children := node.children[..k] + node.children[k + 1..]))
  {
    var children := node.children[..k] + node.children[k + 1..];
    forall i, j | 0 <= i < j < |children| ensures children[i].name != children[j].name {
    }
  }

  lemma {:induction false} DropKeepsValid(node: Node, path: Path)
    requires Valid(node) && path != []
    ensures Valid(DropNode(node, path)) && DropNode(node, path).name == node.name
    decreases |path|
  {
    match FindChild(node.children, path[0])
    case None =>
    case Some(k) =>
      if |path| == 1 {
        WithoutKeepsValid(node, k);
      } else {
        DropKeepsValid(node.children[k], path[1..]);
      }
  }

  /** What a set leaves under each path. */
  function AfterSet(before: Option<Entry>, path: Path, q: Path, val: string, allowOverride: bool): Option<Entry> {
    if q == path then Some(Entry(Some(val), allowOverride))
    else if q <= path && before == None then Some(Entry(None, true))
    else before
  }

  lemma {:induction false} SetChanges(node: Node, path: Path, val: string, allowOverride: bool, q: Path)
    requires Valid(node)
    ensures EntryAt(SetNode(node, path, val, allowOverride), q) == AfterSet(EntryAt(node, q), path, q, val, allowOverride)
    decreases |path|
  {
    if path != [] && q != [] {
      var node' := SetNode(node, path, val, allowOverride);
      SetKeepsValid(node, path, val, allowOverride);
      PrefixSteps(q, path);
      match FindChild(node.children, path[0]) {
        case None =>
          SetKeepsValid(NewNode(path[0]), path[1..], val, allowOverride);
          SetMakesChild(node, path, val, allowOverride, q);
        case Some(k) =>
          SetKeepsValid(node.children[k], path[1..], val, allowOverride);
          SetChanges(node.children[k], path[1..], val, allowOverride, q[1..]);
          OtherChildren(node.children, node'.children, k, q[0]);
      }
    }
  }

  /** Prefixes and equal paths, a step into both. */
  lemma PrefixSteps(q: Path, path: Path)
    requires q != [] && path != []
    ensures q <= path <==> q[0] == path[0] && q[1..] <= path[1..]
    ensures q == path <==> q[0] == path[0] && q[1..] == path[1..]
    ensures path <= q <==> q[0] == path[0] && path[1..] <= q[1..]
  {
    assert q == [q[0]] + q[1..] && path == [path[0]] + path[1..];
    if q[0] == path[0] && q[1..] <= path[1..] {
      assert path[1..][..|q| - 1] == q[1..];
      assert path[..|q|] == [path[0]] + path[1..][..|q| - 1];
    }
    if q[0] == path[0] && path[1..] <= q[1..] {
      assert q[1..][..|path| - 1] == path[1..];
      assert q[..|path|] == [q[0]] + q[1..][..|path| - 1];
    }
  }

  /** One child replaced by one of the same name: the others are found as before. */
  lemma OtherChildren(children: seq<Node>, children': seq<Node>, k: nat, name: string)
    requires k < |children| && |children'| == |children| && DistinctNames(children) && DistinctNames(children')
    requires children'[k].name == children[k].name && forall j :: 0 <= j < |children| && j != k ==> children'[j] == children[j]
    ensures FindChild(children', name) == FindChild(children, name)
  {
    NotFound(children, name);
    NotFound(children', name);
    if FindChild(children, name).Some? {
      var j := FindChild(children, name).value;
      FoundIs(children', name, j);
    }
  }

  lemma SetMakesChild(node: Node, path: Path, val: string, allowOverride: bool, q: Path)
    requires Valid(node) && path != [] && q != [] && FindChild(node.children, path[0]) == None
    requires Valid(SetNode(NewNode(path[0]), path[1..], val, allowOverride))
    requires SetNode(NewNode(path[0]), path[1..], val, allowOverride).name == path[0]
    ensures EntryAt(SetNode(node, path, val, allowOverride), q) == AfterSet(EntryAt(node, q), path, q, val, allowOverride)
    decreases |path|, 0
  {
    var child := SetNode(NewNode(path[0]), path[1..], val, allowOverride);
    var children := node.children + [child];
    SetKeepsValid(node, path, val, allowOverride);
    PrefixSteps(q, path);
    NotFound(node.children, path[0]);
    if q[0] == path[0] {
      FoundIs(children, q[0], |node.children|);
      SetChanges(NewNode(path[0]), path[1..], val, allowOverride, q[1..]);
      NewNodeHasNothing(path[0], q[1..]);
    } else {
      NotFound(node.children, q[0]);
      NotFound(children, q[0]);
      if FindChild(node.children, q[0]).Some? {
        FoundIs(children, q[0], FindChild(node.children, q[0]).value);
      }
    }
  }

  lemma NewNodeHasNothing(name: string, q: Path)
    ensures EntryAt(NewNode(name), q) == if q == [] then Some(Entry(None, true)) else None
  {
  }

  lemma DropHere(node: Node, path: Path, q: Path)
    requires Valid(node) && |path| == 1 && q != [] && FindChild(node.children, path[0]).Some?
    ensures EntryAt(DropNode(node, path), q) == if path <= q then None else EntryAt(node, q)
  {
    PrefixSteps(q, path);
    DropOne(node, FindChild(node.children, path[0]).value, q[0]);
  }

  lemma {:induction false} DropChanges(node: Node, path: Path, q: Path)
    requires Valid(node) && path != []
    ensures EntryAt(DropNode(node, path), q) == if path <= q then None else EntryAt(node, q)
    decreases |path|
  {
    var found := FindChild(node.children, path[0]);
    if q != [] {
      PrefixSteps(q, path);
      if found == None {
        NotFound(node.children, path[0]);
      } else if |path| == 1 {
        DropHere(node, path, q);
      } else {
        var k := found.value;
        DropKeepsValid(node, path);
        DropKeepsValid(node.children[k], path[1..]);
        DropChanges(node.children[k], path[1..], q[1..]);
        OtherChildren(node.children, DropNode(node, path).children, k, q[0]);
      }
    }
  }

  /** One child taken out: it is not found any more, and the others are. */
  lemma DropOne(node: Node, k: nat, name: string)
    requires Valid(node) && k < |node.children|
    ensures var children := node.children[..k] + node.children[k + 1..];
      if name == node.children[k].name then FindChild(children, name) == None
      else match FindChild(node.children, name)
           case None => FindChild(children, name) == None
           case Some(j) => FindChild(children, name).Some? && children[FindChild(children, name).value] == node.children[j]
  {
    var children := node.children[..k] + node.children[k + 1..];
    assert forall i :: 0 <= i < |children| ==> children[i] == node.children[if i < k then i else i + 1];
    assert DistinctNames(children);
    NotFound(children, name);
    NotFound(node.children, name);
    if name != node.children[k].name && FindChild(node.children, name).Some? {
      var j := FindChild(node.children, name).value;
      FoundIs(children, name, if j < k then j else j - 1);
    }
  }

  // ----- Runs

  /** A call, with the name it is given. */
  datatype Op = SetOp(name: string, val: string, allowOverride: bool) | RemoveOp(name: string)

  /** The name has at least one part. */
  predicate Named(op: Op) {
    Tokens(op.name) != []
  }

  function Do(root: Node, op: Op): Called
    requires Named(op)
  {
    match op
    case SetOp(name, val, allowOverride) => ConfSet(root, Tokens(name), val, allowOverride)
    case RemoveOp(name) => ConfRemove(root, Tokens(name))
  }

  /** The store as a map. */
  type View = map<Path, Entry>

  /** Every prefix of a path that is there is there as well. */
  ghost predicate PrefixClosed(view: View) {
    forall q: Path, p: Path :: q in view && p <= q ==> p in view
  }

  ghost predicate Represents(root: Node, view: View) {
    forall q: Path :: EntryAt(root, q) == if q in view then Some(view[q]) else None
  }

  /** Setting in the map: the path, and its missing prefixes as empty entries. */
  function ViewSet(view: View, path: Path, val: string, allowOverride: bool): View {
    if path in view && !view[path].allowOverride then view
    else
      map q | q in view.Keys + Prefixes(path) ::
        if q == path then Entry(Some(val), allowOverride) else if q in view then view[q] else Entry(None, true)
  }

  function Prefixes(path: Path): set<Path> {
    set n | 0 <= n <= |path| :: path[..n]
  }

  function ViewRemove(view: View, path: Path): View {
    map q | q in view && !(path <= q) :: view[q]
  }

  function DoView(view: View, op: Op): View {
    match op
    case SetOp(name, val, allowOverride) => ViewSet(view, Tokens(name), val, allowOverride)
    case RemoveOp(name) => ViewRemove(view, Tokens(name))
  }

  lemma PrefixesArePrefixes(path: Path, q: Path)
    ensures q in Prefixes(path) <==> q <= path
  {
    if q <= path {
      assert q == path[..|q|];
    }
  }

  lemma {:induction false} DropNothing(node: Node, path: Path)
    requires path != [] && GetNode(node, path) == None
    ensures DropNode(node, path) == node
    decreases |path|
  {
    match FindChild(node.children, path[0])
    case None =>
    case Some(k) =>
      if |path| > 1 {
        DropNothing(node.children[k], path[1..]);
        assert node.children[k := node.children[k]] == node.children;
      }
  }

  /** One call does to the tree what the map operation does to the map, and reports whether it did anything. */
  lemma DoRefines(root: Node, view: View, op: Op)
    requires Valid(root) && Represents(root, view) && Named(op)
    ensures Valid(Do(root, op).root) && Represents(Do(root, op).root, DoView(view, op))
    ensures Do(root, op).ok <==> match op
      case SetOp(name, _, _) => !(Tokens(name) in view && !view[Tokens(name)].allowOverride)
      case RemoveOp(name) => Tokens(name) in view
  {
    hide Valid, SetNode, DropNode, Tokens;
    var path := Tokens(op.name);
    assert EntryAt(root, path) == if path in view then Some(view[path]) else None;
    match op {
      case SetOp(_, val, allowOverride) =>
        SetKeepsValid(root, path, val, allowOverride);
        forall q: Path ensures EntryAt(Do(root, op).root, q) == if q in DoView(view, op) then Some(DoView(view, op)[q]) else None {
          SetChanges(root, path, val, allowOverride, q);
          PrefixesArePrefixes(path, q);
          assert EntryAt(root, q) == if q in view then Some(view[q]) else None;
        }
      case RemoveOp(_) =>
        DropKeepsValid(root, path);
        if GetNode(root, path) == None { DropNothing(root, path); }
        forall q: Path ensures EntryAt(Do(root, op).root, q) == if q in DoView(view, op) then Some(DoView(view, op)[q]) else None {
          DropChanges(root, path, q);
          assert EntryAt(root, q) == if q in view then Some(view[q]) else None;
        }
    }
  }

  function DoAll(root: Node, ops: seq<Op>): Node
    requires forall k :: 0 <= k < |ops| ==> Named(ops[k])
    decreases |ops|
  {
    if ops == [] then root else DoAll(Do(root, ops[0]).root, ops[1..])
  }

  function DoAllView(view: View, ops: seq<Op>): View
    decreases |ops|
  {
    if ops == [] then view else DoAllView(DoView(view, ops[0]), ops[1..])
  }

  lemma {:induction false} RunsRefine(root: Node, view: View, ops: seq<Op>)
    requires Valid(root) && Represents(root, view) && forall k :: 0 <= k < |ops| ==> Named(ops[k])
    ensures Valid(DoAll(root, ops)) && Represents(DoAll(root, ops), DoAllView(view, ops))
    decreases |ops|
  {
    hide Valid, Represents, DoView, Do;
    if ops != [] {
      DoRefines(root, view, ops[0]);
      RunsRefine(Do(root, ops[0]).root, DoView(view, ops[0]), ops[1..]);
    }
  }

  lemma DoKeepsPrefixes(view: View, op: Op)
    requires PrefixClosed(view)
    ensures PrefixClosed(DoView(view, op))
  {
    hide Tokens, Prefixes;
    var path := Tokens(op.name);
    forall q: Path, p: Path | q in DoView(view, op) && p <= q
      ensures p in DoView(view, op)
    {
      PrefixesArePrefixes(path, q);
      PrefixesArePrefixes(path, p);
    }
  }

  lemma {:induction false} RunsKeepPrefixes(view: View, ops: seq<Op>)
    requires PrefixClosed(view)
    ensures PrefixClosed(DoAllView(view, ops))
    decreases |ops|
  {
    hide DoView, PrefixClosed;
    if ops != [] {
      DoKeepsPrefixes(view, ops[0]);
      RunsKeepPrefixes(DoView(view, ops[0]), ops[1..]);
    }
  }

  /** From the empty store, every run is a run of the map, and the map is prefix-closed. */
  lemma StoreIsAMap(ops: seq<Op>)
    requires forall k :: 0 <= k < |ops| ==> Named(ops[k])
    ensures Valid(DoAll(NewNode(""), ops))
    ensures var view := DoAllView(map[[] := Entry(None, true)], ops);
      Represents(DoAll(NewNode(""), ops), view) && PrefixClosed(view) && [] in view
  {
    var view: View := map[[] := Entry(None, true)];
    forall q: Path ensures EntryAt(NewNode(""), q) == if q in view then Some(view[q]) else None {
      NewNodeHasNothing("", q);
    }
    RunsRefine(NewNode(""), view, ops);
    RunsKeepPrefixes(view, ops);
    assert EntryAt(DoAll(NewNode(""), ops), []).Some?;
  }

  /** A value that may not be overridden stays until it or an ancestor is removed. */
  lemma {:induction false} FixedValuesStay(view: View, ops: seq<Op>, path: Path, val: Option<string>)
    requires path in view && view[path] == Entry(val, false)
    requires forall k :: 0 <= k < |ops| && ops[k].RemoveOp? ==> !(Tokens(ops[k].name) <= path)
    ensures path in DoAllView(view, ops) && DoAllView(view, ops)[path] == Entry(val, false)
    decreases |ops|
  {
    if ops != [] {
      assert path in DoView(view, ops[0]) && DoView(view, ops[0])[path] == Entry(val, false);
      FixedValuesStay(DoView(view, ops[0]), ops[1..], path, val);
    }
  }

  /** What was set is what is got. */
  lemma GetReturnsSet(root: Node, path: Path, val: string, allowOverride: bool)
    requires Valid(root) && ConfSet(root, path, val, allowOverride).ok
    ensures ConfGet(ConfSet(root, path, val, allowOverride).root, path) == Some(Some(val))
  {
    SetChanges(root, path, val, allowOverride, path);
  }
}
