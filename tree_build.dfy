/**
 * The rest of `Tree` in `gui_tree_gen.py`: hanging the ordinary widgets
 * under the containers of the linked tree, pruning containers left
 * empty, the export to `NodeDto`s, and the whole `_build_tree` /
 * `_create_tree` pipeline.
 *
 * Each `randrange(0, n)` is a caller-supplied number taken modulo `n`; a
 * finite list of them stands for the unbounded `while` loops, and a
 * driver returns `None` when they run out.
 */
module TreeBuild {
  import opened Wrappers
  import opened SeqUtil
  import opened TreeWidgets
  import opened TreeLink
  import opened TreeDto
  import opened WidgetsSample

  // ---------------------------------------------------------------------
  // Ids and pre-order listings

  lemma {:induction false} IdsAppend(a: seq<Node>, b: seq<Node>)
    ensures Ids(a + b) == Ids(a) + Ids(b)
  {
    var l, r := Ids(a + b), Ids(a) + Ids(b);
    forall k | 0 <= k < |a + b|
      ensures l[k] == r[k]
    {
      if k < |a| {
        assert (a + b)[k] == a[k];
      } else {
        assert (a + b)[k] == b[k - |a|];
      }
    }
    assert |l| == |r|;
  }

  /** The pre-order listing holds every id of the tree, once per node. */
  lemma {:induction false} PreorderIds(n: Node)
    ensures multiset(Ids(Preorder(n))) == TreeIds(n)
    decreases n, 1
  {
    IdsAppend([n], PreorderAll(n.children));
    PreorderAllIds(n.children);
  }

  lemma {:induction false} PreorderAllIds(ns: seq<Node>)
    ensures multiset(Ids(PreorderAll(ns))) == ForestIds(ns)
    decreases ns, 0
  {
    if ns != [] {
      IdsAppend(Preorder(ns[0]), PreorderAll(ns[1..]));
      PreorderIds(ns[0]);
      PreorderAllIds(ns[1..]);
    }
  }

  // ---------------------------------------------------------------------
  // Finding a listed container in the growing tree

  /** The first node of `n`'s pre-order whose id is `x`: the object the container list refers to. */
  function FindById(n: Node, x: nat): (r: Option<Node>)
    ensures r.Some? ==> r.value.id == x
    ensures r.None? <==> x !in TreeIds(n)
    decreases n, 1
  {
    if n.id == x then Some(n) else FindInForest(n.children, x)
  }

  function FindInForest(ns: seq<Node>, x: nat): (r: Option<Node>)
    ensures r.Some? ==> r.value.id == x
    ensures r.None? <==> x !in ForestIds(ns)
    decreases ns, 0
  {
    if ns == [] then None
    else
      match FindById(ns[0], x)
      case Some(n) => Some(n)
      case None => FindInForest(ns[1..], x)
  }

  /** `_only_child_check`: a has-only-child container takes a child only while it has none. */
  predicate OnlyChildCheck(parent: Node) {
    !parent.widget.hasOnlyChild || (parent.widget.hasOnlyChild && |parent.children| == 0)
  }

  // ---------------------------------------------------------------------
  // `_link_ordinary_node_to_container_node`

  /**
   * One step: the container with id `x` takes the ordinary node at `ci`
   * when it can be its parent and the only-child rule allows it; the node
   * then leaves the ordinary list.
   */
  function LinkLeaf(tree: Node, x: nat, ordinary: seq<Node>, ci: nat): (Node, seq<Node>)
    requires x in TreeIds(tree) && ci < |ordinary|
  {
    var parent := FindById(tree, x).value;
    var child := ordinary[ci];
    if CanBeParentOf(parent, child) && OnlyChildCheck(parent) then
      (AppendTree(tree, x, child), RemoveAt(ordinary, ci))
    else (tree, ordinary)
  }

  /** `_link_ordinary_node_to_container_node` with the drawn indices. */
  method LinkOrdinaryNodeToContainerNode(tree: Node, containerIds: seq<nat>, ordinary: seq<Node>,
                                         parentIndex: nat, childIndex: nat)
    returns (tree': Node, ordinary': seq<Node>)
    requires parentIndex < |containerIds| && childIndex < |ordinary|
    requires containerIds[parentIndex] in TreeIds(tree)
    ensures (tree', ordinary') == LinkLeaf(tree, containerIds[parentIndex], ordinary, childIndex)
  {
    var child := ordinary[childIndex];
    var parent := FindById(tree, containerIds[parentIndex]).value;
    tree', ordinary' := tree, ordinary;
    if CanBeParentOf(parent, child) && OnlyChildCheck(parent) {
      tree' := AppendTree(tree, containerIds[parentIndex], child);
      ordinary' := RemoveAt(ordinary, childIndex);
    }
  }

  lemma ForestRemoveAt(ns: seq<Node>, i: nat)
    requires i < |ns|
    ensures ForestIds(RemoveAt(ns, i)) + TreeIds(ns[i]) == ForestIds(ns)
  {
    ForestAt(ns, i);
    ForestAppend(ns[..i], ns[i + 1..]);
  }

  /**
   * A leaf step moves a node from the ordinary list into the tree: the
   * tree and the list together hold the same ids, the list never grows,
   * and it shrinks exactly when the step links.
   */
  lemma LinkLeafKeeps(tree: Node, x: nat, ordinary: seq<Node>, ci: nat)
    requires Unique([tree] + ordinary) && x in TreeIds(tree) && ci < |ordinary|
    ensures var (t', o') := LinkLeaf(tree, x, ordinary, ci);
      && TreeIds(t') + ForestIds(o') == TreeIds(tree) + ForestIds(ordinary)
      && Unique([t'] + o')
      && x in TreeIds(t')
      && (|o'| == |ordinary| - 1 || (t', o') == (tree, ordinary))
  {
    var (t', o') := LinkLeaf(tree, x, ordinary, ci);
    ForestCons(tree, ordinary);
    ForestCons(t', o');
    if t' != tree || o' != ordinary {
      var child := ordinary[ci];
      assert ForestIds([tree] + ordinary)[x] <= 1;
      AppendTreeIds(tree, x, child);
      ForestRemoveAt(ordinary, ci);
    }
  }

  // ---------------------------------------------------------------------
  // Ordinary widgets inside a tree

  /** The ids of the non-container nodes, in pre-order. */
  function LeafIds(n: Node): seq<nat>
    decreases n, 1
  {
    (if n.widget.isContainer then [] else [n.id]) + LeafIdsAll(n.children)
  }

  function LeafIdsAll(ns: seq<Node>): seq<nat>
    decreases ns, 0
  {
    if ns == [] then [] else LeafIds(ns[0]) + LeafIdsAll(ns[1..])
  }

  lemma {:induction false} LeafIdsAllAppend(a: seq<Node>, b: seq<Node>)
    ensures LeafIdsAll(a + b) == LeafIdsAll(a) + LeafIdsAll(b)
    decreases |a|
  {
    if a == [] {
      assert a + b == b;
    } else {
      assert (a + b)[1..] == a[1..] + b;
      LeafIdsAllAppend(a[1..], b);
    }
  }

  lemma LeafIdsAllSingle(n: Node)
    ensures LeafIdsAll([n]) == LeafIds(n)
  {
    assert [n][1..] == [];
  }

  /** Appending under an id held once adds exactly the appended tree's ordinary ids. */
  lemma {:induction false} LeafIdsAppendTree(n: Node, x: nat, c: Node)
    requires TreeIds(n)[x] <= 1
    ensures multiset(LeafIds(AppendTree(n, x, c)))
         == multiset(LeafIds(n)) + (if x in TreeIds(n) then multiset(LeafIds(c)) else multiset{})
    decreases n, 1
  {
    var ch := n.children;
    var ch' := AppendForest(ch, x, c);
    var extra := if n.id == x then [c] else [];
    var own := if n.widget.isContainer then [] else [n.id];
    assert LeafIds(AppendTree(n, x, c)) == own + LeafIdsAll(ch' + extra);
    assert TreeIds(n) == multiset{n.id} + ForestIds(ch);
    LeafIdsAllAppend(ch', extra);
    if n.id == x {
      AppendForestAbsent(ch, x, c);
      LeafIdsAllSingle(c);
      MultisetAppendAssoc(own, LeafIdsAll(ch), LeafIds(c));
      assert x in TreeIds(n);
    } else {
      assert LeafIdsAll(extra) == [] && LeafIdsAll(ch') + [] == LeafIdsAll(ch');
      LeafIdsAppendForest(ch, x, c);
      assert (x in TreeIds(n)) == (x in ForestIds(ch));
      MultisetSameTail(own, LeafIdsAll(ch'), LeafIdsAll(ch),
                       if x in ForestIds(ch) then multiset(LeafIds(c)) else multiset{});
    }
  }

  lemma MultisetSameTail(own: seq<nat>, p: seq<nat>, q: seq<nat>, e: multiset<nat>)
    requires multiset(p) == multiset(q) + e
    ensures multiset(own + p) == multiset(own + q) + e
  {
  }

  lemma MultisetAppendAssoc(a: seq<nat>, b: seq<nat>, c: seq<nat>)
    ensures multiset(a + (b + c)) == multiset(a + b) + multiset(c)
  {
  }

  lemma {:induction false} LeafIdsAppendForest(ns: seq<Node>, x: nat, c: Node)
    requires ForestIds(ns)[x] <= 1
    ensures multiset(LeafIdsAll(AppendForest(ns, x, c)))
         == multiset(LeafIdsAll(ns)) + (if x in ForestIds(ns) then multiset(LeafIds(c)) else multiset{})
    decreases ns, 0
  {
    if ns != [] {
      var r := AppendForest(ns, x, c);
      assert r[0] == AppendTree(ns[0], x, c) && r[1..] == AppendForest(ns[1..], x, c);
      assert ForestIds(ns) == TreeIds(ns[0]) + ForestIds(ns[1..]);
      LeafIdsAppendTree(ns[0], x, c);
      LeafIdsAppendForest(ns[1..], x, c);
      assert LeafIdsAll(r) == LeafIds(r[0]) + LeafIdsAll(r[1..]);
      assert LeafIdsAll(ns) == LeafIds(ns[0]) + LeafIdsAll(ns[1..]);
      AddEachSide(multiset(LeafIds(ns[0])), multiset(LeafIdsAll(ns[1..])), multiset(LeafIds(c)),
                  x in TreeIds(ns[0]), x in ForestIds(ns[1..]));
    }
  }

  /** What is added to one side or the other, never both, is added once to the whole. */
  lemma AddEachSide(a: multiset<nat>, b: multiset<nat>, c: multiset<nat>, inA: bool, inB: bool)
    requires !(inA && inB)
    ensures (a + (if inA then c else multiset{})) + (b + (if inB then c else multiset{}))
         == (a + b) + (if inA || inB then c else multiset{})
  {
  }

  lemma LeafIdsRemoveAt(ns: seq<Node>, i: nat)
    requires i < |ns|
    ensures multiset(LeafIdsAll(RemoveAt(ns, i))) + multiset(LeafIds(ns[i])) == multiset(LeafIdsAll(ns))
  {
    LeafIdsAllAt(ns, i);
    LeafIdsAllAppend(ns[..i], ns[i + 1..]);
    MultisetMiddle(LeafIdsAll(ns[..i]), LeafIds(ns[i]), LeafIdsAll(ns[i + 1..]));
  }

  lemma {:induction false} LeafIdsAllAt(ns: seq<Node>, i: nat)
    requires i < |ns|
    ensures LeafIdsAll(ns) == LeafIdsAll(ns[..i]) + (LeafIds(ns[i]) + LeafIdsAll(ns[i + 1..]))
  {
    if i == 0 {
      assert ns[..0] == [] && ns[1..] == ns[i + 1..];
    } else {
      LeafIdsAllAt(ns[1..], i - 1);
      assert ns[1..][..i - 1] == ns[..i][1..] && ns[..i][0] == ns[0];
      assert ns[1..][i - 1] == ns[i] && ns[1..][i..] == ns[i + 1..];
      AppendAssoc(LeafIds(ns[0]), LeafIdsAll(ns[..i][1..]), LeafIds(ns[i]) + LeafIdsAll(ns[i + 1..]));
    }
  }

  lemma MultisetMiddle(b: seq<nat>, x: seq<nat>, a: seq<nat>)
    ensures multiset(b + a) + multiset(x) == multiset(b + (x + a))
  {
  }

  /** A leaf step moves the ordinary ids of the linked node from the list into the tree. */
  lemma LinkLeafKeepsLeaves(tree: Node, x: nat, ordinary: seq<Node>, ci: nat)
    requires Unique([tree] + ordinary) && x in TreeIds(tree) && ci < |ordinary|
    ensures var (t', o') := LinkLeaf(tree, x, ordinary, ci);
      multiset(LeafIds(t')) + multiset(LeafIdsAll(o')) == multiset(LeafIds(tree)) + multiset(LeafIdsAll(ordinary))
  {
    var parent := FindById(tree, x).value;
    var child := ordinary[ci];
    if CanBeParentOf(parent, child) && OnlyChildCheck(parent) {
      assert TreeIds(tree)[x] <= 1 by {
        ForestCons(tree, ordinary);
        assert ForestIds([tree] + ordinary)[x] <= 1;
      }
      LeafIdsAppendTree(tree, x, child);
      LeafIdsRemoveAt(ordinary, ci);
      MoveBetween(multiset(LeafIds(AppendTree(tree, x, child))), multiset(LeafIds(tree)), multiset(LeafIds(child)),
                  multiset(LeafIdsAll(RemoveAt(ordinary, ci))), multiset(LeafIdsAll(ordinary)));
    }
  }

  lemma MoveBetween(t': multiset<nat>, t: multiset<nat>, c: multiset<nat>, o': multiset<nat>, o: multiset<nat>)
    requires t' == t + c && o' + c == o
    ensures t' + o' == t + o
  {
  }

  // ---------------------------------------------------------------------
  // Trees made of containers only

  predicate AllContainers(n: Node)
    decreases n
  {
    n.widget.isContainer && forall k :: 0 <= k < |n.children| ==> AllContainers(n.children[k])
  }

  lemma {:induction false} AllContainersNoLeaves(n: Node)
    requires AllContainers(n)
    ensures LeafIds(n) == []
    decreases n, 1
  {
    AllContainersNoLeavesAll(n.children);
  }

  lemma {:induction false} AllContainersNoLeavesAll(ns: seq<Node>)
    requires forall k :: 0 <= k < |ns| ==> AllContainers(ns[k])
    ensures LeafIdsAll(ns) == []
    decreases ns, 0
  {
    if ns != [] {
      AllContainersNoLeaves(ns[0]);
      AllContainersNoLeavesAll(ns[1..]);
    }
  }

  lemma {:induction false} AppendTreeContainers(n: Node, x: nat, c: Node)
    requires AllContainers(n) && AllContainers(c)
    ensures AllContainers(AppendTree(n, x, c))
    decreases n
  {
    var ch' := AppendForest(n.children, x, c);
    AppendForestLength(n.children, x, c);
    forall k | 0 <= k < |ch'|
      ensures AllContainers(ch'[k])
    {
      AppendForestAt(n.children, x, c, k);
      AppendTreeContainers(n.children[k], x, c);
    }
  }

  lemma {:induction false} MoveAllContainers(ns: seq<Node>, cid: nat, gs: seq<Node>)
    requires forall n :: n in ns ==> AllContainers(n)
    requires forall g :: g in gs ==> AllContainers(g)
    ensures forall n :: n in MoveAll(ns, cid, gs) ==> AllContainers(n)
    decreases |gs|
  {
    if gs != [] {
      var a := AppendForest(ns, cid, gs[0]);
      AppendForestLength(ns, cid, gs[0]);
      assert gs[0] in gs;
      forall n | n in a
        ensures AllContainers(n)
      {
        var k :| 0 <= k < |a| && a[k] == n;
        AppendForestAt(ns, cid, gs[0], k);
        AppendTreeContainers(ns[k], cid, gs[0]);
      }
      MoveAllContainers(RemoveRootId(a, gs[0].id), cid, gs[1..]);
    }
  }

  /** Linking containers builds trees of containers. */
  lemma LinkTwoFixedContainers(ns: seq<Node>, pi: nat, ci: nat)
    requires pi < |ns| && ci < |ns| && forall n :: n in ns ==> AllContainers(n)
    ensures forall n :: n in LinkTwoFixed(ns, pi, ci) ==> AllContainers(n)
  {
    if pi != ci && CanBeParentOf(ns[pi], ns[ci]) {
      var attached := Attach(ns, pi, ci);
      assert ns[pi] in ns && ns[ci] in ns;
      var p' := attached[pi];
      assert AllContainers(p') by {
        assert p'.children == ns[pi].children + [ns[ci]];
        forall k | 0 <= k < |p'.children|
          ensures AllContainers(p'.children[k])
        {
          if k < |ns[pi].children| {
            assert p'.children[k] == ns[pi].children[k];
          }
        }
      }
      assert forall n :: n in attached ==> AllContainers(n) by {
        forall n | n in attached
          ensures AllContainers(n)
        {
          var k :| 0 <= k < |attached| && attached[k] == n;
          if k != pi {
            assert ns[k] in ns;
          }
        }
      }
      var gs := WithoutId(OnlyParentNodes(attached, ci), ns[pi].id);
      MoveAllContainers(attached, ns[ci].id, gs);
    }
  }

  // ---------------------------------------------------------------------
  // `remove_empty_containers`

  /** What `traversal1` makes of a node: containers left without children disappear, bottom-up. */
  function Pruned(n: Node): (r: Node)
    ensures r.id == n.id && r.widget == n.widget
    decreases n, 1
  {
    Node(n.id, n.widget, PrunedChildren(n.children))
  }

  function PrunedChildren(cs: seq<Node>): seq<Node>
    decreases cs, 0
  {
    if cs == [] then []
    else
      var c := cs[0];
      var c' := if c.widget.isContainer then Pruned(c) else c;
      (if c.widget.isContainer && c'.children == [] then [] else [c']) + PrunedChildren(cs[1..])
  }

  lemma {:induction false} PrunedChildrenAppend(a: seq<Node>, b: seq<Node>)
    ensures PrunedChildren(a + b) == PrunedChildren(a) + PrunedChildren(b)
    decreases |a|
  {
    if a == [] {
      assert a + b == b;
    } else {
      assert (a + b)[0] == a[0] && (a + b)[1..] == a[1..] + b;
      PrunedChildrenAppend(a[1..], b);
    }
  }

  /** `traversal1(node)`: walks the children by index, pruning containers and popping the empty ones. */
  method Traversal1(node: Node) returns (result: Node)
    ensures result == Pruned(node)
    decreases node
  {
    var orig := node.children;
    var children := orig;
    var nodeChildIndex := 0;
    ghost var k := 0;
    while nodeChildIndex < |children|
      invariant 0 <= k <= |orig|
      invariant children == PrunedChildren(orig[..k]) + orig[k..]
      invariant nodeChildIndex == |PrunedChildren(orig[..k])|
      decreases |orig| - k
    {
      ghost var before := children;
      assert children[nodeChildIndex] == orig[k];
      var nodeChild := children[nodeChildIndex];
      if nodeChild.widget.isContainer {
        nodeChild := Traversal1(nodeChild);
        children := children[nodeChildIndex := nodeChild];
      }
      assert children == before[nodeChildIndex := nodeChild];
      Traversal1Step(orig, k, nodeChild);
      if nodeChild.widget.isContainer && nodeChild.children == [] {
        children := RemoveAt(children, nodeChildIndex);
        nodeChildIndex := nodeChildIndex - 1;
      }
      nodeChildIndex := nodeChildIndex + 1;
      k := k + 1;
    }
    assert orig[..k] == orig;
    result := Node(node.id, node.widget, children);
  }

  /** What one pass of `traversal1`'s loop does to the list, in terms of `PrunedChildren`. */
  lemma Traversal1Step(orig: seq<Node>, k: nat, c': Node)
    requires k < |orig|
    requires c' == if orig[k].widget.isContainer then Pruned(orig[k]) else orig[k]
    ensures var pre := PrunedChildren(orig[..k]);
      var children := (pre + orig[k..])[|pre| := c'];
      && (orig[k].widget.isContainer && c'.children == [] ==>
            RemoveAt(children, |pre|) == PrunedChildren(orig[..k + 1]) + orig[k + 1..]
            && |PrunedChildren(orig[..k + 1])| == |pre|)
      && (!(orig[k].widget.isContainer && c'.children == []) ==>
            children == PrunedChildren(orig[..k + 1]) + orig[k + 1..]
            && |PrunedChildren(orig[..k + 1])| == |pre| + 1)
  {
    var pre := PrunedChildren(orig[..k]);
    assert orig[..k + 1] == orig[..k] + [orig[k]];
    PrunedChildrenAppend(orig[..k], [orig[k]]);
    assert [orig[k]][1..] == [];
    var children := (pre + orig[k..])[|pre| := c'];
    assert orig[k..] == [orig[k]] + orig[k + 1..];
    assert children == pre + [c'] + orig[k + 1..];
  }

  /** `remove_empty_containers(tree_of_containers)`. */
  method RemoveEmptyContainers(treeOfContainers: Node) returns (tree: Node)
    ensures tree == Pruned(treeOfContainers)
  {
    tree := Traversal1(treeOfContainers);
  }

  /** No container below `n` is left without children. */
  predicate Trimmed(n: Node)
    decreases n
  {
    forall k :: 0 <= k < |n.children| && n.children[k].widget.isContainer ==>
      n.children[k].children != [] && Trimmed(n.children[k])
  }

  lemma {:induction false} PrunedIsTrimmed(n: Node)
    ensures Trimmed(Pruned(n))
    decreases n, 1
  {
    PrunedChildrenTrimmed(n.children);
  }

  lemma {:induction false} PrunedChildrenTrimmed(cs: seq<Node>)
    ensures forall k :: 0 <= k < |PrunedChildren(cs)| && PrunedChildren(cs)[k].widget.isContainer ==>
      PrunedChildren(cs)[k].children != [] && Trimmed(PrunedChildren(cs)[k])
    decreases cs, 0
  {
    if cs != [] {
      var c := cs[0];
      if c.widget.isContainer {
        PrunedIsTrimmed(c);
      }
      PrunedChildrenTrimmed(cs[1..]);
    }
  }

  /** Pruning never drops an ordinary widget, nor reorders them. */
  lemma {:induction false} PrunedKeepsLeaves(n: Node)
    ensures LeafIds(Pruned(n)) == LeafIds(n)
    decreases n, 1
  {
    PrunedChildrenKeepsLeaves(n.children);
  }

  lemma {:induction false} PrunedChildrenKeepsLeaves(cs: seq<Node>)
    ensures LeafIdsAll(PrunedChildren(cs)) == LeafIdsAll(cs)
    decreases cs, 0
  {
    if cs != [] {
      var c := cs[0];
      var c' := if c.widget.isContainer then Pruned(c) else c;
      var head := if c.widget.isContainer && c'.children == [] then [] else [c'];
      PrunedChildrenKeepsLeaves(cs[1..]);
      LeafIdsAllAppend(head, PrunedChildren(cs[1..]));
      if c.widget.isContainer {
        PrunedKeepsLeaves(c);
      }
      if head == [] {
        assert LeafIds(c') == [] + LeafIdsAll([]);
      } else {
        LeafIdsAllSingle(c');
      }
    }
  }

  /** A container disappears exactly when it holds no ordinary widget. */
  lemma {:induction false} PrunedEmptyIff(n: Node)
    requires n.widget.isContainer
    ensures Pruned(n).children == [] <==> LeafIds(n) == []
    decreases n, 1
  {
    PrunedKeepsLeaves(n);
    if LeafIds(n) == [] {
      PrunedChildrenEmpty(n.children);
    } else {
      assert LeafIdsAll(PrunedChildren(n.children)) != [];
    }
  }

  lemma {:induction false} PrunedChildrenEmpty(cs: seq<Node>)
    requires LeafIdsAll(cs) == []
    ensures PrunedChildren(cs) == []
    decreases cs, 0
  {
    if cs != [] {
      LeafIdsAllAppend([cs[0]], cs[1..]);
      assert [cs[0]] + cs[1..] == cs;
      LeafIdsAllSingle(cs[0]);
      if cs[0].widget.isContainer {
        PrunedEmptyIff(cs[0]);
      }
      PrunedChildrenEmpty(cs[1..]);
    }
  }

  /** Pruning a pruned tree changes nothing. */
  lemma {:induction false} PrunedIdempotent(n: Node)
    ensures Pruned(Pruned(n)) == Pruned(n)
    decreases n, 1
  {
    PrunedChildrenIdempotent(n.children);
  }

  lemma {:induction false} PrunedChildrenIdempotent(cs: seq<Node>)
    ensures PrunedChildren(PrunedChildren(cs)) == PrunedChildren(cs)
    decreases cs, 0
  {
    if cs != [] {
      var c := cs[0];
      var c' := if c.widget.isContainer then Pruned(c) else c;
      var rest := PrunedChildren(cs[1..]);
      PrunedChildrenIdempotent(cs[1..]);
      if c.widget.isContainer {
        PrunedIdempotent(c);
      }
      if !(c.widget.isContainer && c'.children == []) {
        assert PrunedChildren(cs) == [c'] + rest;
        assert ([c'] + rest)[0] == c' && ([c'] + rest)[1..] == rest;
        assert c'.widget.isContainer ==> Pruned(c') == c';
      } else {
        assert PrunedChildren(cs) == rest;
      }
    }
  }

  // ---------------------------------------------------------------------
  // `as_dto`

  /** The `NodeDto` made for a child: containers are walked, other widgets keep only their name. */
  function ChildDto(c: Node): NodeDto
    decreases c, 2
  {
    if c.widget.isContainer then NodeDtoOf(c) else NodeDto(c.widget.name, [])
  }

  function NodeDtoOf(n: Node): NodeDto
    decreases n, 1
  {
    NodeDto(n.widget.name, ChildrenDto(n.children))
  }

  function ChildrenDto(cs: seq<Node>): seq<NodeDto>
    decreases cs, 0
  {
    if cs == [] then [] else [ChildDto(cs[0])] + ChildrenDto(cs[1..])
  }

  /** The name tree of a node, every child included. */
  function Erase(n: Node): NodeDto
    decreases n, 1
  {
    NodeDto(n.widget.name, EraseAll(n.children))
  }

  function EraseAll(cs: seq<Node>): seq<NodeDto>
    decreases cs, 0
  {
    if cs == [] then [] else [Erase(cs[0])] + EraseAll(cs[1..])
  }

  /** Only containers have children. */
  predicate LeavesChildless(n: Node)
    decreases n
  {
    (!n.widget.isContainer ==> n.children == [])
    && forall k :: 0 <= k < |n.children| ==> LeavesChildless(n.children[k])
  }

  /** Where only containers have children, the export keeps the whole tree of names. */
  lemma {:induction false} DtoIsErase(n: Node)
    requires LeavesChildless(n)
    ensures NodeDtoOf(n) == Erase(n)
    decreases n, 1
  {
    DtoIsEraseAll(n.children);
  }

  lemma {:induction false} DtoIsEraseAll(cs: seq<Node>)
    requires forall k :: 0 <= k < |cs| ==> LeavesChildless(cs[k])
    ensures ChildrenDto(cs) == EraseAll(cs)
    decreases cs, 0
  {
    if cs != [] {
      if cs[0].widget.isContainer {
        DtoIsErase(cs[0]);
      } else {
        assert EraseAll(cs[0].children) == [];
      }
      DtoIsEraseAll(cs[1..]);
    }
  }

  /** The inner `traversal(node_orig, node_dto)`: the DTOs of the children, in order. */
  method DtoTraversal(nodeOrig: Node) returns (children: seq<NodeDto>)
    ensures children == ChildrenDto(nodeOrig.children)
    decreases nodeOrig
  {
    children := [];
    var i := 0;
    while i < |nodeOrig.children|
      invariant 0 <= i <= |nodeOrig.children|
      invariant children + ChildrenDto(nodeOrig.children[i..]) == ChildrenDto(nodeOrig.children)
    {
      var childOrig := nodeOrig.children[i];
      var childDto := NodeDto(childOrig.widget.name, []);
      if childOrig.widget.isContainer {
        var grandchildren := DtoTraversal(childOrig);
        childDto := NodeDto(childOrig.widget.name, grandchildren);
      }
      assert childDto == ChildDto(childOrig);
      assert nodeOrig.children[i..][0] == childOrig && nodeOrig.children[i..][1..] == nodeOrig.children[i + 1..];
      assert ChildrenDto(nodeOrig.children[i..]) == [childDto] + ChildrenDto(nodeOrig.children[i + 1..]);
      children := children + [childDto];
      i := i + 1;
    }
  }

  /** `Tree.as_dto`. */
  method AsDto(root: Node) returns (dto: TreeDto)
    ensures dto == TreeDto(NodeDtoOf(root))
  {
    var children := DtoTraversal(root);
    dto := TreeDto(NodeDto(root.widget.name, children));
  }

  // ---------------------------------------------------------------------
  // `shuffle(tree.children)`

  /**
   * `random.shuffle`: for i from the last index down to 1, swap item i
   * with the item at `randbelow(i)`, taken modulo i + 1.
   */
  method Shuffle(xs: seq<Node>, randbelow: nat -> nat) returns (ys: seq<Node>)
    ensures |ys| == |xs| && multiset(ys) == multiset(xs)
    ensures multiset(LeafIdsAll(ys)) == multiset(LeafIdsAll(xs))
  {
    ys := xs;
    var i := |xs| - 1;
    while i >= 1
      invariant i < |xs|
      invariant |ys| == |xs| && multiset(ys) == multiset(xs)
      invariant multiset(LeafIdsAll(ys)) == multiset(LeafIdsAll(xs))
    {
      var j := randbelow(i) % (i + 1);
      SwapMultiset(ys, i, j);
      SwapLeafIds(ys, j, i);
      ys := ys[i := ys[j]][j := ys[i]];
      i := i - 1;
    }
  }

  /** Swapping two items of a list keeps the ordinary ids it holds. */
  lemma SwapLeafIds(s: seq<Node>, j: nat, i: nat)
    requires j <= i < |s|
    ensures multiset(LeafIdsAll(s[i := s[j]][j := s[i]])) == multiset(LeafIdsAll(s))
  {
    if j < i {
      var a, x, b, y, c := s[..j], s[j], s[j + 1..i], s[i], s[i + 1..];
      assert s == a + ([x] + (b + ([y] + c)));
      assert s[i := s[j]][j := s[i]] == a + ([y] + (b + ([x] + c)));
      LeafIdsOfFive(a, x, b, y, c);
      LeafIdsOfFive(a, y, b, x, c);
    } else {
      assert s[i := s[j]][j := s[i]] == s;
    }
  }

  /** The ordinary ids of a list cut into five pieces, two of them single items. */
  lemma LeafIdsOfFive(a: seq<Node>, x: Node, b: seq<Node>, y: Node, c: seq<Node>)
    ensures multiset(LeafIdsAll(a + ([x] + (b + ([y] + c)))))
      == multiset(LeafIdsAll(a)) + multiset(LeafIdsAll([x])) + multiset(LeafIdsAll(b)) + multiset(LeafIdsAll([y]))
         + multiset(LeafIdsAll(c))
  {
    LeafIdsAllAppend(a, [x] + (b + ([y] + c)));
    LeafIdsAllAppend([x], b + ([y] + c));
    LeafIdsAllAppend(b, [y] + c);
    LeafIdsAllAppend([y], c);
  }

  lemma SwapMultiset<T>(s: seq<T>, i: nat, j: nat)
    requires i < |s| && j < |s|
    ensures multiset(s[i := s[j]][j := s[i]]) == multiset(s)
  {
    if i != j {
      var t := s[i := s[j]];
      assert multiset(t) == multiset(s) - multiset{s[i]} + multiset{s[j]};
      assert t[j] == s[j];
    }
  }

  // ---------------------------------------------------------------------
  // The initial node lists

  lemma {:induction false} DistinctCount(s: seq<nat>)
    requires Distinct(s)
    ensures forall x :: multiset(s)[x] <= 1
  {
    if s != [] {
      assert s == [s[0]] + s[1..];
      DistinctCount(s[1..]);
      assert s[0] !in s[1..];
    }
  }

  /** A list of childless nodes holds exactly its own ids. */
  lemma ChildlessForest(ns: seq<Node>)
    requires forall k :: 0 <= k < |ns| ==> ns[k].children == []
    ensures ForestIds(ns) == multiset(Ids(ns))
    ensures LeafIdsAll(ns) == Ids(OrdinaryOnly(ns))
  {
    ChildlessForestIds(ns);
    ChildlessLeafIds(ns);
  }

  lemma {:induction false} ChildlessForestIds(ns: seq<Node>)
    requires forall k :: 0 <= k < |ns| ==> ns[k].children == []
    ensures ForestIds(ns) == multiset(Ids(ns))
  {
    if ns != [] {
      ChildlessForestIds(ns[1..]);
      assert ForestIds(ns[0].children) == multiset{};
      assert Ids(ns) == [ns[0].id] + Ids(ns[1..]);
    }
  }

  lemma {:induction false} ChildlessLeafIds(ns: seq<Node>)
    requires forall k :: 0 <= k < |ns| ==> ns[k].children == []
    ensures LeafIdsAll(ns) == Ids(OrdinaryOnly(ns))
  {
    if ns != [] {
      ChildlessLeafIds(ns[1..]);
      assert LeafIdsAll(ns[0].children) == [];
      var rest := OrdinaryOnly(ns[1..]);
      if ns[0].widget.isContainer {
        assert OrdinaryOnly(ns) == rest;
      } else {
        assert OrdinaryOnly(ns) == [ns[0]] + rest;
        IdsAppend([ns[0]], rest);
      }
    }
  }

  /** The non-container nodes of a list. */
  function OrdinaryOnly(ns: seq<Node>): seq<Node> {
    if ns == [] then []
    else (if ns[0].widget.isContainer then [] else [ns[0]]) + OrdinaryOnly(ns[1..])
  }

  lemma {:induction false} OrdinaryOnlyAll(ns: seq<Node>)
    requires forall k :: 0 <= k < |ns| ==> !ns[k].widget.isContainer
    ensures OrdinaryOnly(ns) == ns
  {
    if ns != [] {
      OrdinaryOnlyAll(ns[1..]);
    }
  }

  /** Every node of the sample gets its own id: the two starting lists hold each position once. */
  lemma InitialUnique(ws: seq<TreeWidgetDescription>)
    ensures Unique(ContainerWidgetsAsNodes(ws) + OrdinaryWidgetsAsNodes(ws))
  {
    var cs, os := ContainerWidgetsAsNodes(ws), OrdinaryWidgetsAsNodes(ws);
    var all := cs + os;
    ChildlessForest(all);
    assert Distinct(Ids(all)) by {
      forall i, j | 0 <= i < j < |all|
        ensures Ids(all)[i] != Ids(all)[j]
      {
        if j < |cs| {
          assert all[i] == cs[i] && all[j] == cs[j];
        } else if i >= |cs| {
          assert all[i] == os[i - |cs|] && all[j] == os[j - |cs|];
        } else {
          assert all[i] == cs[i] && all[j] == os[j - |cs|];
        }
      }
    }
    DistinctCount(Ids(all));
  }

  /** Position `i` of the sample is an ordinary node exactly when its entry is not a container. */
  lemma OrdinaryIdsCount(ws: seq<TreeWidgetDescription>, i: nat)
    ensures multiset(Ids(OrdinaryWidgetsAsNodes(ws)))[i] == if i < |ws| && !ws[i].isContainer then 1 else 0
  {
    var os := OrdinaryWidgetsAsNodes(ws);
    assert Distinct(Ids(os));
    DistinctCount(Ids(os));
    if i < |ws| && !ws[i].isContainer {
      NodesFromComplete(ws, 0, false, i);
    } else {
      assert i !in Ids(os);
    }
  }

  // ---------------------------------------------------------------------
  // `_build_tree` and `_create_tree`

  /**
   * The first loop of `_build_tree`, with the corrected linking step:
   * each round draws a parent and a child index; it stops when one tree
   * is left or the draws run out.
   */
  method LinkContainerNodes(nodes: seq<Node>, picks: seq<(nat, nat)>) returns (linked: seq<Node>, done: bool)
    requires Unique(nodes) && forall n :: n in nodes ==> AllContainers(n)
    ensures done <==> |linked| <= 1
    ensures ForestIds(linked) == ForestIds(nodes) && Unique(linked)
    ensures forall n :: n in linked ==> AllContainers(n)
    ensures |linked| <= |nodes| && (|nodes| >= 1 ==> |linked| >= 1)
  {
    linked := nodes;
    var k := 0;
    while |linked| > 1 && k < |picks|
      invariant 0 <= k <= |picks|
      invariant ForestIds(linked) == ForestIds(nodes) && Unique(linked)
      invariant forall n :: n in linked ==> AllContainers(n)
      invariant |linked| <= |nodes| && (|nodes| >= 1 ==> |linked| >= 1)
    {
      var parentIndex := picks[k].0 % |linked|;
      var childIndex := picks[k].1 % |linked|;
      LinkTwoFixedKeeps(linked, parentIndex, childIndex);
      LinkTwoFixedContainers(linked, parentIndex, childIndex);
      linked := LinkTwoFixed(linked, parentIndex, childIndex);
      k := k + 1;
    }
    done := |linked| <= 1;
  }

  /**
   * What the second loop keeps, from the start (`tree0`, `ordinary0`) to
   * the current tree and remaining list: every listed container stays in
   * the tree, ids and ordinary ids only move from the list into the tree,
   * and the list only loses nodes.
   */
  ghost predicate LeafLoopInv(tree0: Node, ordinary0: seq<Node>, containerIds: seq<nat>, tree: Node, rest: seq<Node>) {
    && tree.widget == tree0.widget
    && (forall i :: 0 <= i < |containerIds| ==> containerIds[i] in TreeIds(tree))
    && TreeIds(tree) + ForestIds(rest) == TreeIds(tree0) + ForestIds(ordinary0)
    && Unique([tree] + rest)
    && multiset(LeafIds(tree)) + multiset(LeafIdsAll(rest)) == multiset(LeafIds(tree0)) + multiset(LeafIdsAll(ordinary0))
    && IsSubseq(rest, ordinary0)
  }

  lemma LeafLoopStep(tree0: Node, ordinary0: seq<Node>, containerIds: seq<nat>, tree: Node, rest: seq<Node>,
                     parentIndex: nat, childIndex: nat)
    requires LeafLoopInv(tree0, ordinary0, containerIds, tree, rest)
    requires parentIndex < |containerIds| && childIndex < |rest|
    ensures var (t', r') := LinkLeaf(tree, containerIds[parentIndex], rest, childIndex);
      LeafLoopInv(tree0, ordinary0, containerIds, t', r')
  {
    var x := containerIds[parentIndex];
    var (t', r') := LinkLeaf(tree, x, rest, childIndex);
    LinkLeafKeeps(tree, x, rest, childIndex);
    LinkLeafKeepsLeaves(tree, x, rest, childIndex);
    if r' != rest {
      RemoveAtSubseq(rest, childIndex);
      SubseqTrans(r', rest, ordinary0);
    }
    forall i | 0 <= i < |containerIds|
      ensures containerIds[i] in TreeIds(t')
    {
      assert containerIds[i] in TreeIds(tree);
      if t' != tree {
        ForestCons(tree, rest);
        assert ForestIds([tree] + rest)[x] <= 1;
        AppendTreeIds(tree, x, rest[childIndex]);
      }
    }
  }

  /**
   * The second loop of `_build_tree`: each round draws a container of the
   * listing and an ordinary node; it stops when every ordinary node is
   * placed or the draws run out.
   */
  method LinkOrdinaryNodes(tree: Node, containerIds: seq<nat>, ordinary: seq<Node>, picks: seq<(nat, nat)>)
    returns (tree': Node, rest: seq<Node>)
    requires |containerIds| >= 1 && forall i :: 0 <= i < |containerIds| ==> containerIds[i] in TreeIds(tree)
    requires Unique([tree] + ordinary)
    ensures LeafLoopInv(tree, ordinary, containerIds, tree', rest)
  {
    tree', rest := tree, ordinary;
    SubseqRefl(ordinary);
    var k := 0;
    while |rest| > 0 && k < |picks|
      invariant 0 <= k <= |picks|
      invariant LeafLoopInv(tree, ordinary, containerIds, tree', rest)
    {
      var parentIndex := picks[k].0 % |containerIds|;
      var childIndex := picks[k].1 % |rest|;
      LeafLoopStep(tree, ordinary, containerIds, tree', rest, parentIndex, childIndex);
      tree', rest := LinkOrdinaryNodeToContainerNode(tree', containerIds, rest, parentIndex, childIndex);
      k := k + 1;
    }
  }

  /**
   * What `_build_tree` promises of its result: the root is a container, no
   * container below it is empty, and every ordinary entry of the sample
   * appears exactly once (a tree's ids are positions in the sample).
   */
  ghost predicate WellBuilt(widgets: seq<TreeWidgetDescription>, t: Node) {
    && t.widget.isContainer
    && Trimmed(t)
    && forall i: nat :: multiset(LeafIds(t))[i] == if i < |widgets| && !widgets[i].isContainer then 1 else 0
  }

  /**
   * `_build_tree(widgets)`: link the containers into one tree, hang the
   * ordinary widgets under it, prune the empty containers. `None` when
   * the draws run out; IndexError when the sample holds no container.
   */
  method BuildTree(widgets: seq<TreeWidgetDescription>, containerPicks: seq<(nat, nat)>, leafPicks: seq<(nat, nat)>)
    returns (r: Option<Result<Node>>)
    ensures (forall i :: 0 <= i < |widgets| ==> !widgets[i].isContainer) ==> r == Some(Err(IndexError))
    ensures r.Some? && r.value.Err? ==> r.value.error == IndexError
    ensures r.Some? && r.value.Ok? ==> WellBuilt(widgets, r.value.value)
  {
    var containerNodes := ContainerWidgetsAsNodes(widgets);
    var ordinaryTreeNodes := OrdinaryWidgetsAsNodes(widgets);
    BuildStart(widgets);
    var linked, done := LinkContainerNodes(containerNodes, containerPicks);
    if !done {
      return None;
    }
    var first := GetFirstNode(linked);
    if first.Err? {
      return Some(Err(first.error));
    }
    var treeOfContainers := first.value;
    ContainersLinked(widgets, linked);
    var containerTreeNodes := GetNodeAndChildren(treeOfContainers);
    var containerIds := Ids(containerTreeNodes);
    ListedInTree(treeOfContainers);
    var tree, rest := LinkOrdinaryNodes(treeOfContainers, containerIds, ordinaryTreeNodes, leafPicks);
    if rest != [] {
      return None;
    }
    LeafLoopDone(treeOfContainers, ordinaryTreeNodes, containerIds, tree);
    LeavesPlaced(widgets, LeafIds(tree));
    PrunedIsTrimmed(tree);
    PrunedKeepsLeaves(tree);
    tree := RemoveEmptyContainers(tree);
    r := Some(Ok(tree));
  }

  /** Before the loops: the containers hold each id once, and there are none without a container entry. */
  lemma BuildStart(widgets: seq<TreeWidgetDescription>)
    ensures Unique(ContainerWidgetsAsNodes(widgets))
    ensures forall n :: n in ContainerWidgetsAsNodes(widgets) ==> AllContainers(n)
    ensures (forall i :: 0 <= i < |widgets| ==> !widgets[i].isContainer) ==> ContainerWidgetsAsNodes(widgets) == []
  {
    var containerNodes := ContainerWidgetsAsNodes(widgets);
    InitialUnique(widgets);
    ForestAppend(containerNodes, OrdinaryWidgetsAsNodes(widgets));
    forall x
      ensures ForestIds(containerNodes)[x] <= 1
    {
      assert ForestIds(containerNodes + OrdinaryWidgetsAsNodes(widgets))[x] <= 1;
    }
    if containerNodes != [] {
      assert widgets[containerNodes[0].id].isContainer;
    }
  }

  /** After the first loop: the one tree and the ordinary nodes hold each id once, and the tree has no ordinary widget yet. */
  lemma ContainersLinked(widgets: seq<TreeWidgetDescription>, linked: seq<Node>)
    requires |linked| == 1
    requires ForestIds(linked) == ForestIds(ContainerWidgetsAsNodes(widgets))
    requires forall n :: n in linked ==> AllContainers(n)
    ensures Unique([linked[0]] + OrdinaryWidgetsAsNodes(widgets))
    ensures LeafIds(linked[0]) == []
    ensures linked[0].widget.isContainer
  {
    var t := linked[0];
    assert linked == [t];
    ForestSingle(t);
    assert t in linked;
    AllContainersNoLeaves(t);
    InitialUnique(widgets);
    ForestAppend(ContainerWidgetsAsNodes(widgets), OrdinaryWidgetsAsNodes(widgets));
    ForestCons(t, OrdinaryWidgetsAsNodes(widgets));
  }

  /** Every id of the pre-order listing is in the tree. */
  lemma ListedInTree(t: Node)
    ensures |Ids(Preorder(t))| >= 1
    ensures forall i :: 0 <= i < |Ids(Preorder(t))| ==> Ids(Preorder(t))[i] in TreeIds(t)
  {
    var ids := Ids(Preorder(t));
    PreorderIds(t);
    forall i | 0 <= i < |ids|
      ensures ids[i] in TreeIds(t)
    {
      assert ids[i] in multiset(ids);
    }
  }

  lemma LeafLoopDone(tree0: Node, ordinary0: seq<Node>, containerIds: seq<nat>, tree: Node)
    requires LeafLoopInv(tree0, ordinary0, containerIds, tree, [])
    requires LeafIds(tree0) == [] && tree0.widget.isContainer
    ensures multiset(LeafIds(tree)) == multiset(LeafIdsAll(ordinary0)) && tree.widget.isContainer
  {
    var none: seq<Node> := [];
    assert LeafIdsAll(none) == [];
    DropEmpty(LeafIds(tree), LeafIdsAll(none), LeafIds(tree0), LeafIdsAll(ordinary0));
  }

  lemma DropEmpty(a: seq<nat>, b: seq<nat>, c: seq<nat>, d: seq<nat>)
    requires multiset(a) + multiset(b) == multiset(c) + multiset(d) && b == [] && c == []
    ensures multiset(a) == multiset(d)
  {
    assert multiset(b) == multiset{} && multiset(c) == multiset{};
    assert multiset(a) + multiset{} == multiset(a);
    assert multiset{} + multiset(d) == multiset(d);
  }

  /** After the second loop has placed every ordinary node, the tree holds each ordinary position once. */
  lemma LeavesPlaced(widgets: seq<TreeWidgetDescription>, leaves: seq<nat>)
    requires multiset(leaves) == multiset(LeafIdsAll(OrdinaryWidgetsAsNodes(widgets)))
    ensures forall i: nat :: multiset(leaves)[i] == if i < |widgets| && !widgets[i].isContainer then 1 else 0
  {
    var os := OrdinaryWidgetsAsNodes(widgets);
    ChildlessForest(os);
    OrdinaryOnlyAll(os);
    forall i: nat
      ensures multiset(leaves)[i] == if i < |widgets| && !widgets[i].isContainer then 1 else 0
    {
      OrdinaryIdsCount(widgets, i);
    }
  }

  /** The catalogue position of the first container entry. */
  function FirstContainerIndex(ws: seq<TreeWidgetDescription>, from: nat): (r: Option<nat>)
    requires from <= |ws|
    ensures r.Some? ==> from <= r.value < |ws| && ws[r.value].isContainer
                        && forall j :: from <= j < r.value ==> !ws[j].isContainer
    ensures r.None? ==> forall j :: from <= j < |ws| ==> !ws[j].isContainer
    decreases |ws| - from
  {
    if from == |ws| then None
    else if ws[from].isContainer then Some(from)
    else FirstContainerIndex(ws, from + 1)
  }

  /** `get_first_container_widget` returns the catalogue entry at that position. */
  lemma FirstContainerIndexAgrees(ws: seq<TreeWidgetDescription>)
    ensures FirstContainerIndex(ws, 0).None? <==> GetFirstContainerWidget(ws).Err?
    ensures FirstContainerIndex(ws, 0).Some? ==>
      GetFirstContainerWidget(ws) == Ok(ws[FirstContainerIndex(ws, 0).value])
  {
    var r := GetFirstContainerWidget(ws);
    var f := FirstContainerIndex(ws, 0);
    if r.Ok? {
      var i :| 0 <= i < |ws| && ws[i] == r.value && r.value.isContainer
               && forall j :: 0 <= j < i ==> !ws[j].isContainer;
      assert f.Some?;
      assert f.value == i;
    }
  }

  lemma SubseqOfEntries(ref: Catalogue, drawn: seq<nat>, sample: seq<TreeWidgetDescription>)
    requires InCatalogue(ref, drawn) && IsSubseq(sample, Entries(ref, drawn))
    ensures forall i :: 0 <= i < |sample| ==> sample[i] in ref
  {
    forall i | 0 <= i < |sample|
      ensures sample[i] in ref
    {
      SubseqMember(sample, Entries(ref, drawn), sample[i]);
      var k :| 0 <= k < |Entries(ref, drawn)| && Entries(ref, drawn)[k] == sample[i];
      assert ref[drawn[k]] == sample[i];
    }
  }

  /** Shuffling the root's children keeps the tree's ordinary widgets and its pruned shape. */
  lemma ShuffledRoot(widgets: seq<TreeWidgetDescription>, t: Node, children: seq<Node>)
    requires WellBuilt(widgets, t)
    requires multiset(children) == multiset(t.children)
    requires multiset(LeafIdsAll(children)) == multiset(LeafIdsAll(t.children))
    ensures WellBuilt(widgets, Node(t.id, t.widget, children))
  {
    var t' := Node(t.id, t.widget, children);
    assert LeafIds(t') == [] + LeafIdsAll(children);
    assert LeafIds(t) == [] + LeafIdsAll(t.children);
    assert multiset(LeafIds(t')) == multiset(LeafIds(t));
    forall k | 0 <= k < |children| && children[k].widget.isContainer
      ensures children[k].children != [] && Trimmed(children[k])
    {
      assert children[k] in multiset(t.children);
      var j :| 0 <= j < |t.children| && t.children[j] == children[k];
    }
  }

  /**
   * `Tree._create_tree`: take the first container of the catalogue as the
   * root entry, draw and fix a sample, build the tree and shuffle the
   * root's children. `sample` is the fixed sample the tree was built from;
   * a tree's ids are positions in it.
   */
  method CreateTree(ref: Catalogue, numberOfWidgets: int, draws: seq<nat>,
                    containerPicks: seq<(nat, nat)>, leafPicks: seq<(nat, nat)>, randbelow: nat -> nat)
    returns (sample: seq<TreeWidgetDescription>, r: Option<Result<Node>>)
    requires forall k :: 0 <= k < |draws| ==> draws[k] < |ref|
    ensures (forall i :: 0 <= i < |ref| ==> !ref[i].isContainer) ==> r == Some(Err(IndexError))
    ensures r.Some? && r.value.Err? ==> r.value.error == IndexError
    ensures r.Some? && r.value.Ok? ==>
      (forall i :: 0 <= i < |sample| ==> sample[i] in ref) && WellBuilt(sample, r.value.value)
  {
    sample := [];
    var rootWidget := GetFirstContainerWidget(ref);
    FirstContainerIndexAgrees(ref);
    if rootWidget.Err? {
      return sample, Some(Err(rootWidget.error));
    }
    var root := FirstContainerIndex(ref, 0).value;
    var drawn, fixed := CreateSample(ref, root, numberOfWidgets, draws);
    if fixed.None? {
      return sample, None;
    }
    if fixed.value.Err? {
      return sample, Some(Err(fixed.value.error));
    }
    sample := fixed.value.value;
    SubseqOfEntries(ref, drawn, sample);
    var built := BuildTree(sample, containerPicks, leafPicks);
    if built.None? || built.value.Err? {
      return sample, built;
    }
    var tree := built.value.value;
    var children := Shuffle(tree.children, randbelow);
    ShuffledRoot(sample, tree, children);
    r := Some(Ok(Node(tree.id, tree.widget, children)));
  }
}
