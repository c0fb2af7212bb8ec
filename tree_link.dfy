/**
 * The container-linking phase of `Tree._build_tree` in `gui_tree_gen.py`:
 * `_link_two_container_nodes`, `_link_only_children` and
 * `_get_container_nodes_having_given_as_only_parent`, which repeatedly
 * hang one container of a list under another until one tree is left.
 *
 * Python nodes are mutable objects compared by identity. A node here is a
 * value whose `id` stands for that identity, so `node.children.append(g)`
 * becomes "append `g` under every node carrying `node`'s id" and
 * `nodes.remove(g)` becomes "drop the first list entry carrying `g`'s id".
 */
module TreeLink {
  import opened SeqUtil
  import opened TreeWidgets

  // ---------------------------------------------------------------------
  // What a forest holds

  /** The ids of all nodes of a tree, with repeats. */
  function TreeIds(n: Node): multiset<nat>
    decreases n, 1
  {
    multiset{n.id} + ForestIds(n.children)
  }

  function ForestIds(ns: seq<Node>): multiset<nat>
    decreases ns, 0
  {
    if ns == [] then multiset{} else TreeIds(ns[0]) + ForestIds(ns[1..])
  }

  /** No id occurs twice in the forest, as no object occurs twice in Python's node graph. */
  ghost predicate Unique(ns: seq<Node>) {
    forall x :: ForestIds(ns)[x] <= 1
  }

  lemma {:induction false} ForestAppend(a: seq<Node>, b: seq<Node>)
    ensures ForestIds(a + b) == ForestIds(a) + ForestIds(b)
    decreases |a|
  {
    if a == [] {
      assert a + b == b;
    } else {
      assert (a + b)[1..] == a[1..] + b;
      ForestAppend(a[1..], b);
    }
  }

  lemma ForestSingle(n: Node)
    ensures ForestIds([n]) == TreeIds(n)
  {
    assert [n][1..] == [];
    assert ForestIds([]) == multiset{};
  }

  lemma ForestCons(a: Node, b: seq<Node>)
    ensures ForestIds([a] + b) == TreeIds(a) + ForestIds(b)
  {
    assert ([a] + b)[1..] == b;
  }

  lemma ForestAt(ns: seq<Node>, i: nat)
    requires i < |ns|
    ensures ForestIds(ns) == ForestIds(ns[..i]) + TreeIds(ns[i]) + ForestIds(ns[i + 1..])
  {
    var a, b := ns[..i], ns[i..];
    assert ns == a + b;
    ForestAppend(a, b);
    assert b[0] == ns[i] && b[1..] == ns[i + 1..];
    MultisetAssoc(ForestIds(a), TreeIds(ns[i]), ForestIds(ns[i + 1..]));
  }

  lemma MultisetAssoc(x: multiset<nat>, y: multiset<nat>, z: multiset<nat>)
    ensures x + (y + z) == x + y + z
  {
  }

  lemma ForestUpdate(ns: seq<Node>, i: nat, x: Node)
    requires i < |ns|
    ensures ForestIds(ns[i := x]) + TreeIds(ns[i]) == ForestIds(ns) + TreeIds(x)
  {
    ForestAt(ns, i);
    ForestAt(ns[i := x], i);
    assert ns[i := x][..i] == ns[..i];
    assert ns[i := x][i + 1..] == ns[i + 1..];
  }

  lemma {:induction false} TwoTrees(ns: seq<Node>, i: nat, j: nat, x: nat)
    requires i < j < |ns|
    ensures TreeIds(ns[i])[x] + TreeIds(ns[j])[x] <= ForestIds(ns)[x]
  {
    assert ForestIds(ns)[x] == TreeIds(ns[0])[x] + ForestIds(ns[1..])[x];
    var rest := ns[1..];
    assert rest[j - 1] == ns[j];
    if i == 0 {
      OneTree(rest, j - 1, x);
      CountsAdd(TreeIds(ns[j])[x], TreeIds(ns[0])[x], ForestIds(rest)[x], ForestIds(ns)[x], TreeIds(ns[0])[x]);
    } else {
      assert rest[i - 1] == ns[i];
      TwoTrees(rest, i - 1, j - 1, x);
      CountsAdd(TreeIds(ns[i])[x] + TreeIds(ns[j])[x], TreeIds(ns[0])[x], ForestIds(rest)[x], ForestIds(ns)[x], 0);
    }
  }

  /** Counts bounded by a part of a sum stay bounded by the sum, with room for what the other part holds. */
  lemma CountsAdd(p: nat, first: nat, rest: nat, total: nat, extra: nat)
    requires total == first + rest && p <= rest && extra <= first
    ensures extra + p <= total
  {
  }

  lemma {:induction false} OneTree(ns: seq<Node>, i: nat, x: nat)
    requires i < |ns|
    ensures TreeIds(ns[i])[x] <= ForestIds(ns)[x]
  {
    assert ForestIds(ns)[x] == TreeIds(ns[0])[x] + ForestIds(ns[1..])[x];
    if i > 0 {
      assert ns[1..][i - 1] == ns[i];
      OneTree(ns[1..], i - 1, x);
    }
  }

  /** Two different entries of a forest without repeats share no id. */
  lemma UniqueDisjoint(ns: seq<Node>, i: nat, j: nat)
    requires Unique(ns) && i < |ns| && j < |ns| && i != j
    ensures forall x :: x in TreeIds(ns[i]) ==> x !in TreeIds(ns[j])
  {
    forall x | x in TreeIds(ns[i])
      ensures x !in TreeIds(ns[j])
    {
      if i < j {
        TwoTrees(ns, i, j, x);
      } else {
        TwoTrees(ns, j, i, x);
      }
      assert ForestIds(ns)[x] <= 1;
    }
  }

  lemma UniqueRootIds(ns: seq<Node>)
    requires Unique(ns)
    ensures forall i, j :: 0 <= i < j < |ns| ==> ns[i].id != ns[j].id
  {
    forall i, j | 0 <= i < j < |ns|
      ensures ns[i].id != ns[j].id
    {
      UniqueDisjoint(ns, i, j);
      assert ns[i].id in TreeIds(ns[i]);
    }
  }

  // ---------------------------------------------------------------------
  // `append` and `remove` on identities

  /** `children.append(c)` for every node of `n` whose id is `x`. */
  function AppendTree(n: Node, x: nat, c: Node): Node
    decreases n, 1
  {
    Node(n.id, n.widget, AppendForest(n.children, x, c) + (if n.id == x then [c] else []))
  }

  function AppendForest(ns: seq<Node>, x: nat, c: Node): seq<Node>
    decreases ns, 0
  {
    if ns == [] then [] else [AppendTree(ns[0], x, c)] + AppendForest(ns[1..], x, c)
  }

  lemma {:induction false} AppendForestAt(ns: seq<Node>, x: nat, c: Node, k: nat)
    requires k < |ns|
    ensures |AppendForest(ns, x, c)| == |ns|
    ensures AppendForest(ns, x, c)[k] == AppendTree(ns[k], x, c)
  {
    if k > 0 {
      AppendForestAt(ns[1..], x, c, k - 1);
    } else {
      AppendForestLength(ns, x, c);
    }
  }

  lemma {:induction false} AppendForestLength(ns: seq<Node>, x: nat, c: Node)
    ensures |AppendForest(ns, x, c)| == |ns|
  {
    if ns != [] {
      AppendForestLength(ns[1..], x, c);
    }
  }

  /** Appending under an id the tree does not hold changes nothing. */
  lemma {:induction false} AppendTreeAbsent(n: Node, x: nat, c: Node)
    requires x !in TreeIds(n)
    ensures AppendTree(n, x, c) == n
    decreases n, 1
  {
    AppendForestAbsent(n.children, x, c);
    assert n.children + [] == n.children;
  }

  lemma {:induction false} AppendForestAbsent(ns: seq<Node>, x: nat, c: Node)
    requires x !in ForestIds(ns)
    ensures AppendForest(ns, x, c) == ns
    decreases ns, 0
  {
    if ns != [] {
      AppendTreeAbsent(ns[0], x, c);
      AppendForestAbsent(ns[1..], x, c);
      assert ns == [ns[0]] + ns[1..];
    }
  }

  /** Appending under an id held once adds exactly the appended tree's ids. */
  lemma {:induction false} AppendTreeIds(n: Node, x: nat, c: Node)
    requires TreeIds(n)[x] <= 1
    ensures TreeIds(AppendTree(n, x, c)) == TreeIds(n) + (if x in TreeIds(n) then TreeIds(c) else multiset{})
    decreases n, 1
  {
    var ch := n.children;
    var ch' := AppendForest(ch, x, c);
    assert TreeIds(n) == multiset{n.id} + ForestIds(ch);
    if n.id == x {
      assert ch' == ch by {
        AppendForestAbsent(ch, x, c);
      }
      assert ForestIds(ch + [c]) == ForestIds(ch) + TreeIds(c) by {
        ForestAppend(ch, [c]);
        ForestSingle(c);
      }
      assert TreeIds(AppendTree(n, x, c)) == multiset{n.id} + ForestIds(ch + [c]);
    } else {
      assert AppendTree(n, x, c).children == ch';
      assert ForestIds(ch') == ForestIds(ch) + (if x in ForestIds(ch) then TreeIds(c) else multiset{}) by {
        AppendForestIds(ch, x, c);
      }
      assert TreeIds(AppendTree(n, x, c)) == multiset{n.id} + ForestIds(ch');
    }
  }

  lemma {:induction false} AppendForestIds(ns: seq<Node>, x: nat, c: Node)
    requires ForestIds(ns)[x] <= 1
    ensures ForestIds(AppendForest(ns, x, c))
         == ForestIds(ns) + (if x in ForestIds(ns) then TreeIds(c) else multiset{})
    decreases ns, 0
  {
    if ns != [] {
      var r := AppendForest(ns, x, c);
      assert r[0] == AppendTree(ns[0], x, c) && r[1..] == AppendForest(ns[1..], x, c);
      AppendTreeIds(ns[0], x, c);
      AppendForestIds(ns[1..], x, c);
    }
  }

  /** `nodes.remove(g)`: the first entry whose id is `y` is dropped. */
  function RemoveRootId(ns: seq<Node>, y: nat): (r: seq<Node>)
    ensures |r| <= |ns|
    ensures forall n :: n in r ==> n in ns
  {
    if ns == [] then []
    else if ns[0].id == y then ns[1..]
    else [ns[0]] + RemoveRootId(ns[1..], y)
  }

  /** Removing the first entry with a given id takes out exactly that tree. */
  lemma {:induction false} RemoveRootIdIds(ns: seq<Node>, k: nat)
    requires k < |ns| && forall j :: 0 <= j < k ==> ns[j].id != ns[k].id
    ensures ForestIds(RemoveRootId(ns, ns[k].id)) + TreeIds(ns[k]) == ForestIds(ns)
    ensures |RemoveRootId(ns, ns[k].id)| == |ns| - 1
  {
    var y := ns[k].id;
    if k == 0 {
      assert RemoveRootId(ns, y) == ns[1..];
      assert ForestIds(ns) == TreeIds(ns[0]) + ForestIds(ns[1..]);
    } else {
      var tail := ns[1..];
      assert tail[k - 1] == ns[k];
      assert forall j :: 0 <= j < k - 1 ==> tail[j].id != y by {
        assert forall j :: 0 <= j < k - 1 ==> tail[j] == ns[j + 1];
      }
      RemoveRootIdIds(tail, k - 1);
      var r := RemoveRootId(tail, y);
      assert RemoveRootId(ns, y) == [ns[0]] + r;
      ForestCons(ns[0], r);
      assert ForestIds(ns) == TreeIds(ns[0]) + ForestIds(tail);
      AddBoth(ForestIds(RemoveRootId(ns, y)), TreeIds(ns[0]), ForestIds(r), TreeIds(ns[k]), ForestIds(tail),
              ForestIds(ns));
    }
  }

  lemma AddBoth(whole: multiset<nat>, head: multiset<nat>, rest: multiset<nat>, t: multiset<nat>,
                tail: multiset<nat>, all: multiset<nat>)
    requires whole == head + rest && rest + t == tail && all == head + tail
    ensures whole + t == all
  {
  }

  lemma {:induction false} RemoveRootIdKeeps(ns: seq<Node>, y: nat, n: Node)
    requires n in ns && n.id != y
    ensures n in RemoveRootId(ns, y)
  {
    if ns[0] != n {
      RemoveRootIdKeeps(ns[1..], y, n);
    }
  }

  lemma {:induction false} RemoveRemoveCommute(ns: seq<Node>, a: nat, b: nat)
    requires a != b
    ensures RemoveRootId(RemoveRootId(ns, a), b) == RemoveRootId(RemoveRootId(ns, b), a)
  {
    if ns != [] && ns[0].id != a && ns[0].id != b {
      RemoveRemoveCommute(ns[1..], a, b);
    }
  }

  lemma {:induction false} RemoveAppendCommute(ns: seq<Node>, y: nat, x: nat, c: Node)
    ensures RemoveRootId(AppendForest(ns, x, c), y) == AppendForest(RemoveRootId(ns, y), x, c)
  {
    if ns != [] {
      RemoveAppendCommute(ns[1..], y, x, c);
    }
  }

  // ---------------------------------------------------------------------
  // `_link_only_children`

  /**
   * The body of `_link_only_children` for the node with id `cid`: each
   * node of `gs` in turn is appended under that node and removed from the
   * list.
   */
  function MoveAll(ns: seq<Node>, cid: nat, gs: seq<Node>): seq<Node>
    decreases |gs|
  {
    if gs == [] then ns else MoveAll(RemoveRootId(AppendForest(ns, cid, gs[0]), gs[0].id), cid, gs[1..])
  }

  lemma {:induction false} MoveAllLength(ns: seq<Node>, cid: nat, gs: seq<Node>)
    ensures |MoveAll(ns, cid, gs)| <= |ns|
    decreases |gs|
  {
    if gs != [] {
      var ns' := AppendForest(ns, cid, gs[0]);
      AppendForestLength(ns, cid, gs[0]);
      MoveAllLength(RemoveRootId(ns', gs[0].id), cid, gs[1..]);
    }
  }

  /** Removing the moved node's own entry first or last makes no difference. */
  lemma {:induction false} MoveAllCommute(ns: seq<Node>, cid: nat, gs: seq<Node>)
    requires forall k :: 0 <= k < |gs| ==> gs[k].id != cid
    ensures RemoveRootId(MoveAll(ns, cid, gs), cid) == MoveAll(RemoveRootId(ns, cid), cid, gs)
    decreases |gs|
  {
    if gs != [] {
      var g := gs[0];
      var a := AppendForest(ns, cid, g);
      MoveAllCommute(RemoveRootId(a, g.id), cid, gs[1..]);
      RemoveRemoveCommute(a, g.id, cid);
      RemoveAppendCommute(ns, cid, cid, g);
    }
  }

  /**
   * Moving list entries under a node held once keeps every id: each moved
   * tree leaves the list and reappears under that node.
   */
  lemma {:induction false} MoveAllKeeps(ns: seq<Node>, cid: nat, gs: seq<Node>)
    requires Unique(ns) && cid in ForestIds(ns)
    requires Distinct(Ids(gs))
    requires forall g :: g in gs ==> g in ns && cid !in TreeIds(g)
    ensures ForestIds(MoveAll(ns, cid, gs)) == ForestIds(ns)
    decreases |gs|
  {
    if gs != [] {
      MoveHead(ns, cid, gs);
      MoveAllKeeps(RemoveRootId(AppendForest(ns, cid, gs[0]), gs[0].id), cid, gs[1..]);
    }
  }

  /** After the first move, what the rest of the moves need still holds. */
  lemma MoveHead(ns: seq<Node>, cid: nat, gs: seq<Node>)
    requires Unique(ns) && cid in ForestIds(ns)
    requires Distinct(Ids(gs))
    requires forall g :: g in gs ==> g in ns && cid !in TreeIds(g)
    requires gs != []
    ensures var rest := RemoveRootId(AppendForest(ns, cid, gs[0]), gs[0].id);
      && ForestIds(rest) == ForestIds(ns) && Unique(rest) && cid in ForestIds(rest)
      && Distinct(Ids(gs[1..]))
      && forall h :: h in gs[1..] ==> h in rest && cid !in TreeIds(h)
  {
    var g := gs[0];
    var rest := RemoveRootId(AppendForest(ns, cid, g), g.id);
    assert ForestIds(rest) == ForestIds(ns) by {
      assert g in gs;
      var k :| 0 <= k < |ns| && ns[k] == g;
      MoveOneKeeps(ns, cid, k);
    }
    assert Distinct(Ids(gs[1..])) by {
      assert Ids(gs[1..]) == Ids(gs)[1..];
    }
    assert forall h :: h in gs[1..] ==> h in rest && cid !in TreeIds(h) by {
      forall h | h in gs[1..]
        ensures h in ns && cid !in TreeIds(h) && h.id != g.id
      {
        var t :| 0 <= t < |gs[1..]| && gs[1..][t] == h;
        assert Ids(gs)[0] != Ids(gs)[t + 1];
        assert h in gs;
      }
      MoveRestStays(ns, cid, g, gs[1..]);
    }
  }

  /** One step of the move keeps every id of the list. */
  lemma MoveOneKeeps(ns: seq<Node>, cid: nat, k: nat)
    requires Unique(ns) && cid in ForestIds(ns)
    requires k < |ns| && cid !in TreeIds(ns[k])
    ensures ForestIds(RemoveRootId(AppendForest(ns, cid, ns[k]), ns[k].id)) == ForestIds(ns)
  {
    var g := ns[k];
    var a := AppendForest(ns, cid, g);
    AppendForestIds(ns, cid, g);
    AppendForestLength(ns, cid, g);
    AppendForestAt(ns, cid, g, k);
    AppendTreeAbsent(g, cid, g);
    UniqueRootIds(ns);
    forall j | 0 <= j < k
      ensures a[j].id != a[k].id
    {
      AppendForestAt(ns, cid, g, j);
    }
    RemoveRootIdIds(a, k);
    Cancel(ForestIds(RemoveRootId(a, g.id)), ForestIds(ns), TreeIds(g));
  }

  /** The nodes still to move stay in the list, unchanged, after one step. */
  lemma MoveRestStays(ns: seq<Node>, cid: nat, g: Node, hs: seq<Node>)
    requires forall h :: h in hs ==> h in ns && cid !in TreeIds(h) && h.id != g.id
    ensures forall h :: h in hs ==> h in RemoveRootId(AppendForest(ns, cid, g), g.id)
  {
    var a := AppendForest(ns, cid, g);
    forall h | h in hs
      ensures h in RemoveRootId(a, g.id)
    {
      var m :| 0 <= m < |ns| && ns[m] == h;
      AppendForestAt(ns, cid, g, m);
      AppendTreeAbsent(h, cid, g);
      RemoveRootIdKeeps(a, g.id, h);
    }
  }

  // ---------------------------------------------------------------------
  // `_get_container_nodes_having_given_as_only_parent`

  /** `[node for node in nodes if node.widget.name in accept]`. */
  function Potential(ns: seq<Node>, accept: seq<string>): (r: seq<Node>)
    ensures forall g :: g in r ==> g in ns && g.widget.name in accept
    ensures IsSubseq(r, ns)
  {
    if ns == [] then []
    else
      var rest := Potential(ns[1..], accept);
      if ns[0].widget.name in accept then
        assert ([ns[0]] + rest)[1..] == rest;
        [ns[0]] + rest
      else
        SubseqCons(rest, ns);
        rest
  }

  /** Whether id `x` is a direct child of a list entry other than the one at `pIdx`. */
  predicate ChildOfOther(ns: seq<Node>, pIdx: nat, x: nat) {
    exists j :: 0 <= j < |ns| && j != pIdx && x in Ids(ns[j].children)
  }

  /** The candidates of `ps` that are no other list entry's direct child. */
  function OnlyParent(ns: seq<Node>, pIdx: nat, ps: seq<Node>): seq<Node> {
    if ps == [] then []
    else
      var rest := OnlyParent(ns, pIdx, ps[1..]);
      if !ChildOfOther(ns, pIdx, ps[0].id) then [ps[0]] + rest else rest
  }

  /** The filter keeps the order of the candidates and only those that are no other entry's child. */
  lemma {:induction false} OnlyParentKeeps(ns: seq<Node>, pIdx: nat, ps: seq<Node>)
    ensures var r := OnlyParent(ns, pIdx, ps);
      && (forall g :: g in r ==> g in ps && !ChildOfOther(ns, pIdx, g.id))
      && IsSubseq(r, ps)
  {
    if ps != [] {
      var rest := OnlyParent(ns, pIdx, ps[1..]);
      OnlyParentKeeps(ns, pIdx, ps[1..]);
      if !ChildOfOther(ns, pIdx, ps[0].id) {
        assert ([ps[0]] + rest)[1..] == rest;
      } else {
        SubseqCons(rest, ps);
      }
    }
  }

  /**
   * What the helper returns for the entry at `pIdx`: the list entries
   * that entry accepts by name and that are no other entry's direct child.
   */
  function OnlyParentNodes(ns: seq<Node>, pIdx: nat): (r: seq<Node>)
    requires pIdx < |ns|
    ensures forall g :: g in r ==>
      g in ns && g.widget.name in ns[pIdx].widget.acceptList && !ChildOfOther(ns, pIdx, g.id)
    ensures IsSubseq(r, ns)
  {
    var ps := Potential(ns, ns[pIdx].widget.acceptList);
    var r := OnlyParent(ns, pIdx, ps);
    OnlyParentKeeps(ns, pIdx, ps);
    SubseqTrans(r, ps, ns);
    r
  }

  /** `gs` without the nodes whose id is `y`. */
  function WithoutId(gs: seq<Node>, y: nat): (r: seq<Node>)
    ensures forall g :: g in r ==> g in gs && g.id != y
    ensures IsSubseq(r, gs)
  {
    if gs == [] then []
    else
      var rest := WithoutId(gs[1..], y);
      if gs[0].id != y then
        assert ([gs[0]] + rest)[1..] == rest;
        [gs[0]] + rest
      else
        SubseqCons(rest, gs);
        rest
  }

  method GetContainerNodesHavingGivenAsOnlyParent(parentIndex: nat, containerNodes: seq<Node>)
    returns (onlyParentNodes: seq<Node>)
    requires parentIndex < |containerNodes|
    ensures onlyParentNodes == OnlyParentNodes(containerNodes, parentIndex)
  {
    var potential := Potential(containerNodes, containerNodes[parentIndex].widget.acceptList);
    onlyParentNodes := KeepOnlyParent(containerNodes, parentIndex, potential);
  }

  lemma OnlyParentStep(ns: seq<Node>, pIdx: nat, ps: seq<Node>, i: nat)
    requires i < |ps|
    ensures OnlyParent(ns, pIdx, ps[i..])
         == (if ChildOfOther(ns, pIdx, ps[i].id) then [] else [ps[i]]) + OnlyParent(ns, pIdx, ps[i + 1..])
  {
    assert ps[i..][0] == ps[i] && ps[i..][1..] == ps[i + 1..];
  }

  /** The outer loop of the helper, over the candidates accepted by name. */
  method KeepOnlyParent(containerNodes: seq<Node>, parentIndex: nat, potential: seq<Node>)
    returns (onlyParentNodes: seq<Node>)
    ensures onlyParentNodes == OnlyParent(containerNodes, parentIndex, potential)
  {
    onlyParentNodes := [];
    var i := 0;
    while i < |potential|
      invariant 0 <= i <= |potential|
      invariant onlyParentNodes + OnlyParent(containerNodes, parentIndex, potential[i..])
             == OnlyParent(containerNodes, parentIndex, potential)
    {
      var candidate := potential[i];
      var ok := IsChildOfOther(containerNodes, parentIndex, candidate);
      OnlyParentStep(containerNodes, parentIndex, potential, i);
      ghost var rest := OnlyParent(containerNodes, parentIndex, potential[i + 1..]);
      if !ok {
        AppendAssoc(onlyParentNodes, [candidate], rest);
        onlyParentNodes := onlyParentNodes + [candidate];
      }
      i := i + 1;
    }
    assert potential[i..] == [];
  }

  /**
   * The inner loop of the helper: whether `candidate` is in the children
   * of a list entry other than the one at `parentIndex`, stopping at the
   * first such entry.
   */
  method IsChildOfOther(containerNodes: seq<Node>, parentIndex: nat, candidate: Node) returns (ok: bool)
    ensures ok == ChildOfOther(containerNodes, parentIndex, candidate.id)
  {
    ok := false;
    var j := 0;
    while j < |containerNodes| && !ok
      invariant 0 <= j <= |containerNodes|
      invariant ok ==> ChildOfOther(containerNodes, parentIndex, candidate.id)
      invariant !ok ==> forall j' :: 0 <= j' < j && j' != parentIndex ==>
        candidate.id !in Ids(containerNodes[j'].children)
    {
      if parentIndex != j && candidate.id in Ids(containerNodes[j].children) {
        ok := true;
      }
      j := j + 1;
    }
  }

  // ---------------------------------------------------------------------
  // `_link_two_container_nodes`

  /** `parent_node.children.append(child_node)` on the list. */
  function Attach(ns: seq<Node>, pi: nat, ci: nat): (r: seq<Node>)
    requires pi < |ns| && ci < |ns|
    ensures |r| == |ns| && forall k :: 0 <= k < |ns| ==> r[k].id == ns[k].id
  {
    ns[pi := ns[pi].(children := ns[pi].children + [ns[ci]])]
  }

  /**
   * One linking step as written: hang the entry at `ci` under the entry
   * at `pi`, move the helper's nodes under the child, drop the child's
   * own entry.
   */
  function LinkTwo(ns: seq<Node>, pi: nat, ci: nat): seq<Node>
    requires pi < |ns| && ci < |ns|
  {
    if pi == ci || !CanBeParentOf(ns[pi], ns[ci]) then ns
    else
      var attached := Attach(ns, pi, ci);
      var cid := ns[ci].id;
      RemoveRootId(MoveAll(attached, cid, OnlyParentNodes(attached, ci)), cid)
  }

  /**
   * The linking step with the parent kept out of the nodes moved under
   * the child, so that the child can never swallow its own parent.
   */
  function LinkTwoFixed(ns: seq<Node>, pi: nat, ci: nat): seq<Node>
    requires pi < |ns| && ci < |ns|
  {
    if pi == ci || !CanBeParentOf(ns[pi], ns[ci]) then ns
    else
      var attached := Attach(ns, pi, ci);
      var cid := ns[ci].id;
      RemoveRootId(MoveAll(attached, cid, WithoutId(OnlyParentNodes(attached, ci), ns[pi].id)), cid)
  }

  lemma {:induction false} SubseqIds(a: seq<Node>, b: seq<Node>)
    requires IsSubseq(a, b)
    ensures IsSubseq(Ids(a), Ids(b))
    decreases |b|
  {
    if a != [] && b != [] {
      assert Ids(a)[1..] == Ids(a[1..]) && Ids(b)[1..] == Ids(b[1..]);
      if a[0] == b[0] {
        SubseqIds(a[1..], b[1..]);
      } else {
        SubseqIds(a, b[1..]);
        SubseqCons(Ids(a), Ids(b));
      }
    }
  }

  lemma {:induction false} SubseqMember<T>(a: seq<T>, b: seq<T>, x: T)
    requires IsSubseq(a, b) && x in a
    ensures x in b
    decreases |b|
  {
    if a[0] == b[0] {
      if x != a[0] {
        assert x in a[1..];
        SubseqMember(a[1..], b[1..], x);
      }
    } else {
      SubseqMember(a, b[1..], x);
    }
  }

  lemma {:induction false} SubseqDistinct<T>(a: seq<T>, b: seq<T>)
    requires IsSubseq(a, b) && Distinct(b)
    ensures Distinct(a)
    decreases |b|
  {
    if a != [] {
      if a[0] == b[0] {
        SubseqDistinct(a[1..], b[1..]);
        forall k | 1 <= k < |a|
          ensures a[k] != a[0]
        {
          assert a[k] in a[1..];
          SubseqMember(a[1..], b[1..], a[k]);
        }
      } else {
        SubseqDistinct(a, b[1..]);
      }
    }
  }

  lemma Cancel(a: multiset<nat>, b: multiset<nat>, c: multiset<nat>)
    requires a + c == b + c
    ensures a == b
  {
    assert forall x :: a[x] == (a + c)[x] - c[x] && b[x] == (b + c)[x] - c[x];
  }

  /** Hanging the child under the parent and dropping the child's own entry keeps every id. */
  lemma DetachKeeps(ns: seq<Node>, pi: nat, ci: nat)
    requires Unique(ns) && pi < |ns| && ci < |ns| && pi != ci
    ensures ForestIds(RemoveRootId(Attach(ns, pi, ci), ns[ci].id)) == ForestIds(ns)
    ensures |RemoveRootId(Attach(ns, pi, ci), ns[ci].id)| == |ns| - 1
  {
    var attached := Attach(ns, pi, ci);
    Detached(ns, pi, ci);
    AttachedIds(ns, pi, ci);
    CancelVia(ForestIds(RemoveRootId(attached, ns[ci].id)), ForestIds(attached), ForestIds(ns), TreeIds(ns[ci]));
  }

  /** Dropping the child's own entry after the attach takes out exactly the child's tree. */
  lemma Detached(ns: seq<Node>, pi: nat, ci: nat)
    requires Unique(ns) && pi < |ns| && ci < |ns| && pi != ci
    ensures var attached := Attach(ns, pi, ci);
      && ForestIds(RemoveRootId(attached, ns[ci].id)) + TreeIds(ns[ci]) == ForestIds(attached)
      && |RemoveRootId(attached, ns[ci].id)| == |ns| - 1
  {
    UniqueRootIds(ns);
    RemoveRootIdIds(Attach(ns, pi, ci), ci);
  }

  /** The attach adds the child's tree a second time. */
  lemma AttachedIds(ns: seq<Node>, pi: nat, ci: nat)
    requires pi < |ns| && ci < |ns|
    ensures ForestIds(Attach(ns, pi, ci)) == ForestIds(ns) + TreeIds(ns[ci])
  {
    var parent, child := ns[pi], ns[ci];
    var attached := Attach(ns, pi, ci);
    assert TreeIds(attached[pi]) == TreeIds(parent) + TreeIds(child) by {
      ForestAppend(parent.children, [child]);
      ForestSingle(child);
    }
    ForestUpdate(ns, pi, attached[pi]);
    UpdateCancel(ForestIds(attached), TreeIds(parent), ForestIds(ns), TreeIds(attached[pi]), TreeIds(child));
  }

  lemma UpdateCancel(updated: multiset<nat>, old_: multiset<nat>, whole: multiset<nat>, new_: multiset<nat>, extra: multiset<nat>)
    requires updated + old_ == whole + new_ && new_ == old_ + extra
    ensures updated == whole + extra
  {
    Cancel(updated, whole + extra, old_);
  }

  lemma CancelVia(a: multiset<nat>, b: multiset<nat>, n: multiset<nat>, c: multiset<nat>)
    requires a + c == b && b == n + c
    ensures a == n
  {
    Cancel(a, n, c);
  }

  /** The nodes the corrected step moves: list entries other than the parent and the child. */
  lemma MovedAreOthers(ns: seq<Node>, pi: nat, ci: nat, g: Node)
    requires Unique(ns) && pi < |ns| && ci < |ns| && pi != ci
    requires g in WithoutId(OnlyParentNodes(Attach(ns, pi, ci), ci), ns[pi].id)
    ensures g.id != ns[ci].id
    ensures g in RemoveRootId(Attach(ns, pi, ci), ns[ci].id)
    ensures ns[ci].id !in TreeIds(g)
  {
    var attached := Attach(ns, pi, ci);
    var only := OnlyParentNodes(attached, ci);
    assert g in only;
    assert Ids(attached[pi].children)[|ns[pi].children|] == ns[ci].id;
    assert !ChildOfOther(attached, ci, g.id);
    var k :| 0 <= k < |attached| && attached[k] == g;
    assert k != pi && k != ci;
    assert ns[k] == g;
    UniqueDisjoint(ns, ci, k);
    assert ns[ci].id in TreeIds(ns[ci]);
    RemoveRootIdKeeps(attached, ns[ci].id, g);
  }

  /**
   * The corrected step keeps every node of the forest, keeps ids unique,
   * and shortens the list whenever it links.
   */
  lemma LinkTwoFixedKeeps(ns: seq<Node>, pi: nat, ci: nat)
    requires Unique(ns) && pi < |ns| && ci < |ns|
    ensures ForestIds(LinkTwoFixed(ns, pi, ci)) == ForestIds(ns)
    ensures Unique(LinkTwoFixed(ns, pi, ci))
    ensures pi != ci && CanBeParentOf(ns[pi], ns[ci]) ==> |LinkTwoFixed(ns, pi, ci)| < |ns|
    ensures !(pi != ci && CanBeParentOf(ns[pi], ns[ci])) ==> LinkTwoFixed(ns, pi, ci) == ns
  {
    if pi != ci && CanBeParentOf(ns[pi], ns[ci]) {
      var cid := ns[ci].id;
      var attached := Attach(ns, pi, ci);
      var only := OnlyParentNodes(attached, ci);
      var gs := WithoutId(only, ns[pi].id);
      forall k | 0 <= k < |gs|
        ensures gs[k].id != cid
      {
        MovedAreOthers(ns, pi, ci, gs[k]);
      }
      MoveAllCommute(attached, cid, gs);
      var detached := RemoveRootId(attached, cid);
      DetachKeeps(ns, pi, ci);
      forall g | g in gs
        ensures g in detached && cid !in TreeIds(g)
      {
        MovedAreOthers(ns, pi, ci, g);
      }
      assert Distinct(Ids(gs)) by {
        SubseqTrans(gs, only, attached);
        SubseqIds(gs, attached);
        UniqueRootIds(ns);
        SubseqDistinct(Ids(gs), Ids(attached));
      }
      assert cid in ForestIds(detached) by {
        OneTree(ns, ci, cid);
        assert cid in TreeIds(ns[ci]);
      }
      MoveAllKeeps(detached, cid, gs);
      MoveAllLength(detached, cid, gs);
      assert LinkTwoFixed(ns, pi, ci) == MoveAll(detached, cid, gs);
    }
  }

  /** Where the parent is not among the nodes the child accepts by name, the two steps agree. */
  lemma LinkTwoAgrees(ns: seq<Node>, pi: nat, ci: nat)
    requires Unique(ns) && pi < |ns| && ci < |ns|
    requires ns[pi].widget.name !in ns[ci].widget.acceptList
    ensures LinkTwo(ns, pi, ci) == LinkTwoFixed(ns, pi, ci)
  {
    if pi != ci && CanBeParentOf(ns[pi], ns[ci]) {
      var attached := Attach(ns, pi, ci);
      var only := OnlyParentNodes(attached, ci);
      UniqueRootIds(ns);
      forall g | g in only
        ensures g.id != ns[pi].id
      {
        var k :| 0 <= k < |attached| && attached[k] == g;
        assert attached[pi].widget.name == ns[pi].widget.name;
      }
      WithoutIdNone(only, ns[pi].id);
    }
  }

  lemma {:induction false} WithoutIdNone(gs: seq<Node>, y: nat)
    requires forall g :: g in gs ==> g.id != y
    ensures WithoutId(gs, y) == gs
  {
    if gs != [] {
      WithoutIdNone(gs[1..], y);
      assert gs == [gs[0]] + gs[1..];
    }
  }

  /**
   * The step as written loses nodes: two containers that accept each
   * other vanish from the list together, because the child swallows its
   * parent and both entries are removed. The corrected step links them.
   */
  lemma LinkTwoLosesNodes()
    ensures var a := TreeWidgetDescription("A", true, 1.0, false, ["B"], false);
            var b := TreeWidgetDescription("B", true, 1.0, false, ["A"], false);
            var ns := [Node(0, a, []), Node(1, b, [])];
            && ForestIds(ns) == multiset{0, 1}
            && LinkTwo(ns, 0, 1) == []
            && LinkTwoFixed(ns, 0, 1) == [Node(0, a, [Node(1, b, [])])]
  {
    var a := TreeWidgetDescription("A", true, 1.0, false, ["B"], false);
    var b := TreeWidgetDescription("B", true, 1.0, false, ["A"], false);
    var na, nb := Node(0, a, []), Node(1, b, []);
    var ns := [na, nb];
    assert ForestIds([nb]) == multiset{1} by {
      assert [nb][1..] == [];
    }
    assert ForestIds(ns) == multiset{0, 1} by {
      assert ns[1..] == [nb];
    }
    assert CanBeParentOf(na, nb);
    var attached := Attach(ns, 0, 1);
    var pa := Node(0, a, [nb]);
    assert [] + [nb] == [nb];
    assert attached == [pa, nb];
    assert Potential(attached, ["A"]) == [pa] by {
      assert attached[1..] == [nb];
      assert Potential([nb], ["A"]) == [] by {
        assert [nb][1..] == [];
      }
    }
    assert !ChildOfOther(attached, 1, 0) by {
      forall j | 0 <= j < 2 && j != 1
        ensures 0 !in Ids(attached[j].children)
      {
        assert Ids([nb]) == [1];
      }
    }
    assert OnlyParent(attached, 1, [pa]) == [pa] by {
      assert [pa][1..] == [];
    }
    var only := OnlyParentNodes(attached, 1);
    assert only == [pa];
    // As written: `pa` is appended under `nb`, then removed; then `nb` is removed.
    var moved := AppendForest(attached, 1, pa);
    AppendForestAt(attached, 1, pa, 0);
    assert moved[0].id == 0;
    assert RemoveRootId(moved, 0) == moved[1..];
    assert MoveAll(attached, 1, [pa]) == MoveAll(moved[1..], 1, []);
    AppendForestLength(attached, 1, pa);
    AppendForestAt(attached, 1, pa, 1);
    assert moved[1..][0].id == 1;
    assert LinkTwo(ns, 0, 1) == RemoveRootId(moved[1..], 1);
    assert moved[1..] == [moved[1]];
    // Corrected: nothing is moved, and only the child's entry is removed.
    assert WithoutId([pa], 0) == [] by {
      assert [pa][1..] == [];
    }
    assert LinkTwoFixed(ns, 0, 1) == RemoveRootId(attached, 1);
    assert RemoveRootId(attached, 1) == [pa] + RemoveRootId([nb], 1) by {
      assert attached[1..] == [nb];
    }
  }

  // ---------------------------------------------------------------------
  // The methods, as the source performs them

  /** `_link_only_children(node_index, node, container_nodes)`. */
  method LinkOnlyChildren(nodeIndex: nat, node: Node, containerNodes: seq<Node>) returns (nodes: seq<Node>)
    requires nodeIndex < |containerNodes|
    ensures nodes == MoveAll(containerNodes, node.id, OnlyParentNodes(containerNodes, nodeIndex))
  {
    var gs := GetContainerNodesHavingGivenAsOnlyParent(nodeIndex, containerNodes);
    nodes := containerNodes;
    var i := 0;
    while i < |gs|
      invariant 0 <= i <= |gs|
      invariant MoveAll(nodes, node.id, gs[i..]) == MoveAll(containerNodes, node.id, gs)
    {
      nodes := AppendForest(nodes, node.id, gs[i]);
      nodes := RemoveRootId(nodes, gs[i].id);
      assert gs[i..][1..] == gs[i + 1..];
      i := i + 1;
    }
    assert gs[i..] == [];
  }

  /** `_link_two_container_nodes` with the two drawn indices. */
  method LinkTwoContainerNodes(containerNodes: seq<Node>, parentIndex: nat, childIndex: nat)
    returns (nodes: seq<Node>)
    requires parentIndex < |containerNodes| && childIndex < |containerNodes|
    ensures nodes == LinkTwo(containerNodes, parentIndex, childIndex)
  {
    nodes := containerNodes;
    if parentIndex != childIndex {
      var parentNode := nodes[parentIndex];
      var childNode := nodes[childIndex];
      if CanBeParentOf(parentNode, childNode) {
        nodes := nodes[parentIndex := parentNode.(children := parentNode.children + [childNode])];
        nodes := LinkOnlyChildren(childIndex, childNode, nodes);
        nodes := RemoveRootId(nodes, childNode.id);
      }
    }
  }
}
