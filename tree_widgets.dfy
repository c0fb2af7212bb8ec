/**
 * The catalogue entries and tree nodes of the random widget-tree generator:
 * `TreeWidgetDescription`, `Node` and `TreeWidgetDescriptionUtils` of
 * `gui_tree_gen.py`.
 */
module TreeWidgets {
  import opened Wrappers

  /** One catalogue entry: a widget type, its draw weight and its placement rules. */
  datatype TreeWidgetDescription = TreeWidgetDescription(
    name: string,
    isContainer: bool,
    prob: real,
    isSolo: bool,
    acceptList: seq<string>,
    hasOnlyChild: bool)

  /** The constructor, where a missing (None) accept list becomes the empty list. */
  function NewTreeWidgetDescription(name: string, container: bool, prob: real, solo: bool,
                                    acceptList: Option<seq<string>>, hasOnlyChild: bool): (w: TreeWidgetDescription)
    ensures acceptList.None? ==> w.acceptList == []
    ensures acceptList.Some? ==> w.acceptList == acceptList.value
    ensures w.name == name && w.isContainer == container && w.prob == prob
    ensures w.isSolo == solo && w.hasOnlyChild == hasOnlyChild
  {
    TreeWidgetDescription(name, container, prob, solo,
                          if acceptList.Some? then acceptList.value else [], hasOnlyChild)
  }

  /** An empty accept list means "accepts anything". */
  predicate IsAcceptingAnyWidget(w: TreeWidgetDescription) {
    |w.acceptList| == 0
  }

  predicate CanAccept(w: TreeWidgetDescription, other: TreeWidgetDescription) {
    other.name in w.acceptList
  }

  /**
   * A tree node. Python compares nodes by identity (`in`, `list.remove`);
   * `id` stands for that identity: it is the position, in the sample, of
   * the entry the node was made from.
   */
  datatype Node = Node(id: nat, widget: TreeWidgetDescription, children: seq<Node>)

  predicate CanBeParentOf(parent: Node, child: Node) {
    parent.widget.isContainer
    && (IsAcceptingAnyWidget(parent.widget) || CanAccept(parent.widget, child.widget))
  }

  /** `get_node_and_children`, as a listing: the node itself, then each child's listing in order. */
  function Preorder(n: Node): (r: seq<Node>)
    decreases n, 1
  {
    [n] + PreorderAll(n.children)
  }

  function PreorderAll(ns: seq<Node>): seq<Node>
    decreases ns, 0
  {
    if ns == [] then [] else Preorder(ns[0]) + PreorderAll(ns[1..])
  }

  lemma {:induction false} PreorderAllAppend(ns: seq<Node>, x: Node)
    ensures PreorderAll(ns + [x]) == PreorderAll(ns) + Preorder(x)
  {
    if ns == [] {
      assert [] + [x] == [x];
      assert PreorderAll([x]) == Preorder(x) + PreorderAll([]);
    } else {
      assert (ns + [x])[1..] == ns[1..] + [x];
      PreorderAllAppend(ns[1..], x);
    }
  }

  /**
   * `get_node_and_children`: a depth-first walk that lists every node
   * before its children, starting with `n` itself.
   */
  method GetNodeAndChildren(n: Node) returns (result: seq<Node>)
    ensures result == Preorder(n)
    ensures |result| >= 1 && result[0] == n
  {
    result := Dfs([], n);
    assert [] + Preorder(n) == Preorder(n);
  }

  /** The inner `dfs(ls, node)`: appends `node`, then walks each child in order. */
  method Dfs(ls: seq<Node>, node: Node) returns (out: seq<Node>)
    ensures out == ls + Preorder(node)
    decreases node
  {
    out := ls + [node];
    var i := 0;
    while i < |node.children|
      invariant 0 <= i <= |node.children|
      invariant out == ls + [node] + PreorderAll(node.children[..i])
    {
      var child := node.children[i];
      out := Dfs(out, child);
      PreorderAllAppend(node.children[..i], child);
      assert node.children[..i + 1] == node.children[..i] + [child];
      i := i + 1;
    }
    assert node.children[..i] == node.children;
  }

  /** `get_container_widgets`: the container entries, in catalogue order. */
  function ContainerWidgets(ws: seq<TreeWidgetDescription>): (r: seq<TreeWidgetDescription>)
    ensures forall w :: w in r <==> w in ws && w.isContainer
    ensures r != [] ==> exists i :: 0 <= i < |ws| && ws[i] == r[0] && r[0].isContainer
                                    && forall j :: 0 <= j < i ==> !ws[j].isContainer
  {
    if ws == [] then []
    else
      var rest := ContainerWidgets(ws[1..]);
      assert forall w :: w in ws <==> w == ws[0] || w in ws[1..];
      if ws[0].isContainer then [ws[0]] + rest
      else
        assert rest != [] ==> exists i :: 1 <= i < |ws| && ws[i] == rest[0] && rest[0].isContainer
                                         && forall j :: 0 <= j < i ==> !ws[j].isContainer by {
          if rest != [] {
            var i :| 0 <= i < |ws[1..]| && ws[1..][i] == rest[0] && rest[0].isContainer
                     && forall j :: 0 <= j < i ==> !ws[1..][j].isContainer;
            assert ws[i + 1] == rest[0];
            assert forall j :: 1 <= j < i + 1 ==> ws[j] == ws[1..][j - 1];
          }
        }
        rest
  }

  /** `get_ordinary_widgets`: the non-container entries, in catalogue order. */
  function OrdinaryWidgets(ws: seq<TreeWidgetDescription>): (r: seq<TreeWidgetDescription>)
    ensures forall w :: w in r <==> w in ws && !w.isContainer
  {
    if ws == [] then []
    else
      var rest := OrdinaryWidgets(ws[1..]);
      assert forall w :: w in ws <==> w == ws[0] || w in ws[1..];
      if ws[0].isContainer then rest else [ws[0]] + rest
  }

  /**
   * `get_first_container_widget`: the first container of the catalogue;
   * indexing the empty container list raises IndexError.
   */
  function GetFirstContainerWidget(ws: seq<TreeWidgetDescription>): (r: Result<TreeWidgetDescription>)
    ensures r.Ok? <==> exists i :: 0 <= i < |ws| && ws[i].isContainer
    ensures r.Err? ==> r.error == IndexError
    ensures r.Ok? ==> exists i :: 0 <= i < |ws| && ws[i] == r.value && r.value.isContainer
                                  && forall j :: 0 <= j < i ==> !ws[j].isContainer
  {
    var cs := ContainerWidgets(ws);
    if |cs| == 0 then
      assert forall i :: 0 <= i < |ws| ==> !ws[i].isContainer by {
        forall i | 0 <= i < |ws| ensures !ws[i].isContainer {
          assert ws[i] in ws;
        }
      }
      Err(IndexError)
    else Ok(cs[0])
  }

  /** `get_first_node`: `nodes[0]`, or IndexError for an empty list. */
  function GetFirstNode(nodes: seq<Node>): (r: Result<Node>)
    ensures r.Ok? <==> |nodes| > 0
    ensures r.Ok? ==> r.value == nodes[0]
    ensures r.Err? ==> r.error == IndexError
  {
    if |nodes| == 0 then Err(IndexError) else Ok(nodes[0])
  }

  /**
   * The nodes that `get_container_widgets_as_nodes` (container = true) or
   * `get_ordinary_widgets_as_nodes` (container = false) makes from the
   * sample entries at positions `from` and later: one childless node per
   * matching entry, in sample order, identified by its position.
   */
  function NodesFrom(ws: seq<TreeWidgetDescription>, from: nat, container: bool): (r: seq<Node>)
    requires from <= |ws|
    ensures forall k :: 0 <= k < |r| ==>
      from <= r[k].id < |ws| && r[k].widget == ws[r[k].id]
      && r[k].widget.isContainer == container && r[k].children == []
    ensures forall k, l :: 0 <= k < l < |r| ==> r[k].id < r[l].id
    decreases |ws| - from
  {
    if from == |ws| then []
    else
      var rest := NodesFrom(ws, from + 1, container);
      if ws[from].isContainer == container then [Node(from, ws[from], [])] + rest else rest
  }

  /** The ids of a list of nodes, in order. */
  function Ids(ns: seq<Node>): (r: seq<nat>)
    ensures |r| == |ns| && forall k :: 0 <= k < |ns| ==> r[k] == ns[k].id
  {
    if ns == [] then [] else [ns[0].id] + Ids(ns[1..])
  }

  /** Every matching entry from position `from` on gets a node. */
  lemma {:induction false} NodesFromComplete(ws: seq<TreeWidgetDescription>, from: nat, container: bool, i: nat)
    requires from <= i < |ws| && ws[i].isContainer == container
    ensures i in Ids(NodesFrom(ws, from, container))
    decreases |ws| - from
  {
    var rest := NodesFrom(ws, from + 1, container);
    var all := NodesFrom(ws, from, container);
    if ws[from].isContainer == container {
      assert all == [Node(from, ws[from], [])] + rest;
      assert Ids(all) == [from] + Ids(rest);
      if i > from {
        NodesFromComplete(ws, from + 1, container, i);
      }
    } else {
      assert all == rest;
      NodesFromComplete(ws, from + 1, container, i);
    }
  }

  /** `get_container_widgets_as_nodes`. */
  function ContainerWidgetsAsNodes(ws: seq<TreeWidgetDescription>): (r: seq<Node>)
    ensures forall k :: 0 <= k < |r| ==>
      r[k].id < |ws| && r[k].widget == ws[r[k].id] && r[k].widget.isContainer && r[k].children == []
    ensures forall k, l :: 0 <= k < l < |r| ==> r[k].id < r[l].id
  {
    NodesFrom(ws, 0, true)
  }

  /** `get_ordinary_widgets_as_nodes`. */
  function OrdinaryWidgetsAsNodes(ws: seq<TreeWidgetDescription>): (r: seq<Node>)
    ensures forall k :: 0 <= k < |r| ==>
      r[k].id < |ws| && r[k].widget == ws[r[k].id] && !r[k].widget.isContainer && r[k].children == []
    ensures forall k, l :: 0 <= k < l < |r| ==> r[k].id < r[l].id
  {
    NodesFrom(ws, 0, false)
  }
}
