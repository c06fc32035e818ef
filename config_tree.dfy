/** The configuration tree as a value, and what applying it means: the tree after the
    parent references have been injected, and the `add_mo` calls the walk makes. */
module ConfigTree {
  import opened Values
  import opened Session

  /** The reserved property that links an object to its parent. */
  const ParentKey: string := "parent_mo_or_dn"

  /** The parent passed to a top-level node: `traverse`'s default argument `mo=''`. */
  const Root: Value := Str("")

  /** A node of the `objects` list: `{module, class, properties, children?}`. A node without a
      `children` key is a node whose `children` is empty; the walk does not tell them apart. */
  datatype Tree = Tree(moduleName: string, className: string, props: Props, children: seq<Tree>)

  /** The properties of a node once `parent` has been injected, unless it declares its own. */
  function Inject(props: Props, parent: Value): (r: Props)
    ensures r.Keys == props.Keys + {ParentKey}
    ensures forall k :: k in props ==> r[k] == props[k]
    ensures ParentKey !in props ==> r[ParentKey] == parent
  {
    if ParentKey in props then props else props[ParentKey := parent]
  }

  /** The managed object constructed from a node's (already injected) properties. */
  function MoOf(t: Tree, build: Constructor): Mo
  {
    build(t.moduleName, t.className, t.props)
  }

  /** The tree as the walk leaves it: every node's properties injected with the object
      constructed for its parent (`parent` at the root). */
  function Applied(t: Tree, parent: Value, build: Constructor): Tree
    decreases t
  {
    var props := Inject(t.props, parent);
    Tree(t.moduleName, t.className, props,
         AppliedList(t.children, Obj(build(t.moduleName, t.className, props)), build))
  }

  function AppliedList(ts: seq<Tree>, parent: Value, build: Constructor): (r: seq<Tree>)
    ensures |r| == |ts|
    decreases ts
  {
    if ts == [] then []
    else AppliedList(ts[..|ts| - 1], parent, build) + [Applied(ts[|ts| - 1], parent, build)]
  }

  /** The calls the walk of `t` makes on the handle. */
  function Trace(t: Tree, parent: Value, build: Constructor): seq<Event>
    decreases t
  {
    var mo := build(t.moduleName, t.className, Inject(t.props, parent));
    [AddMo(mo, true)] + TraceList(t.children, Obj(mo), build)
  }

  function TraceList(ts: seq<Tree>, parent: Value, build: Constructor): seq<Event>
    decreases ts
  {
    if ts == [] then []
    else TraceList(ts[..|ts| - 1], parent, build) + Trace(ts[|ts| - 1], parent, build)
  }

  /** Number of nodes. */
  function Size(t: Tree): nat
    decreases t
  {
    1 + SizeList(t.children)
  }

  function SizeList(ts: seq<Tree>): nat
    decreases ts
  {
    if ts == [] then 0 else SizeList(ts[..|ts| - 1]) + Size(ts[|ts| - 1])
  }

  /** The nodes of a tree in depth-first pre-order, children in list order. */
  function PreOrder(t: Tree): seq<Tree>
    decreases t
  {
    [t] + PreOrderList(t.children)
  }

  function PreOrderList(ts: seq<Tree>): seq<Tree>
    decreases ts
  {
    if ts == [] then [] else PreOrderList(ts[..|ts| - 1]) + PreOrder(ts[|ts| - 1])
  }

  /** One `add_mo(mo, modify_present=True)` per node, in the order given. */
  function Submissions(ns: seq<Tree>, build: Constructor): seq<Event>
  {
    if ns == [] then []
    else Submissions(ns[..|ns| - 1], build) + [AddMo(MoOf(ns[|ns| - 1], build), true)]
  }

  lemma {:induction false} AppliedListAt(ts: seq<Tree>, parent: Value, build: Constructor)
    ensures |AppliedList(ts, parent, build)| == |ts|
    ensures forall i :: 0 <= i < |ts| ==> AppliedList(ts, parent, build)[i] == Applied(ts[i], parent, build)
    decreases |ts|
  {
    if ts != [] {
      AppliedListAt(ts[..|ts| - 1], parent, build);
    }
  }

  lemma TraceListSnoc(ts: seq<Tree>, i: nat, parent: Value, build: Constructor)
    requires i < |ts|
    ensures TraceList(ts[..i + 1], parent, build) == TraceList(ts[..i], parent, build) + Trace(ts[i], parent, build)
  {
    assert ts[..i + 1][..i] == ts[..i];
  }

  lemma {:induction false} SubmissionsAppend(a: seq<Tree>, c: seq<Tree>, build: Constructor)
    ensures Submissions(a + c, build) == Submissions(a, build) + Submissions(c, build)
    decreases |c|
  {
    if c == [] {
      assert a + c == a;
    } else {
      assert (a + c)[..|a + c| - 1] == a + c[..|c| - 1];
      SubmissionsAppend(a, c[..|c| - 1], build);
    }
  }

  /** The walk makes exactly one call per node, each an `add_mo` with `modify_present` set,
      and the first one submits the node itself. */
  lemma {:induction false} TraceShape(t: Tree, parent: Value, build: Constructor)
    ensures |Trace(t, parent, build)| == Size(t)
    ensures Trace(t, parent, build)[0] == AddMo(MoOf(Applied(t, parent, build), build), true)
    ensures forall k :: 0 <= k < |Trace(t, parent, build)| ==>
              Trace(t, parent, build)[k].AddMo? && Trace(t, parent, build)[k].modifyPresent
    decreases t, 1
  {
    TraceListShape(t.children, Obj(MoOf(Applied(t, parent, build), build)), build);
  }

  lemma {:induction false} TraceListShape(ts: seq<Tree>, parent: Value, build: Constructor)
    ensures |TraceList(ts, parent, build)| == SizeList(ts)
    ensures forall k :: 0 <= k < |TraceList(ts, parent, build)| ==>
              TraceList(ts, parent, build)[k].AddMo? && TraceList(ts, parent, build)[k].modifyPresent
    decreases ts, 0
  {
    if ts != [] {
      TraceListShape(ts[..|ts| - 1], parent, build);
      TraceShape(ts[|ts| - 1], parent, build);
    }
  }

  /** A node without children is one call. */
  lemma LeafTrace(t: Tree, parent: Value, build: Constructor)
    requires t.children == []
    ensures Trace(t, parent, build) == [AddMo(build(t.moduleName, t.className, Inject(t.props, parent)), true)]
  {
  }

  /** The calls are the nodes of the applied tree in pre-order, each submitted as the object
      constructed from its final properties: a node precedes its descendants, and siblings
      come in list order. */
  lemma {:induction false} TraceIsPreOrder(t: Tree, parent: Value, build: Constructor)
    ensures Trace(t, parent, build) == Submissions(PreOrder(Applied(t, parent, build)), build)
    decreases t, 1
  {
    var a := Applied(t, parent, build);
    var mo := MoOf(a, build);
    TraceListIsPreOrder(t.children, Obj(mo), build);
    SubmissionsAppend([a], PreOrderList(a.children), build);
    assert Submissions([a], build) == [AddMo(mo, true)];
  }

  lemma {:induction false} TraceListIsPreOrder(ts: seq<Tree>, parent: Value, build: Constructor)
    ensures TraceList(ts, parent, build) == Submissions(PreOrderList(AppliedList(ts, parent, build)), build)
    decreases ts, 0
  {
    if ts != [] {
      var init, last := ts[..|ts| - 1], ts[|ts| - 1];
      var al := AppliedList(ts, parent, build);
      assert al[..|al| - 1] == AppliedList(init, parent, build);
      TraceListIsPreOrder(init, parent, build);
      TraceIsPreOrder(last, parent, build);
      SubmissionsAppend(PreOrderList(AppliedList(init, parent, build)), PreOrder(Applied(last, parent, build)), build);
    }
  }

  /** The applied tree keeps the shape and every declared property of the original, and has
      a parent reference on every node. */
  ghost predicate KeepsDeclared(t: Tree, a: Tree)
    decreases t
  {
    && a.moduleName == t.moduleName
    && a.className == t.className
    && a.props.Keys == t.props.Keys + {ParentKey}
    && (forall k :: k in t.props ==> a.props[k] == t.props[k])
    && |a.children| == |t.children|
    && forall i :: 0 <= i < |t.children| ==> KeepsDeclared(t.children[i], a.children[i])
  }

  /** Every node of `t` that declares no parent reference has, in `a`, the object constructed
      from its parent node of `a` (`parent` at the root). */
  ghost predicate LinksParents(t: Tree, a: Tree, parent: Value, build: Constructor)
    decreases t
  {
    && (ParentKey !in t.props ==> ParentKey in a.props && a.props[ParentKey] == parent)
    && |a.children| == |t.children|
    && forall i :: 0 <= i < |t.children| ==>
         LinksParents(t.children[i], a.children[i], Obj(MoOf(a, build)), build)
  }

  /** The applied tree is exactly the tree that keeps every declared property and links
      every undeclared parent to the object constructed for that parent. */
  lemma {:induction false} AppliedIff(t: Tree, a: Tree, parent: Value, build: Constructor)
    ensures a == Applied(t, parent, build) <==>
            KeepsDeclared(t, a) && LinksParents(t, a, parent, build)
    decreases t
  {
    var ap := Applied(t, parent, build);
    var mo := Obj(MoOf(ap, build));
    AppliedListAt(t.children, mo, build);
    if a == ap {
      forall i | 0 <= i < |t.children|
        ensures KeepsDeclared(t.children[i], a.children[i])
        ensures LinksParents(t.children[i], a.children[i], mo, build)
      {
        AppliedIff(t.children[i], a.children[i], mo, build);
      }
    }
    if KeepsDeclared(t, a) && LinksParents(t, a, parent, build) {
      assert a.props == ap.props;
      assert MoOf(a, build) == MoOf(ap, build);
      forall i | 0 <= i < |t.children|
        ensures a.children[i] == ap.children[i]
      {
        AppliedIff(t.children[i], a.children[i], mo, build);
      }
      assert a.children == ap.children;
    }
  }

  /** A child that declares no parent reference ends up holding the very object its
      parent's `add_mo` call submitted. */
  lemma ChildHoldsSubmittedParent(t: Tree, parent: Value, build: Constructor, i: nat)
    requires i < |t.children|
    requires ParentKey !in t.children[i].props
    ensures var a := Applied(t, parent, build);
            |a.children| == |t.children| &&
            a.children[i].props == t.children[i].props[ParentKey := Obj(Trace(t, parent, build)[0].mo)]
  {
    var mo := Obj(build(t.moduleName, t.className, Inject(t.props, parent)));
    AppliedListAt(t.children, mo, build);
  }
}
