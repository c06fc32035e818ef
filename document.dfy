/** The parsed configuration document in memory. Its nesting never changes; each node's
    property dictionary is a separate mutable object, identified here by the node's id, and
    the walk rewrites those dictionaries in place. */
module Document {
  import opened Values
  import opened ConfigTree

  /** The fixed part of a parsed node: the identity of its property dictionary, its type key
      and its children in document order. */
  datatype Node = Node(id: nat, moduleName: string, className: string, children: seq<Node>)

  /** The ids of a node and of all its descendants. */
  function Ids(n: Node): set<nat>
    decreases n
  {
    {n.id} + IdsList(n.children)
  }

  function IdsList(ns: seq<Node>): set<nat>
    decreases ns
  {
    if ns == [] then {} else IdsList(ns[..|ns| - 1]) + Ids(ns[|ns| - 1])
  }

  /** No two nodes of the tree share a property dictionary, as in a freshly parsed document. */
  predicate Distinct(n: Node)
    decreases n
  {
    n.id !in IdsList(n.children) && DistinctList(n.children)
  }

  predicate DistinctList(ns: seq<Node>)
    decreases ns
  {
    ns == [] ||
      (DistinctList(ns[..|ns| - 1]) && Distinct(ns[|ns| - 1])
       && IdsList(ns[..|ns| - 1]) !! Ids(ns[|ns| - 1]))
  }

  /** The dictionary with the given id; the empty one for an id the document does not hold
      (which a valid document never asks for). */
  function DictOf(dicts: map<nat, Props>, id: nat): Props
  {
    if id in dicts then dicts[id] else map[]
  }

  /** The subtree's current contents, given the current property dictionaries. */
  function View(n: Node, dicts: map<nat, Props>): Tree
    decreases n
  {
    Tree(n.moduleName, n.className, DictOf(dicts, n.id), ViewList(n.children, dicts))
  }

  function ViewList(ns: seq<Node>, dicts: map<nat, Props>): (r: seq<Tree>)
    ensures |r| == |ns|
    decreases ns
  {
    if ns == [] then [] else ViewList(ns[..|ns| - 1], dicts) + [View(ns[|ns| - 1], dicts)]
  }

  /** Each list member's ids lie within the list's ids. */
  lemma {:induction false} IdsListAt(ns: seq<Node>)
    ensures forall i :: 0 <= i < |ns| ==> Ids(ns[i]) <= IdsList(ns)
    decreases |ns|
  {
    if ns != [] {
      IdsListAt(ns[..|ns| - 1]);
    }
  }

  lemma {:induction false} IdsListSnoc(ns: seq<Node>, i: nat)
    requires i < |ns|
    ensures IdsList(ns[..i + 1]) == IdsList(ns[..i]) + Ids(ns[i])
  {
    assert ns[..i + 1][..i] == ns[..i];
  }

  /** Members of a distinct list are distinct, and none shares a dictionary with those before it. */
  lemma {:induction false} DistinctListOne(ns: seq<Node>, i: nat)
    requires DistinctList(ns) && i < |ns|
    ensures Distinct(ns[i]) && Ids(ns[i]) !! IdsList(ns[..i])
    decreases |ns|
  {
    var init := ns[..|ns| - 1];
    if i == |ns| - 1 {
      assert ns[..i] == init;
    } else {
      DistinctListOne(init, i);
      assert init[..i] == ns[..i];
    }
  }

  lemma DistinctListAt(ns: seq<Node>)
    requires DistinctList(ns)
    ensures forall i :: 0 <= i < |ns| ==> Distinct(ns[i]) && Ids(ns[i]) !! IdsList(ns[..i])
  {
    forall i | 0 <= i < |ns|
      ensures Distinct(ns[i]) && Ids(ns[i]) !! IdsList(ns[..i])
    {
      DistinctListOne(ns, i);
    }
  }

  /** Members of a distinct list have pairwise disjoint ids. */
  lemma {:induction false} DistinctListApart(ns: seq<Node>)
    requires DistinctList(ns)
    ensures forall i, j :: 0 <= i < j < |ns| ==> Ids(ns[i]) !! Ids(ns[j])
  {
    DistinctListAt(ns);
    forall i, j | 0 <= i < j < |ns|
      ensures Ids(ns[i]) !! Ids(ns[j])
    {
      IdsListAt(ns[..j]);
      assert ns[..j][i] == ns[i];
    }
  }

  lemma {:induction false} ViewListAt(ns: seq<Node>, dicts: map<nat, Props>)
    ensures |ViewList(ns, dicts)| == |ns|
    ensures forall i :: 0 <= i < |ns| ==> ViewList(ns, dicts)[i] == View(ns[i], dicts)
    decreases |ns|
  {
    if ns != [] {
      ViewListAt(ns[..|ns| - 1], dicts);
    }
  }

  /** A subtree's contents depend only on the dictionaries of its own nodes. */
  lemma {:induction false} ViewFrame(n: Node, d1: map<nat, Props>, d2: map<nat, Props>)
    requires forall id :: id in Ids(n) ==> DictOf(d1, id) == DictOf(d2, id)
    ensures View(n, d1) == View(n, d2)
    decreases n, 1
  {
    ViewListFrame(n.children, d1, d2);
  }

  lemma {:induction false} ViewListFrame(ns: seq<Node>, d1: map<nat, Props>, d2: map<nat, Props>)
    requires forall id :: id in IdsList(ns) ==> DictOf(d1, id) == DictOf(d2, id)
    ensures ViewList(ns, d1) == ViewList(ns, d2)
    decreases ns, 0
  {
    if ns != [] {
      ViewListFrame(ns[..|ns| - 1], d1, d2);
      ViewFrame(ns[|ns| - 1], d1, d2);
    }
  }

  /** The parsed document: the top-level `objects` list and the property dictionaries of
      all its nodes. */
  class Config {
    const objects: seq<Node>
    var dicts: map<nat, Props>

    ghost predicate Valid()
      reads this
    {
      DistinctList(objects) && IdsList(objects) <= dicts.Keys
    }

    /** The current contents of the top-level objects. */
    ghost function Contents(): seq<Tree>
      requires Valid()
      reads this
    {
      ViewList(objects, dicts)
    }

    constructor (objects: seq<Node>, dicts: map<nat, Props>)
      requires DistinctList(objects) && IdsList(objects) <= dicts.Keys
      ensures Valid() && this.objects == objects && this.dicts == dicts
    {
      this.objects := objects;
      this.dicts := dicts;
    }
  }
}
