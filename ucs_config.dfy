/** ucs_config.py: apply a JSON/YAML configuration tree to a management endpoint. */
module UcsConfig {
  import opened Values
  import opened Session
  import opened ConfigTree
  import opened Runs
  import opened Document

  /** The walk `traverse(managed_object, mo)`: inject `mo` as the node's parent unless its
      dictionary declares one, construct and submit the node, then walk its children. Only
      the dictionaries of this subtree change. */
  method Traverse(handle: Handle, doc: Config, node: Node, mo: Value, build: Constructor)
    requires Distinct(node) && Ids(node) <= doc.dicts.Keys
    modifies handle, doc
    ensures handle.cookie == old(handle.cookie)
    ensures doc.dicts.Keys == old(doc.dicts.Keys)
    ensures forall id :: id in doc.dicts && id !in Ids(node) ==> doc.dicts[id] == old(doc.dicts[id])
    ensures View(node, doc.dicts) == Applied(View(node, old(doc.dicts)), mo, build)
    ensures handle.log == old(handle.log) + Trace(View(node, old(doc.dicts)), mo, build)
    decreases node
  {
    ghost var d0 := doc.dicts;
    var props := doc.dicts[node.id];
    if ParentKey !in props {
      doc.dicts := doc.dicts[node.id := props[ParentKey := mo]];
    }
    var obj := build(node.moduleName, node.className, doc.dicts[node.id]);
    handle.AddMo(obj, true);
    ghost var d1 := doc.dicts;
    TraverseChildren(handle, doc, node.children, Obj(obj), build);
    WalkStep(node, d0, d1, doc.dicts, mo, build, old(handle.log));
  }

  /** The loop over `children`: walk each child in list order, with `mo` as its parent. */
  method TraverseChildren(handle: Handle, doc: Config, children: seq<Node>, mo: Value, build: Constructor)
    requires DistinctList(children) && IdsList(children) <= doc.dicts.Keys
    modifies handle, doc
    ensures handle.cookie == old(handle.cookie)
    ensures doc.dicts.Keys == old(doc.dicts.Keys)
    ensures forall id :: id in doc.dicts && id !in IdsList(children) ==> doc.dicts[id] == old(doc.dicts[id])
    ensures ViewList(children, doc.dicts) == AppliedList(ViewList(children, old(doc.dicts)), mo, build)
    ensures handle.log == old(handle.log) + TraceList(ViewList(children, old(doc.dicts)), mo, build)
    decreases children
  {
    ghost var d0 := doc.dicts;
    ghost var ts := ViewList(children, d0);
    WalkedStart(children, d0, mo, build);
    assert ts[..0] == [];
    var i := 0;
    while i < |children|
      invariant Walked(children, i, d0, doc.dicts, mo, build)
      invariant handle.cookie == old(handle.cookie)
      invariant Untouched(children, i, d0, doc.dicts)
      invariant handle.log == old(handle.log) + TraceList(ts[..i], mo, build)
    {
      ghost var before := doc.dicts;
      WalkedNext(children, i, d0, before, mo, build);
      Traverse(handle, doc, children[i], mo, build);
      WalkedStep(children, i, d0, before, doc.dicts, mo, build);
      UntouchedStep(children, i, d0, before, doc.dicts);
      TraceListSnocAfter(old(handle.log), ts, i, mo, build);
      i := i + 1;
    }
    assert ts[..i] == ts;
    assert children[..i] == children;
    WalkedDone(children, d0, doc.dicts, mo, build);
  }

  /** The script's main block: log in, walk the top-level objects, log out. */
  method Run(handle: Handle, doc: Config, commitBuffer: Value, build: Constructor)
    requires doc.Valid()
    modifies handle, doc
    ensures handle.cookie == ""
    ensures doc.Valid()
    ensures doc.Contents() == AppliedList(old(doc.Contents()), Root, build)
    ensures handle.log == old(handle.log) + [Login]
                          + RunTrace(old(doc.Contents()), Truthy(commitBuffer), build) + [Logout]
  {
    handle.Login();
    WalkObjects(handle, doc, doc.objects, Truthy(commitBuffer), build);
    handle.Logout();
  }

  /** The loop over `config['objects']`: walk each top-level object with the empty-string
      parent and, when `commitEach` (the truthiness of `commit-buffer`) holds, commit after it. */
  method WalkObjects(handle: Handle, doc: Config, objects: seq<Node>, commitEach: bool, build: Constructor)
    requires DistinctList(objects) && IdsList(objects) <= doc.dicts.Keys
    modifies handle, doc
    ensures handle.cookie == old(handle.cookie)
    ensures doc.dicts.Keys == old(doc.dicts.Keys)
    ensures ViewList(objects, doc.dicts) == AppliedList(ViewList(objects, old(doc.dicts)), Root, build)
    ensures handle.log == old(handle.log) + RunTrace(ViewList(objects, old(doc.dicts)), commitEach, build)
  {
    ghost var d0 := doc.dicts;
    ghost var ts := ViewList(objects, d0);
    WalkedStart(objects, d0, Root, build);
    assert ts[..0] == [];
    var i := 0;
    while i < |objects|
      invariant Walked(objects, i, d0, doc.dicts, Root, build)
      invariant handle.cookie == old(handle.cookie)
      invariant handle.log == old(handle.log) + RunTrace(ts[..i], commitEach, build)
    {
      ghost var before := doc.dicts;
      ghost var logBefore := handle.log;
      WalkedNext(objects, i, d0, before, Root, build);
      WalkObject(handle, doc, objects[i], commitEach, build);
      WalkedStep(objects, i, d0, before, doc.dicts, Root, build);
      RunLogStep(old(handle.log), logBefore, handle.log, ts, i, commitEach, build);
      i := i + 1;
    }
    assert ts[..i] == ts;
    WalkedDone(objects, d0, doc.dicts, Root, build);
  }

  /** The body of the loop over `config['objects']`: walk one top-level object with the
      empty-string parent, then commit if `commitEach`. */
  method WalkObject(handle: Handle, doc: Config, node: Node, commitEach: bool, build: Constructor)
    requires Distinct(node) && Ids(node) <= doc.dicts.Keys
    modifies handle, doc
    ensures handle.cookie == old(handle.cookie)
    ensures doc.dicts.Keys == old(doc.dicts.Keys)
    ensures forall id :: id in doc.dicts && id !in Ids(node) ==> doc.dicts[id] == old(doc.dicts[id])
    ensures View(node, doc.dicts) == Applied(View(node, old(doc.dicts)), Root, build)
    ensures handle.log == old(handle.log) + Trace(View(node, old(doc.dicts)), Root, build)
                          + (if commitEach then [Commit] else [])
  {
    Traverse(handle, doc, node, Root, build);
    if commitEach {
      label Walked:
      handle.Commit();
      assert unchanged@Walked(doc);
    }
  }

  /** One node's step of the walk, stated on dictionary states: `d1` is `d0` with the
      parent injected into the node's dictionary, and `d2` is `d1` after its children were
      walked. Then the subtree was applied, and the log grew by the subtree's trace. */
  lemma {:induction false} WalkStep(node: Node, d0: map<nat, Props>, d1: map<nat, Props>, d2: map<nat, Props>,
                                    mo: Value, build: Constructor, prefix: seq<Event>)
    requires Distinct(node) && Ids(node) <= d0.Keys && d2.Keys == d0.Keys
    requires d1 == d0[node.id := Inject(d0[node.id], mo)]
    requires forall id :: id in d1 && id !in IdsList(node.children) ==> d2[id] == d1[id]
    requires ViewList(node.children, d2)
             == AppliedList(ViewList(node.children, d1), Obj(build(node.moduleName, node.className, d1[node.id])), build)
    ensures forall id :: id in d2 && id !in Ids(node) ==> d2[id] == d0[id]
    ensures ViewList(node.children, d1) == ViewList(node.children, d0)
    ensures View(node, d2) == Applied(View(node, d0), mo, build)
    ensures prefix + Trace(View(node, d0), mo, build)
            == prefix + [AddMo(build(node.moduleName, node.className, d1[node.id]), true)]
               + TraceList(ViewList(node.children, d0), Obj(build(node.moduleName, node.className, d1[node.id])), build)
  {
    ViewListFrame(node.children, d0, d1);
  }

  /** Progress of a walk over `ns` after `i` of them: the first `i` subtrees are applied
      and the rest are as they were in `d0`. */
  ghost predicate Walked(ns: seq<Node>, i: nat, d0: map<nat, Props>, d: map<nat, Props>, mo: Value, build: Constructor)
  {
    i <= |ns| && d.Keys == d0.Keys
    && ViewList(ns, d) == AppliedList(ViewList(ns, d0)[..i], mo, build) + ViewList(ns, d0)[i..]
  }

  /** No dictionary outside the first `i` subtrees of `ns` changed. */
  ghost predicate Untouched(ns: seq<Node>, i: nat, d0: map<nat, Props>, d: map<nat, Props>)
  {
    i <= |ns| && forall id :: id in d0 && id !in IdsList(ns[..i]) ==> id in d && d[id] == d0[id]
  }

  lemma WalkedStart(ns: seq<Node>, d0: map<nat, Props>, mo: Value, build: Constructor)
    ensures Walked(ns, 0, d0, d0, mo, build) && Untouched(ns, 0, d0, d0)
  {
    assert ns[..0] == [];
    assert ViewList(ns, d0)[..0] == [];
  }

  /** The next node to walk is distinct, inside the dictionaries, and still as it was. */
  lemma WalkedNext(ns: seq<Node>, i: nat, d0: map<nat, Props>, d: map<nat, Props>, mo: Value, build: Constructor)
    requires DistinctList(ns) && IdsList(ns) <= d0.Keys
    requires Walked(ns, i, d0, d, mo, build) && i < |ns|
    ensures Distinct(ns[i]) && Ids(ns[i]) <= d.Keys
    ensures View(ns[i], d) == ViewList(ns, d0)[i]
  {
    DistinctListAt(ns);
    IdsListAt(ns);
    ViewListAt(ns, d);
    AppliedListAt(ViewList(ns, d0)[..i], mo, build);
  }

  /** Walking node `i` (which changes only its own dictionaries) advances the walk by one. */
  lemma {:induction false} WalkedStep(ns: seq<Node>, i: nat, d0: map<nat, Props>, d: map<nat, Props>,
                                      d': map<nat, Props>, mo: Value, build: Constructor)
    requires DistinctList(ns)
    requires Walked(ns, i, d0, d, mo, build) && i < |ns|
    requires d'.Keys == d.Keys
    requires forall id :: id in d' && id !in Ids(ns[i]) ==> d'[id] == d[id]
    requires View(ns[i], d') == Applied(View(ns[i], d), mo, build)
    ensures Walked(ns, i + 1, d0, d', mo, build)
  {
    var ts := ViewList(ns, d0);
    var prev := AppliedList(ts[..i], mo, build);
    assert ts[..i + 1][..i] == ts[..i];
    var next := AppliedList(ts[..i + 1], mo, build);
    assert next == prev + [Applied(ts[i], mo, build)];
    DistinctListApart(ns);
    ViewListAt(ns, d);
    ViewListAt(ns, d');
    forall k | 0 <= k < |ns|
      ensures ViewList(ns, d')[k] == (next + ts[i + 1..])[k]
    {
      if k != i {
        assert Ids(ns[k]) !! Ids(ns[i]) by {
          if k < i {
            assert Ids(ns[k]) !! Ids(ns[i]);
          } else {
            assert Ids(ns[i]) !! Ids(ns[k]);
          }
        }
        ViewFrame(ns[k], d, d');
      }
    }
  }

  /** Walking node `i` leaves every dictionary outside the first `i + 1` subtrees alone. */
  lemma {:induction false} UntouchedStep(ns: seq<Node>, i: nat, d0: map<nat, Props>, d: map<nat, Props>, d': map<nat, Props>)
    requires Untouched(ns, i, d0, d) && i < |ns|
    requires d'.Keys == d.Keys
    requires forall id :: id in d' && id !in Ids(ns[i]) ==> d'[id] == d[id]
    ensures Untouched(ns, i + 1, d0, d')
  {
    IdsListSnoc(ns, i);
  }

  /** A finished walk applied the whole list. */
  lemma {:induction false} WalkedDone(ns: seq<Node>, d0: map<nat, Props>, d: map<nat, Props>, mo: Value, build: Constructor)
    requires Walked(ns, |ns|, d0, d, mo, build)
    ensures ViewList(ns, d) == AppliedList(ViewList(ns, d0), mo, build)
  {
    assert ViewList(ns, d0)[..|ns|] == ViewList(ns, d0);
  }

  lemma TraceListSnocAfter(prefix: seq<Event>, ts: seq<Tree>, i: nat, mo: Value, build: Constructor)
    requires i < |ts|
    ensures prefix + TraceList(ts[..i], mo, build) + Trace(ts[i], mo, build)
            == prefix + TraceList(ts[..i + 1], mo, build)
  {
    TraceListSnoc(ts, i, mo, build);
  }

  /** One step of the top-level loop extends the log by the next object's trace and, when
      committing, a commit. */
  lemma RunLogStep(start: seq<Event>, before: seq<Event>, after: seq<Event>,
                   ts: seq<Tree>, i: nat, commitEach: bool, build: Constructor)
    requires i < |ts|
    requires before == start + RunTrace(ts[..i], commitEach, build)
    requires after == before + Trace(ts[i], Root, build) + (if commitEach then [Commit] else [])
    ensures after == start + RunTrace(ts[..i + 1], commitEach, build)
  {
    assert ts[..i + 1][..i] == ts[..i];
  }

  /** The parser a configuration file name selects. */
  datatype Parser = Json | Yaml | Unsupported

  predicate EndsWith(s: string, suffix: string)
  {
    |suffix| <= |s| && s[|s| - |suffix|..] == suffix
  }

  /** No name ends in two of `.json`, `.yml` and `.yaml`. */
  lemma SuffixesDiffer(s: string)
    ensures !(EndsWith(s, ".json") && EndsWith(s, ".yml"))
    ensures !(EndsWith(s, ".json") && EndsWith(s, ".yaml"))
    ensures !(EndsWith(s, ".yml") && EndsWith(s, ".yaml"))
  {
    if EndsWith(s, ".json") {
      assert s[|s| - 1] == ".json"[4];
    }
    if EndsWith(s, ".yml") {
      assert s[|s| - 1] == ".yml"[3] && s[|s| - 4] == ".yml"[0];
    }
    if EndsWith(s, ".yaml") {
      assert s[|s| - 4] == ".yaml"[1];
    }
  }

  /** `.json` selects JSON and `.yml` selects YAML; every other name, `.yaml` included,
      selects nothing (the script only logs it). */
  function ParserFor(filename: string): (r: Parser)
    ensures r == Json <==> EndsWith(filename, ".json")
    ensures r == Yaml <==> EndsWith(filename, ".yml")
    ensures EndsWith(filename, ".yaml") ==> r == Unsupported
  {
    SuffixesDiffer(filename);
    if EndsWith(filename, ".json") then Json
    else if EndsWith(filename, ".yml") then Yaml
    else Unsupported
  }
}
