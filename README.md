# UCS configuration apply engine, in Dafny

The scripts of this repository configure a UCS management endpoint from a declarative
document. Three variants of the apply engine are modelled here, each as a procedure that
makes an ordered sequence of calls on a session handle:

- `ucs_config.py` walks a tree of managed-object nodes depth first. For each node it
  injects `parent_mo_or_dn` into the node's property dictionary in place, unless the node
  already declares one. It then constructs the object, submits it with
  `add_mo(mo, modify_present=True)`, and walks the children with that object as their
  parent. The driver logs in, walks every top-level object, commits after each one when
  the connection's `commit-buffer` is truthy, and logs out. A suffix test on the file name
  picks the parser.
- `python/ucsm/dfs.py` has the same walk. Its driver commits after every top-level object
  unconditionally.
- `python/ucsm/ucs-config.py` is a flat dispatcher.
  - A `create` entry adds one object per definition.
  - An `update` entry queries an object by DN, overwrites the listed attributes, and adds it
    back.
  - Every entry is followed by one commit, and a single logout ends the loop.
  - Two helpers are modelled: the SSL flag, and `e_exit`'s guarded logout.

Modules:

- `Values`: parsed values, property maps, managed objects and Python truthiness.
- `Session`: the handle. It is a class whose `log` records every `login`, `add_mo`,
  `commit`, `query_dn` and `logout` call in order.
- `ConfigTree`: the configuration tree as a value. It defines what applying it means: the
  injected tree (`Applied`) and the calls the walk makes (`Trace`).
- `Document`: the parsed document as the scripts mutate it. Every node's property
  dictionary is an object identified by the node's `id`. The `Config` class holds all of
  them in a map that the walk updates in place.
- `Runs`: what a whole run does, with or without a commit after each top-level object.
- `UcsConfig`, `Dfs`, `UcsmConfig`: the three scripts.

Object construction (`import_module`, `getattr`, `mo_class(**props)`) is an uninterpreted
function, `build`, passed to every operation.

## Model

| member | source | states |
|---|---|---|
| `UcsConfig.Traverse` | ucs_config.py:28-50 | The node's dictionary gains `parent_mo_or_dn = mo` only when it lacks the key; no dictionary outside the subtree changes; the subtree ends as `Applied` of its old view; the log grows by exactly the pre-order `Trace` of the old subtree |
| `UcsConfig.TraverseChildren` | ucs_config.py:48-50 | The children are walked in list order, each with the parent's object, and end as `AppliedList` of their old views; the log grows by their traces in order |
| `UcsConfig.WalkStep` | ucs_config.py:40-50 | One node's step: injecting into its own dictionary leaves its children's views unchanged, and the injection, the submission and the walk of the children together give `Applied` and `Trace` of the node |
| `UcsConfig.Run` | ucs_config.py:77-84 | The log is `Login`, then every top-level object's calls with a commit after each exactly when `commit-buffer` is truthy, then `Logout`; the document ends with every top-level object applied with the `''` parent |
| `UcsConfig.WalkObjects` | ucs_config.py:79-82 | The loop over `objects` applies every top-level object in order and appends `RunTrace` of the old objects to the log |
| `UcsConfig.WalkObject` | ucs_config.py:80-82 | One iteration: the object's walk with the `''` parent, then one `Commit` exactly when commits are on |
| `UcsConfig.ParserFor` | ucs_config.py:59-67 | JSON exactly for a `.json` name, YAML exactly for a `.yml` name, and no parser for a `.yaml` name or any other name |
| `UcsConfig.SuffixesDiffer` | ucs_config.py:59-63 | No file name ends in two of the suffixes, so the order of the tests does not matter |
| `ConfigTree.Inject` | ucs_config.py:40-41 | The keys become the old keys plus `parent_mo_or_dn`; every existing entry, a declared parent included, keeps its value; an absent parent becomes the one passed in |
| `ConfigTree.AppliedIff` | ucs_config.py:40-50 | A tree is the applied tree if and only if it keeps every declared property and the tree's shape, and links each node without a declared parent to the object built for its parent (`''` at the top) |
| `ConfigTree.ChildHoldsSubmittedParent` | ucs_config.py:43-50 | A child without a declared parent ends up holding exactly the object its parent submitted |
| `ConfigTree.TraceShape` | ucs_config.py:46-50 | The walk makes exactly one call per node of the subtree; each is `add_mo` with `modify_present` set, and the first submits the node itself |
| `ConfigTree.TraceIsPreOrder` | ucs_config.py:46-50 | The calls are the applied tree's nodes in pre-order, children in list order, each submitted as built from its final properties |
| `ConfigTree.LeafTrace` | ucs_config.py:48 | A node without children makes exactly one call |
| `ConfigTree.AppliedListAt` | ucs_config.py:49-50 | Each child is applied with the same parent object, position by position |
| `Runs.RunCounts` | ucs_config.py:79-82 | One `add_mo` per node of every top-level object; as many commits as top-level objects when commits are on, none when off; no login or logout inside the loop |
| `Runs.Bracketed` | ucs_config.py:77-84 | The whole log starts with `Login` and ends with `Logout`, each exactly once, and has the commit and `add_mo` counts above |
| `Runs.CommittedBatches` | python/ucsm/dfs.py:65-67 | With a commit after every object, cutting the loop's calls at the commits gives exactly the walks of the top-level objects, one per object, in document order |
| `Runs.FirstCommit` | python/ucsm/dfs.py:65-67 | The index returned holds a commit and no earlier call does |
| `Dfs.Run` | python/ucsm/dfs.py:25-69 | The log is `Login`, every top-level object's calls each followed by a `Commit`, then `Logout`; the document ends with every top-level object applied. `dfs.py`'s `traverse` (lines 25-43) is `ucs_config.py`'s apart from where it logs, so it is `UcsConfig.Traverse` |
| `Dfs.RunLog` | python/ucsm/dfs.py:63-69 | For N top-level objects there are exactly N commits, and one login and one logout, first and last; the i-th batch of calls between commits is exactly the walk of the i-th top-level object |
| `UcsmConfig.SslFlag` | python/ucsm/ucs-config.py:60-63 | False without a `secure` key; otherwise the truthiness of its value (a boolean's value, a non-empty string, a non-zero number, never null) |
| `UcsmConfig.EExit` | python/ucsm/ucs-config.py:28-44 | Logs out exactly when there is a handle and it holds a cookie, leaving the log alone otherwise; the status is always 1 |
| `UcsmConfig.Overwritten` | python/ucsm/ucs-config.py:114-115 | Every listed attribute takes the given value; every unlisted attribute and the object's class keep theirs |
| `UcsmConfig.SetAttrs` | python/ucsm/ucs-config.py:114-115 | The `setattr` loop, taken in any key order, yields `Overwritten` |
| `UcsmConfig.CreationsAt` | python/ucsm/ucs-config.py:101-103 | A create entry's k-th call adds the object built from its k-th definition; the entry makes only `add_mo` calls, one per definition |
| `UcsmConfig.CreateAll` | python/ucsm/ucs-config.py:101-103 | The loop appends exactly `Creations` to the log |
| `UcsmConfig.CreateEntry` | python/ucsm/ucs-config.py:93-103 | A create entry makes one `add_mo` per definition, in list order, then one more call (the commit) |
| `UcsmConfig.UpdateEntry` | python/ucsm/ucs-config.py:109-117 | An update entry queries its DN exactly once, as its first call; when the endpoint answers with an object, it then adds that object, with its listed attributes overwritten, exactly once |
| `UcsmConfig.EntryQueries` | python/ucsm/ucs-config.py:93-123 | The only `query_dn` an entry makes is the first call of an update entry, for its own DN |
| `UcsmConfig.EntryShape` | python/ucsm/ucs-config.py:91-123 | An entry ends the script exactly when it is an update whose `query_dn`, made after every earlier call, finds nothing; otherwise its last call is its only commit, whatever its mode; an unrecognised mode only commits; no entry logs in or out |
| `UcsmConfig.ApplyEntry` | python/ucsm/ucs-config.py:93-123 | One loop iteration appends exactly the entry's calls and reports whether the script goes on |
| `UcsmConfig.ProcessedCrash` | python/ucsm/ucs-config.py:109-115 | Processing stops if and only if its last call is a `query_dn` that found nothing, where each query is answered by the endpoint as the earlier calls, commits included, left it; every query before that one found an object |
| `UcsmConfig.UpdateAfterCreate` | python/ucsm/ucs-config.py:91-123 | An update following a create queries the endpoint after the create's commit; when that commit made the DN available, the update adds the fetched object and the loop goes on |
| `UcsmConfig.ProcessedCounts` | python/ucsm/ucs-config.py:91-123 | When processing runs to the end, there is exactly one commit per entry and no login or logout |
| `UcsmConfig.DispatchShape` | python/ucsm/ucs-config.py:90-125 | When every `query_dn` of the loop found an object, the calls end with the only logout and hold one commit per entry; otherwise there is no logout |
| `UcsmConfig.Dispatch` | python/ucsm/ucs-config.py:90-125 | The loop and the final logout append exactly `DispatchLog`; each query is answered from the log as it stands at that point; `completed` holds exactly when no entry stopped the script; the cookie is cleared exactly when the loop completes |
| `UcsmConfig.ProcessedStop` | python/ucsm/ucs-config.py:109-115 | An entry that stops the script stops the whole loop there |

## Left out

- Dynamic type resolution and construction (`import_module`, `getattr`, `mo_class(**props)`) is the uninterpreted `build` parameter. Property validation and import failures belong to the SDK catalog, which is not part of this model.
- The management session is only its call log. The network behaviour of `UcsHandle` and the connection handle class, `login` failures, `URLError` and `UcsException` are out of scope. The login attempt of `ucs-config.py` (lines 74-88) is outside the dispatch loop.
- What the endpoint holds is not modelled as a store: `Session.Handle.QueryDn` answers with `lookup` applied to the calls made so far, so an answer may reflect any earlier `add_mo` and `commit`. Which object a commit makes available under which DN is decided by the endpoint and the SDK, which are not part of this model.
- File reading and JSON/YAML parsing are out of scope. So are the hard-coded Windows paths and the `sys.path[0]` resolution. A document is given already parsed.
- Logging, `logging.debug` of messages and `sys.exit` are left out. `UcsmConfig.EExit` returns the exit status instead of exiting.
- `dfs.py` calls `e_exit` (line 55) without defining it, so an unreadable file ends it with a `NameError`. That path is not modelled.
- `ucs_config.py` only logs an unsupported suffix, then fails on the unbound `config` (lines 63-72). `UcsConfig.ParserFor` returns `Unsupported`, and what follows is not modelled. Only `.json` and `.yml` are tested, so a `.yaml` name is unsupported.
- A missing dictionary key raises `KeyError` in the scripts. Examples are `commit-buffer`, `mode`, `properties`, `objects` and `dn`. Every entity here has all its fields, so that path is not modelled.
- A node without a `children` key and a node with an empty `children` list are one case in the model. The scripts treat them alike.
- `UcsConfig.Traverse`: the node dictionaries are assumed to be distinct objects. A YAML alias that shares one dictionary between two nodes is not modelled.
- `UcsmConfig.SetAttrs`: the fetched object is updated as a value and then submitted. The scripts set attributes on the SDK object in place, so other references to it would be affected; the model does not capture that.
- `UcsmConfig.Dispatch`: an update whose `query_dn` finds nothing is modelled as ending the script right after the `query_dn` call. With listed properties, the script fails at the first `setattr` on `None`. With no listed properties, it fails inside the SDK's `add_mo`, whose own calls on the handle are not modelled.
- Floating-point values in documents are not modelled; values are strings, booleans, integers, null, lists, maps and objects.
