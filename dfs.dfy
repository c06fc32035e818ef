/** python/ucsm/dfs.py: the same depth-first walk as ucs_config.py, driven by a loop that
    commits after every top-level object. */
module Dfs {
  import opened Values
  import opened Session
  import opened ConfigTree
  import opened Runs
  import opened Document
  import UcsConfig

  /** The script's main block after reading the settings: log in, walk each top-level object
      with the empty-string parent and commit after it, then log out. */
  method Run(handle: Handle, doc: Config, build: Constructor)
    requires doc.Valid()
    modifies handle, doc
    ensures handle.cookie == ""
    ensures doc.Valid()
    ensures doc.Contents() == AppliedList(old(doc.Contents()), Root, build)
    ensures handle.log == old(handle.log) + [Login] + RunTrace(old(doc.Contents()), true, build) + [Logout]
  {
    handle.Login();
    UcsConfig.WalkObjects(handle, doc, doc.objects, true, build);
    handle.Logout();
  }

  /** What the log of a run says: login first and logout last, each once; one commit per
      top-level object, and the calls between consecutive commits are exactly the walk of
      one top-level object, in document order. */
  lemma RunLog(ts: seq<Tree>, build: Constructor)
    ensures var log := [Login] + RunTrace(ts, true, build) + [Logout];
            && log[0] == Login && log[|log| - 1] == Logout
            && Count(log, Login) == 1 && Count(log, Logout) == 1
            && Count(log, Commit) == |ts|
            && AddMoCount(log) == SizeList(ts)
    ensures |Segments(RunTrace(ts, true, build))| == |ts|
    ensures forall i :: 0 <= i < |ts| ==> Segments(RunTrace(ts, true, build))[i] == Trace(ts[i], Root, build)
  {
    Bracketed(ts, true, build);
    CommittedBatches(ts, build);
    TracesAt(ts, build);
  }
}
