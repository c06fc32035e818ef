/** What a whole run does: the walk of each top-level object, with or without a commit
    after each, bracketed by login and logout. */
module Runs {
  import opened Values
  import opened Session
  import opened ConfigTree

  /** The calls made for the top-level objects `ts`, with a commit after each object's
      subtree exactly when `commitEach` holds. */
  function RunTrace(ts: seq<Tree>, commitEach: bool, build: Constructor): seq<Event>
  {
    if ts == [] then []
    else RunTrace(ts[..|ts| - 1], commitEach, build)
         + Trace(ts[|ts| - 1], Root, build) + (if commitEach then [Commit] else [])
  }

  /** The walk of each top-level object, on its own. */
  function Traces(ts: seq<Tree>, build: Constructor): (r: seq<seq<Event>>)
    ensures |r| == |ts|
  {
    if ts == [] then [] else Traces(ts[..|ts| - 1], build) + [Trace(ts[|ts| - 1], Root, build)]
  }

  lemma {:induction false} TracesAt(ts: seq<Tree>, build: Constructor)
    ensures forall i :: 0 <= i < |ts| ==> Traces(ts, build)[i] == Trace(ts[i], Root, build)
    decreases |ts|
  {
    if ts != [] {
      TracesAt(ts[..|ts| - 1], build);
    }
  }

  /** Index of the first commit in `log`. */
  function FirstCommit(log: seq<Event>): (k: nat)
    requires Commit in log
    ensures k < |log| && log[k] == Commit && Commit !in log[..k]
  {
    if log[0] == Commit then 0
    else
      assert log == [log[0]] + log[1..];
      var k := 1 + FirstCommit(log[1..]);
      assert log[..k] == [log[0]] + log[1..][..k - 1];
      k
  }

  /** `log` cut at its commits: the calls of each committed batch, in order, followed by
      any uncommitted tail. */
  function Segments(log: seq<Event>): seq<seq<Event>>
    decreases |log|
  {
    if Commit !in log then (if log == [] then [] else [log])
    else
      var k := FirstCommit(log);
      [log[..k]] + Segments(log[k + 1..])
  }

  lemma {:induction false} FirstCommitAppend(a: seq<Event>, c: seq<Event>)
    requires Commit in a
    ensures Commit in a + c && FirstCommit(a + c) == FirstCommit(a)
    decreases |a|
  {
    assert (a + c)[0] == a[0];
    if a[0] != Commit {
      assert (a + c)[1..] == a[1..] + c;
      FirstCommitAppend(a[1..], c);
    }
  }

  /** A log that is empty or ends in a commit splits independently of what follows. */
  lemma {:induction false} SegmentsAppend(a: seq<Event>, c: seq<Event>)
    requires a == [] || a[|a| - 1] == Commit
    ensures Segments(a + c) == Segments(a) + Segments(c)
    decreases |a|
  {
    if a == [] {
      assert a + c == c;
    } else {
      assert a[|a| - 1] in a;
      FirstCommitAppend(a, c);
      var k := FirstCommit(a);
      var rest := a[k + 1..];
      assert (a + c)[..k] == a[..k];
      assert (a + c)[k + 1..] == rest + c;
      assert rest == [] || rest[|rest| - 1] == Commit;
      SegmentsAppend(rest, c);
      assert Segments(a + c) == [a[..k]] + (Segments(rest) + Segments(c));
      AppendAssoc([a[..k]], Segments(rest), Segments(c));
    }
  }

  lemma AppendAssoc<T>(x: seq<T>, y: seq<T>, z: seq<T>)
    ensures x + (y + z) == (x + y) + z
  {
  }

  lemma SegmentsBatch(t: seq<Event>)
    requires Commit !in t
    ensures Segments(t + [Commit]) == [t]
  {
    var log := t + [Commit];
    assert log[|t|] == Commit;
    assert log[..|t|] == t;
    assert log[|t| + 1..] == [];
  }

  /** The walk of one object, counted: only `add_mo` calls, one per node. */
  lemma TraceCounts(t: Tree, build: Constructor, e: Event)
    requires !e.AddMo?
    ensures AddMoCount(Trace(t, Root, build)) == Size(t)
    ensures e !in Trace(t, Root, build)
    ensures Count(Trace(t, Root, build), e) == 0
  {
    TraceShape(t, Root, build);
    CountOnlyAddMo(Trace(t, Root, build), e);
  }

  lemma RunTraceStep(ts: seq<Tree>, commitEach: bool, build: Constructor)
    requires ts != []
    ensures RunTrace(ts, commitEach, build)
         == RunTrace(ts[..|ts| - 1], commitEach, build)
            + (Trace(ts[|ts| - 1], Root, build) + (if commitEach then [Commit] else []))
  {
  }

  /** With a commit after every top-level object, the batches between commits are exactly
      the walks of the top-level objects, one batch per object, in document order. */
  lemma {:induction false} CommittedBatches(ts: seq<Tree>, build: Constructor)
    ensures Segments(RunTrace(ts, true, build)) == Traces(ts, build)
    decreases |ts|
  {
    if ts != [] {
      var init, last := ts[..|ts| - 1], ts[|ts| - 1];
      var prev := RunTrace(init, true, build);
      var t := Trace(last, Root, build);
      RunTraceStep(ts, true, build);
      CommittedBatches(init, build);
      RunTraceEnd(init, build);
      SegmentsAppend(prev, t + [Commit]);
      TraceCounts(last, build, Commit);
      SegmentsBatch(t);
    }
  }

  lemma RunTraceEnd(ts: seq<Tree>, build: Constructor)
    ensures var log := RunTrace(ts, true, build);
            log == [] || log[|log| - 1] == Commit
  {
  }

  lemma {:induction false} RunEventCount(ts: seq<Tree>, commitEach: bool, build: Constructor, e: Event)
    requires !e.AddMo?
    ensures Count(RunTrace(ts, commitEach, build), e) == if commitEach && e == Commit then |ts| else 0
    decreases |ts|
  {
    if ts != [] {
      var init, last := ts[..|ts| - 1], ts[|ts| - 1];
      var t := Trace(last, Root, build);
      var tail: seq<Event> := if commitEach then [Commit] else [];
      RunTraceStep(ts, commitEach, build);
      RunEventCount(init, commitEach, build, e);
      TraceCounts(last, build, e);
      assert Count(tail, e) == (if commitEach && e == Commit then 1 else 0) by {
        if tail != [] { assert tail[..0] == []; }
      }
      CountAppend(t, tail, e);
      CountAppend(RunTrace(init, commitEach, build), t + tail, e);
    }
  }

  lemma {:induction false} RunAddMoCount(ts: seq<Tree>, commitEach: bool, build: Constructor)
    ensures AddMoCount(RunTrace(ts, commitEach, build)) == SizeList(ts)
    decreases |ts|
  {
    if ts != [] {
      var init, last := ts[..|ts| - 1], ts[|ts| - 1];
      var t := Trace(last, Root, build);
      var tail: seq<Event> := if commitEach then [Commit] else [];
      RunTraceStep(ts, commitEach, build);
      RunAddMoCount(init, commitEach, build);
      TraceCounts(last, build, Commit);
      assert AddMoCount(tail) == 0 by {
        if tail != [] { assert tail[..0] == []; }
      }
      CountAppend(t, tail, Commit);
      CountAppend(RunTrace(init, commitEach, build), t + tail, Commit);
    }
  }

  /** One `add_mo` per node of every top-level object; one commit per top-level object when
      commits are on and none when they are off; never a login, query or logout. */
  lemma RunCounts(ts: seq<Tree>, commitEach: bool, build: Constructor)
    ensures AddMoCount(RunTrace(ts, commitEach, build)) == SizeList(ts)
    ensures Count(RunTrace(ts, commitEach, build), Commit) == if commitEach then |ts| else 0
    ensures Count(RunTrace(ts, commitEach, build), Login) == 0
    ensures Count(RunTrace(ts, commitEach, build), Logout) == 0
  {
    RunAddMoCount(ts, commitEach, build);
    RunEventCount(ts, commitEach, build, Commit);
    RunEventCount(ts, commitEach, build, Login);
    RunEventCount(ts, commitEach, build, Logout);
  }

  /** The full session log of a run: login first, logout last, each exactly once. */
  lemma Bracketed(ts: seq<Tree>, commitEach: bool, build: Constructor)
    ensures var log := [Login] + RunTrace(ts, commitEach, build) + [Logout];
            && log[0] == Login && log[|log| - 1] == Logout
            && Count(log, Login) == 1 && Count(log, Logout) == 1
            && Count(log, Commit) == (if commitEach then |ts| else 0)
            && AddMoCount(log) == SizeList(ts)
  {
    var body := RunTrace(ts, commitEach, build);
    RunCounts(ts, commitEach, build);
    assert [Login][..0] == [];
    assert [Logout][..0] == [];
    CountAppend([Login], body, Login);
    CountAppend([Login] + body, [Logout], Login);
    CountAppend([Login], body, Logout);
    CountAppend([Login] + body, [Logout], Logout);
    CountAppend([Login], body, Commit);
    CountAppend([Login] + body, [Logout], Commit);
  }
}
