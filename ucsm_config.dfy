/** The flat create/update applier of `python/ucsm/ucs-config.py`: a list of entries, each
    either creating a batch of objects of one class or overwriting attributes of one object
    fetched by its DN, with one commit per entry and one logout at the end. */
module UcsmConfig {
  import opened Values
  import opened Session

  /** The `secure` setting of the connection section: present and truthy. */
  function SslFlag(connection: Props): (r: bool)
    ensures "secure" !in connection ==> !r
    ensures "secure" in connection && connection["secure"].Bool? ==> r == connection["secure"].b
    ensures "secure" in connection && connection["secure"].Str? ==> (r <==> connection["secure"].s != "")
    ensures "secure" in connection && connection["secure"].Int? ==> (r <==> connection["secure"].i != 0)
    ensures "secure" in connection && connection["secure"].Null? ==> !r
  {
    "secure" in connection && Truthy(connection["secure"])
  }

  /** Exit on a script error: log out first when there is a handle holding a session cookie,
      then exit with status 1. */
  method EExit(handle: Handle?) returns (status: int)
    modifies handle
    ensures status == 1
    ensures handle != null && old(handle.cookie) != "" ==>
      handle.log == old(handle.log) + [Logout] && handle.cookie == ""
    ensures handle != null && old(handle.cookie) == "" ==>
      handle.log == old(handle.log) && handle.cookie == ""
  {
    if handle != null && handle.cookie != "" {
      handle.Logout();
    }
    status := 1;
  }

  /** The `object` of an update entry: the DN to fetch and the attributes to overwrite. */
  datatype ObjectDef = ObjectDef(dn: string, properties: Props)

  /** One entry of `ucs_objects`. A `create` entry uses `moduleName`, `className` and the
      property maps of its `objects`; an `update` entry uses `target`. */
  datatype Entry = Entry(mode: string, moduleName: string, className: string,
                         objects: seq<Props>, target: ObjectDef)

  /** The `add_mo` calls of a create entry, one per object definition, in list order. */
  function Creations(moduleName: string, className: string, defs: seq<Props>, build: Constructor): (r: seq<Event>)
    ensures |r| == |defs|
  {
    if defs == [] then []
    else Creations(moduleName, className, defs[..|defs| - 1], build)
         + [AddMo(build(moduleName, className, defs[|defs| - 1]), true)]
  }

  lemma {:induction false} CreationsAt(moduleName: string, className: string, defs: seq<Props>, build: Constructor)
    ensures forall k :: 0 <= k < |defs| ==>
      Creations(moduleName, className, defs, build)[k] == AddMo(build(moduleName, className, defs[k]), true)
    ensures AddMoCount(Creations(moduleName, className, defs, build)) == |defs|
    ensures forall e: Event :: !e.AddMo? ==> Count(Creations(moduleName, className, defs, build), e) == 0
    decreases |defs|
  {
    var r := Creations(moduleName, className, defs, build);
    if defs != [] {
      var defs' := defs[..|defs| - 1];
      CreationsAt(moduleName, className, defs', build);
      assert forall k :: 0 <= k < |defs'| ==> defs'[k] == defs[k];
    }
    assert forall k :: 0 <= k < |r| ==> r[k].AddMo?;
    forall e: Event | !e.AddMo?
      ensures Count(r, e) == 0
    {
      CountOnlyAddMo(r, e);
    }
  }

  /** The fetched object after `setattr` of every listed property: listed attributes take the
      given values, every other attribute is kept. */
  function Overwritten(mo: Mo, props: Props): (r: Mo)
    ensures r.moduleName == mo.moduleName && r.className == mo.className
    ensures r.attrs.Keys == mo.attrs.Keys + props.Keys
    ensures forall k :: k in props ==> r.attrs[k] == props[k]
    ensures forall k :: k in mo.attrs && k !in props ==> r.attrs[k] == mo.attrs[k]
  {
    mo.(attrs := mo.attrs + props)
  }

  /** The `setattr` loop over the listed properties, one attribute at a time in any order. */
  method SetAttrs(mo: Mo, props: Props) returns (r: Mo)
    ensures r == Overwritten(mo, props)
  {
    r := mo;
    var pending := props.Keys;
    while pending != {}
      invariant pending <= props.Keys
      invariant r == mo.(attrs := mo.attrs + (props - pending))
      decreases pending
    {
      var k :| k in pending;
      r := r.(attrs := r.attrs[k := props[k]]);
      pending := pending - {k};
    }
    assert props - pending == props;
  }


  /** What one entry does to the session: its calls, and whether it ends the script. */
  datatype Outcome = Outcome(calls: seq<Event>, crashed: bool)

  /** An update entry whose `query_dn`, made after the calls `history`, finds nothing: the
      attribute assignment on None raises, which ends the script. */
  predicate Dangling(e: Entry, lookup: Lookup, history: seq<Event>)
  {
    e.mode == "update" && lookup(history, e.target.dn).None?
  }

  /** The calls one entry makes after the calls `history`. */
  function EntryOutcome(e: Entry, lookup: Lookup, history: seq<Event>, build: Constructor): Outcome
  {
    if e.mode == "create" then
      Outcome(Creations(e.moduleName, e.className, e.objects, build) + [Commit], false)
    else if e.mode == "update" then
      match lookup(history, e.target.dn)
      case Some(mo) =>
        Outcome([QueryDn(e.target.dn), AddMo(Overwritten(mo, e.target.properties), true), Commit], false)
      case None =>
        Outcome([QueryDn(e.target.dn)], true)
    else
      Outcome([Commit], false)
  }

  /** Each entry ends the script exactly when it is dangling; otherwise it commits exactly
      once, as its last call. No entry logs in or out, and an entry of any mode other than
      `create` or `update` only commits. */
  lemma EntryShape(e: Entry, lookup: Lookup, history: seq<Event>, build: Constructor)
    ensures var o := EntryOutcome(e, lookup, history, build);
      && (o.crashed <==> Dangling(e, lookup, history))
      && (!o.crashed ==> |o.calls| > 0 && o.calls[|o.calls| - 1] == Commit && Count(o.calls, Commit) == 1)
      && Count(o.calls, Login) == 0 && Count(o.calls, Logout) == 0
      && (e.mode != "create" && e.mode != "update" ==> o.calls == [Commit])
  {
    if e.mode == "create" {
      var cs := Creations(e.moduleName, e.className, e.objects, build);
      CreationsAt(e.moduleName, e.className, e.objects, build);
      CountAppend(cs, [Commit], Commit);
      CountAppend(cs, [Commit], Login);
      CountAppend(cs, [Commit], Logout);
      CountOne(Commit, Commit);
      CountOne(Commit, Login);
      CountOne(Commit, Logout);
    } else if e.mode == "update" {
      UpdateCounts(e, lookup, history, build, Commit);
      UpdateCounts(e, lookup, history, build, Login);
      UpdateCounts(e, lookup, history, build, Logout);
    } else {
      CountOne(Commit, Commit);
      CountOne(Commit, Login);
      CountOne(Commit, Logout);
    }
  }

  /** A create entry adds one object per definition, in list order, each built from that
      definition's properties, and then commits. */
  lemma CreateEntry(e: Entry, lookup: Lookup, history: seq<Event>, build: Constructor)
    requires e.mode == "create"
    ensures var o := EntryOutcome(e, lookup, history, build);
      && |o.calls| == |e.objects| + 1
      && (forall k :: 0 <= k < |e.objects| ==>
            o.calls[k] == AddMo(build(e.moduleName, e.className, e.objects[k]), true))
      && AddMoCount(o.calls) == |e.objects|
  {
    var cs := Creations(e.moduleName, e.className, e.objects, build);
    CreationsAt(e.moduleName, e.className, e.objects, build);
    CountAppend(cs, [Commit], Commit);
    CountOne(Commit, Commit);
  }

  /** An update entry queries its DN exactly once, as its first call; when the endpoint
      answers with an object, it then adds that object, with the listed attributes
      overwritten, exactly once. */
  lemma UpdateEntry(e: Entry, lookup: Lookup, history: seq<Event>, build: Constructor)
    requires e.mode == "update"
    ensures var o := EntryOutcome(e, lookup, history, build);
      && |o.calls| > 0 && o.calls[0] == QueryDn(e.target.dn)
      && Count(o.calls, QueryDn(e.target.dn)) == 1
      && (!o.crashed ==>
            lookup(history, e.target.dn).Some? && |o.calls| > 1 && AddMoCount(o.calls) == 1
            && o.calls[1] == AddMo(Overwritten(lookup(history, e.target.dn).value, e.target.properties), true))
  {
    UpdateCounts(e, lookup, history, build, QueryDn(e.target.dn));
  }

  lemma UpdateCounts(e: Entry, lookup: Lookup, history: seq<Event>, build: Constructor, x: Event)
    requires e.mode == "update"
    ensures var o := EntryOutcome(e, lookup, history, build);
      && Count(o.calls, x) == (if x == QueryDn(e.target.dn) then 1 else 0)
                              + (if !o.crashed && x == o.calls[1] then 1 else 0)
                              + (if !o.crashed && x == Commit then 1 else 0)
      && AddMoCount(o.calls) == (if o.crashed then 0 else 1)
  {
    var dn := e.target.dn;
    CountOne(QueryDn(dn), x);
    if lookup(history, dn).Some? {
      var add := AddMo(Overwritten(lookup(history, dn).value, e.target.properties), true);
      CountOne(add, x);
      CountOne(Commit, x);
      CountAppend([QueryDn(dn)], [add], x);
      CountAppend([QueryDn(dn)] + [add], [Commit], x);
      assert [QueryDn(dn)] + [add] + [Commit] == [QueryDn(dn), add, Commit];
    }
  }

  /** The only query an entry makes is the first call of an update entry, for its DN. */
  lemma EntryQueries(e: Entry, lookup: Lookup, history: seq<Event>, build: Constructor)
    ensures var o := EntryOutcome(e, lookup, history, build);
      forall k :: 0 <= k < |o.calls| && o.calls[k].QueryDn? ==>
        k == 0 && e.mode == "update" && o.calls[k].dn == e.target.dn
  {
    var o := EntryOutcome(e, lookup, history, build);
    if e.mode == "create" {
      var cs := Creations(e.moduleName, e.className, e.objects, build);
      CreationsAt(e.moduleName, e.className, e.objects, build);
      assert o.calls == cs + [Commit];
      forall k | 0 <= k < |o.calls|
        ensures !o.calls[k].QueryDn?
      {
        if k < |cs| {
          assert o.calls[k] == cs[k];
        }
      }
    }
  }

  /** Counting in a one-call log. */
  lemma CountOne(x: Event, e: Event)
    ensures Count([x], e) == (if x == e then 1 else 0)
    ensures AddMoCount([x]) == (if x.AddMo? then 1 else 0)
  {
    assert [x][..0] == [];
  }

  /** The calls of `entries` processed in order after the calls `start`, stopping at the
      first entry that ends the script. Each entry's query sees every call made before it,
      the commits of the earlier entries included. */
  function Processed(entries: seq<Entry>, lookup: Lookup, start: seq<Event>, build: Constructor): Outcome
  {
    if entries == [] then Outcome([], false)
    else
      var p := Processed(entries[..|entries| - 1], lookup, start, build);
      if p.crashed then p
      else
        var o := EntryOutcome(entries[|entries| - 1], lookup, start + p.calls, build);
        Outcome(p.calls + o.calls, o.crashed)
  }

  /** The calls of the whole loop: the processed entries and, when none ended the script,
      one logout. */
  function DispatchLog(entries: seq<Entry>, lookup: Lookup, start: seq<Event>, build: Constructor): seq<Event>
  {
    var p := Processed(entries, lookup, start, build);
    if p.crashed then p.calls else p.calls + [Logout]
  }

  /** Every `query_dn` among the first `n` calls of `calls`, made after `start`, found an
      object. */
  predicate Answered(lookup: Lookup, start: seq<Event>, calls: seq<Event>, n: int)
  {
    forall k :: 0 <= k < n && k < |calls| && calls[k].QueryDn? ==>
      lookup(start + calls[..k], calls[k].dn).Some?
  }

  /** The last of `calls`, made after `start`, is a `query_dn` that found nothing. */
  predicate LastQueryFailed(lookup: Lookup, start: seq<Event>, calls: seq<Event>)
  {
    |calls| > 0 && calls[|calls| - 1].QueryDn?
    && lookup(start + calls[..|calls| - 1], calls[|calls| - 1].dn).None?
  }

  /** Processing stops exactly when a `query_dn` finds nothing: then that query is the last
      call, and every query before it found an object. */
  lemma {:induction false} ProcessedCrash(entries: seq<Entry>, lookup: Lookup, start: seq<Event>, build: Constructor)
    ensures var p := Processed(entries, lookup, start, build);
      && (p.crashed <==> LastQueryFailed(lookup, start, p.calls))
      && Answered(lookup, start, p.calls, if p.crashed then |p.calls| - 1 else |p.calls|)
    decreases |entries|
  {
    if entries != [] {
      var es := entries[..|entries| - 1];
      var last := entries[|entries| - 1];
      var p := Processed(es, lookup, start, build);
      ProcessedCrash(es, lookup, start, build);
      if !p.crashed {
        var pc := p.calls;
        var o := EntryOutcome(last, lookup, start + pc, build);
        var calls := pc + o.calls;
        assert Processed(entries, lookup, start, build) == Outcome(calls, o.crashed);
        EntryShape(last, lookup, start + pc, build);
        EntryQueries(last, lookup, start + pc, build);
        if o.crashed {
          assert o.calls == [QueryDn(last.target.dn)];
          assert calls[..|calls| - 1] == pc;
          AnsweredExtend(lookup, start, pc, o.calls, |calls| - 1);
        } else {
          assert calls[|calls| - 1] == o.calls[|o.calls| - 1];
          AnsweredExtend(lookup, start, pc, o.calls, |calls|);
        }
      }
    }
  }

  /** Appending calls whose only query, if any, is the first one and found an object keeps
      every query answered. */
  lemma AnsweredExtend(lookup: Lookup, start: seq<Event>, pc: seq<Event>, oc: seq<Event>, n: int)
    requires Answered(lookup, start, pc, |pc|)
    requires forall k :: 0 <= k < |oc| && oc[k].QueryDn? ==>
               k == 0 && (|pc| < n ==> lookup(start + pc, oc[0].dn).Some?)
    ensures Answered(lookup, start, pc + oc, n)
  {
    var calls := pc + oc;
    forall k | 0 <= k < n && k < |calls| && calls[k].QueryDn?
      ensures lookup(start + calls[..k], calls[k].dn).Some?
    {
      if k < |pc| {
        assert calls[k] == pc[k];
        assert calls[..k] == pc[..k];
      } else {
        assert calls[k] == oc[k - |pc|];
        assert calls[..k] == pc;
      }
    }
  }

  /** An update after a create queries the endpoint after the create's commit: when the
      endpoint then holds the DN (the create made it), the update adds that object and the
      loop goes on. */
  lemma UpdateAfterCreate(c: Entry, u: Entry, lookup: Lookup, start: seq<Event>, build: Constructor)
    requires c.mode == "create" && u.mode == "update"
    requires lookup(start + EntryOutcome(c, lookup, start, build).calls, u.target.dn).Some?
    ensures var p := Processed([c, u], lookup, start, build);
            var created := EntryOutcome(c, lookup, start, build).calls;
      && !p.crashed && |p.calls| == |c.objects| + 4
      && p.calls[|c.objects|] == Commit
      && p.calls[|c.objects| + 1] == QueryDn(u.target.dn)
      && p.calls[|c.objects| + 2]
         == AddMo(Overwritten(lookup(start + created, u.target.dn).value, u.target.properties), true)
  {
    var created := EntryOutcome(c, lookup, start, build).calls;
    assert [c, u][..1] == [c];
    assert [c][..0] == [];
    assert Processed([c], lookup, start, build) == Outcome(created, false);
    CreateEntry(c, lookup, start, build);
  }

  /** When no entry ends the script, there is one commit per entry and no login or logout
      among the calls. */
  lemma {:induction false} ProcessedCounts(entries: seq<Entry>, lookup: Lookup, start: seq<Event>, build: Constructor)
    requires !Processed(entries, lookup, start, build).crashed
    ensures var calls := Processed(entries, lookup, start, build).calls;
      && Count(calls, Commit) == |entries|
      && Count(calls, Login) == 0 && Count(calls, Logout) == 0
    decreases |entries|
  {
    if entries != [] {
      var es := entries[..|entries| - 1];
      var last := entries[|entries| - 1];
      var p := Processed(es, lookup, start, build);
      ProcessedCounts(es, lookup, start, build);
      EntryShape(last, lookup, start + p.calls, build);
      var o := EntryOutcome(last, lookup, start + p.calls, build);
      CountAppend(p.calls, o.calls, Commit);
      CountAppend(p.calls, o.calls, Login);
      CountAppend(p.calls, o.calls, Logout);
    }
  }

  /** Whatever happens, processing itself never logs out. */
  lemma {:induction false} ProcessedNoLogout(entries: seq<Entry>, lookup: Lookup, start: seq<Event>, build: Constructor)
    ensures Count(Processed(entries, lookup, start, build).calls, Logout) == 0
    decreases |entries|
  {
    if entries != [] {
      var es := entries[..|entries| - 1];
      var p := Processed(es, lookup, start, build);
      ProcessedNoLogout(es, lookup, start, build);
      if !p.crashed {
        var last := entries[|entries| - 1];
        EntryShape(last, lookup, start + p.calls, build);
        CountAppend(p.calls, EntryOutcome(last, lookup, start + p.calls, build).calls, Logout);
      }
    }
  }

  /** The whole loop: when every `query_dn` it made found an object, the calls end with the
      only logout and hold exactly one commit per entry; otherwise there is no logout. */
  lemma DispatchShape(entries: seq<Entry>, lookup: Lookup, start: seq<Event>, build: Constructor)
    ensures var calls := Processed(entries, lookup, start, build).calls;
            var log := DispatchLog(entries, lookup, start, build);
      && (Answered(lookup, start, calls, |calls|) ==>
            |log| > 0 && log[|log| - 1] == Logout && Count(log, Logout) == 1
            && Count(log, Commit) == |entries| && Count(log, Login) == 0)
      && (!Answered(lookup, start, calls, |calls|) ==> Count(log, Logout) == 0)
  {
    var p := Processed(entries, lookup, start, build);
    ProcessedCrash(entries, lookup, start, build);
    if !p.crashed {
      ProcessedCounts(entries, lookup, start, build);
      CountAppend(p.calls, [Logout], Logout);
      CountAppend(p.calls, [Logout], Commit);
      CountAppend(p.calls, [Logout], Login);
    } else {
      var k := |p.calls| - 1;
      assert p.calls[k].QueryDn? && lookup(start + p.calls[..k], p.calls[k].dn).None?;
      ProcessedNoLogout(entries, lookup, start, build);
    }
  }

  /** An entry that ends the script ends the whole loop there. */
  lemma {:induction false} ProcessedStop(entries: seq<Entry>, i: nat, lookup: Lookup, start: seq<Event>, build: Constructor)
    requires i < |entries|
    requires !Processed(entries[..i], lookup, start, build).crashed
    requires EntryOutcome(entries[i], lookup, start + Processed(entries[..i], lookup, start, build).calls, build).crashed
    ensures var p := Processed(entries[..i], lookup, start, build);
      Processed(entries, lookup, start, build)
      == Outcome(p.calls + EntryOutcome(entries[i], lookup, start + p.calls, build).calls, true)
    decreases |entries| - i
  {
    assert entries[..i + 1][..i] == entries[..i];
    if i + 1 < |entries| {
      assert entries[..|entries| - 1][..i] == entries[..i];
      ProcessedStop(entries[..|entries| - 1], i, lookup, start, build);
    } else {
      assert entries[..i + 1] == entries;
    }
  }

  /** `add_mo` of every object definition of a create entry, in list order. */
  method CreateAll(handle: Handle, moduleName: string, className: string, defs: seq<Props>, build: Constructor)
    modifies handle
    ensures handle.log == old(handle.log) + Creations(moduleName, className, defs, build)
    ensures handle.cookie == old(handle.cookie)
  {
    var i := 0;
    while i < |defs|
      invariant i <= |defs|
      invariant handle.log == old(handle.log) + Creations(moduleName, className, defs[..i], build)
      invariant handle.cookie == old(handle.cookie)
    {
      handle.AddMo(build(moduleName, className, defs[i]), true);
      assert defs[..i + 1][..i] == defs[..i];
      i := i + 1;
    }
    assert defs[..i] == defs;
  }

  /** One entry of the loop; `ok` is false when the entry ends the script. */
  method ApplyEntry(handle: Handle, e: Entry, build: Constructor) returns (ok: bool)
    modifies handle
    ensures handle.log == old(handle.log) + EntryOutcome(e, handle.lookup, old(handle.log), build).calls
    ensures ok <==> !EntryOutcome(e, handle.lookup, old(handle.log), build).crashed
    ensures handle.cookie == old(handle.cookie)
  {
    if e.mode == "create" {
      CreateAll(handle, e.moduleName, e.className, e.objects, build);
    } else if e.mode == "update" {
      var fetched := handle.QueryDn(e.target.dn);
      if fetched.None? {
        return false;
      }
      var mo := SetAttrs(fetched.value, e.target.properties);
      handle.AddMo(mo, true);
    }
    handle.Commit();
    ok := true;
  }

  /** The loop over `ucs_objects` and the final logout. `completed` is false when an entry
      ended the script, which then skips the logout and keeps the session cookie. */
  method Dispatch(handle: Handle, entries: seq<Entry>, build: Constructor) returns (completed: bool)
    modifies handle
    ensures handle.log == old(handle.log) + DispatchLog(entries, handle.lookup, old(handle.log), build)
    ensures completed <==> !Processed(entries, handle.lookup, old(handle.log), build).crashed
    ensures handle.cookie == if completed then "" else old(handle.cookie)
  {
    ghost var start := handle.log;
    var i := 0;
    while i < |entries|
      invariant i <= |entries|
      invariant !Processed(entries[..i], handle.lookup, start, build).crashed
      invariant handle.log == start + Processed(entries[..i], handle.lookup, start, build).calls
      invariant handle.cookie == old(handle.cookie)
    {
      ghost var p := Processed(entries[..i], handle.lookup, start, build);
      var ok := ApplyEntry(handle, entries[i], build);
      assert entries[..i + 1][..i] == entries[..i];
      ghost var o := EntryOutcome(entries[i], handle.lookup, start + p.calls, build);
      AppendAssoc(start, p.calls, o.calls);
      if !ok {
        ProcessedStop(entries, i, handle.lookup, start, build);
        return false;
      }
      i := i + 1;
    }
    assert entries[..i] == entries;
    handle.Logout();
    completed := true;
  }

  lemma AppendAssoc(x: seq<Event>, y: seq<Event>, z: seq<Event>)
    ensures (x + y) + z == x + (y + z)
  {
  }
}
