/** The management session: every call the scripts make on it is recorded, in order, in a log. */
module Session {
  import opened Values

  /** One call on the session handle. */
  datatype Event =
    | Login
    | AddMo(mo: Mo, modifyPresent: bool)
    | Commit
    | QueryDn(dn: string)
    | Logout

  /** Number of occurrences of `e` in `log`. */
  function Count(log: seq<Event>, e: Event): nat
  {
    if log == [] then 0
    else Count(log[..|log| - 1], e) + (if log[|log| - 1] == e then 1 else 0)
  }

  /** Number of `add_mo` calls in `log`. */
  function AddMoCount(log: seq<Event>): nat
  {
    if log == [] then 0
    else AddMoCount(log[..|log| - 1]) + (if log[|log| - 1].AddMo? then 1 else 0)
  }

  lemma {:induction false} CountAppend(a: seq<Event>, c: seq<Event>, e: Event)
    ensures Count(a + c, e) == Count(a, e) + Count(c, e)
    ensures AddMoCount(a + c) == AddMoCount(a) + AddMoCount(c)
    decreases |c|
  {
    if c == [] {
      assert a + c == a;
    } else {
      var c' := c[..|c| - 1];
      assert (a + c)[..|a + c| - 1] == a + c';
      CountAppend(a, c', e);
    }
  }

  /** Every event of `log` is an `add_mo` call: then `log` has no other kind of call. */
  lemma {:induction false} CountOnlyAddMo(log: seq<Event>, e: Event)
    requires forall k :: 0 <= k < |log| ==> log[k].AddMo?
    ensures AddMoCount(log) == |log|
    ensures !e.AddMo? ==> Count(log, e) == 0
    decreases |log|
  {
    if log != [] {
      CountOnlyAddMo(log[..|log| - 1], e);
    }
  }

  /** What the endpoint answers to `query_dn(dn)` after the calls `history` were made on
      it: the endpoint's contents are whatever the earlier `add_mo` and `commit` calls left
      there, so the answer may depend on every earlier call. */
  type Lookup = (seq<Event>, string) -> Option<Mo>

  /** A handle on a management endpoint (UcsHandle, ImcHandle, ...). Only the calls made on
      it are modelled; `cookie` is the session cookie the endpoint hands out at login, and
      `lookup` is how the endpoint answers a query, given the calls made before it. */
  class Handle {
    var log: seq<Event>
    var cookie: string
    const issuedCookie: string
    const lookup: Lookup

    constructor (issuedCookie: string, lookup: Lookup)
      ensures log == [] && cookie == ""
      ensures this.issuedCookie == issuedCookie && this.lookup == lookup
    {
      log := [];
      cookie := "";
      this.issuedCookie := issuedCookie;
      this.lookup := lookup;
    }

    method Login()
      modifies this
      ensures log == old(log) + [Event.Login]
      ensures cookie == issuedCookie
    {
      log := log + [Event.Login];
      cookie := issuedCookie;
    }

    method AddMo(mo: Mo, modifyPresent: bool)
      modifies this
      ensures log == old(log) + [Event.AddMo(mo, modifyPresent)]
      ensures cookie == old(cookie)
    {
      log := log + [Event.AddMo(mo, modifyPresent)];
    }

    method Commit()
      modifies this
      ensures log == old(log) + [Event.Commit]
      ensures cookie == old(cookie)
    {
      log := log + [Event.Commit];
    }

    /** `query_dn`: the object the endpoint holds under `dn` after the calls made so far,
        or None when it holds none. */
    method QueryDn(dn: string) returns (r: Option<Mo>)
      modifies this
      ensures log == old(log) + [Event.QueryDn(dn)]
      ensures cookie == old(cookie)
      ensures r == lookup(old(log), dn)
    {
      r := lookup(log, dn);
      log := log + [Event.QueryDn(dn)];
    }

    method Logout()
      modifies this
      ensures log == old(log) + [Event.Logout]
      ensures cookie == ""
    {
      log := log + [Event.Logout];
      cookie := "";
    }
  }
}
