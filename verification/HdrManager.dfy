/** The handler set: registration, first-match routing of sends, and the two timeout sweeps. */
module HdrManager {
  import opened Bytes
  import opened Framing
  import opened Sending
  import opened Handlers
  import opened SvrHandler

  // ---- first match, on values ----

  function FirstMatch<T(==)>(s: seq<T>, x: T): (at: nat)
    ensures at <= |s| && x !in s[..at]
    ensures at < |s| ==> s[at] == x
    ensures at == |s| <==> x !in s
  {
    if s == [] || s[0] == x then 0
    else
      assert s == [s[0]] + s[1..];
      var at := 1 + FirstMatch(s[1..], x);
      assert s[..at] == [s[0]] + s[1..][..at - 1];
      at
  }

  function EraseFirst<T(==)>(s: seq<T>, x: T): seq<T> {
    var at := FirstMatch(s, x);
    if at == |s| then s else RemoveAt(s, at)
  }

  /** Erasing takes out the first match and nothing else, or nothing at all if there is none. */
  lemma ErasesTheFirst<T>(s: seq<T>, x: T)
    ensures x !in s ==> EraseFirst(s, x) == s
    ensures x in s ==> exists k :: 0 <= k < |s| && s[k] == x && x !in s[..k] && EraseFirst(s, x) == s[..k] + s[k + 1..]
  {
    var k := FirstMatch(s, x);
    if x in s {
      assert s[k] == x && x !in s[..k] && EraseFirst(s, x) == s[..k] + s[k + 1..];
    }
  }

  function Occurrences<T(==)>(s: seq<T>, x: T): nat {
    if s == [] then 0 else Occurrences(s[..|s| - 1], x) + (if s[|s| - 1] == x then 1 else 0)
  }

  /** Erasing takes one entry away: the one just pushed if the handler was new. */
  lemma EraseUndoesPush<T>(s: seq<T>, x: T)
    ensures multiset(EraseFirst(s + [x], x)) == multiset(s)
    ensures x !in s ==> EraseFirst(s + [x], x) == s
  {
    var t := s + [x];
    var at := FirstMatch(t, x);
    assert t[|s|] == x && at < |t|;
    SplitAt(t, at);
    assert multiset(t) == multiset(s) + multiset{x};
    assert EraseFirst(t, x) == RemoveAt(t, at);
    assert multiset(RemoveAt(t, at)) == multiset(t) - multiset{x};
    if x !in s {
      assert at == |s|;
      assert RemoveAt(t, at) == s;
    }
  }

  lemma SplitAt<T>(t: seq<T>, at: nat)
    requires at < |t|
    ensures multiset(t) == multiset(RemoveAt(t, at)) + multiset{t[at]}
  {
    assert t == t[..at] + [t[at]] + t[at + 1..];
  }

  class TcpSvrHdrManager {
    var sets: seq<TcpSvrHandler?>

    ghost function Links(): set<TcpHandler>
      reads this
    {
      set h: TcpSvrHandler | h in sets :: h.link
    }

    /** The handler objects do not share state. */
    ghost predicate Separate()
      reads this
    {
      forall g: TcpSvrHandler, h: TcpSvrHandler :: g in sets && h in sets && g != h ==> g.link != h.link
    }

    constructor ()
      ensures sets == []
    {
      sets := [];
    }

    method Push(hdr: TcpSvrHandler?)
      modifies this
      ensures sets == old(sets) + [hdr]
    {
      sets := sets + [hdr];
    }

    method Find(hdr: TcpSvrHandler?) returns (at: nat)
      ensures at == FirstMatch(sets, hdr)
    {
      at := 0;
      while at < |sets| && sets[at] != hdr
        invariant at <= |sets| && FirstMatch(sets, hdr) == at + FirstMatch(sets[at..], hdr)
      {
        at := at + 1;
      }
    }

    method Erase(hdr: TcpSvrHandler?) returns (r: int)
      modifies this
      ensures sets == EraseFirst(old(sets), hdr)
      ensures r == if hdr in old(sets) then 0 else -1
      ensures r == -1 ==> sets == old(sets)
      ensures r == 0 ==> exists k :: 0 <= k < |old(sets)| && old(sets)[k] == hdr && hdr !in old(sets)[..k] &&
                                     sets == old(sets)[..k] + old(sets)[k + 1..]
    {
      ErasesTheFirst(sets, hdr);
      var at := Find(hdr);
      if at == |sets| {
        return -1;
      }
      sets := sets[..at] + sets[at + 1..];
      return 0;
    }

    /** Routes data to the registered handler, and to no other. */
    method SendData(hdr: TcpSvrHandler?, data: Bytes) returns (r: int)
      requires hdr != null ==> hdr.link.Valid()
      modifies if hdr != null then {hdr.link} else {}
      ensures r == if hdr in sets then 0 else -1
      ensures hdr != null && hdr in sets ==>
        hdr.link.Valid() && hdr.link.State() == Handlers.SendData(hdr.link.c, old(hdr.link.State()), data)
      ensures hdr == null || hdr !in sets ==> hdr != null ==> unchanged(hdr.link)
    {
      var at := Find(hdr);
      if at == |sets| {
        return -1;
      }
      if hdr != null {
        hdr.link.SendDataInThread(data);
      }
      return 0;
    }

    method SendClose(hdr: TcpSvrHandler?) returns (r: int)
      requires hdr != null ==> hdr.link.Valid()
      modifies if hdr != null then {hdr.link} else {}
      ensures r == if hdr in sets then 0 else -1
      ensures hdr != null && hdr in sets ==>
        hdr.link.Valid() && hdr.link.State() == Handlers.SendClose(old(hdr.link.State()))
      ensures hdr == null || hdr !in sets ==> hdr != null ==> unchanged(hdr.link)
    {
      var at := Find(hdr);
      if at == |sets| {
        return -1;
      }
      if hdr != null {
        hdr.link.SendCloseInThread();
      }
      return 0;
    }

    /** The sweep closes exactly the registered handlers that are overdue, with one report per entry. */
    method CheckHeartjump(now: int, wait: int)
      requires Separate()
      modifies Links()`errors, Links()`socketOpen
      ensures forall h: TcpSvrHandler :: h in sets ==>
        && h.link.errors == old(h.link.errors) + Reports(HeartOverdue(h.Times(), now, wait), Occurrences(sets, h))
        && (h.link.socketOpen <==> old(h.link.socketOpen) && !HeartOverdue(h.Times(), now, wait))
    {
      for i := 0 to |sets|
        invariant forall h: TcpSvrHandler :: h in sets ==>
          && h.link.errors == old(h.link.errors) +
               Reports(HeartOverdue(h.Times(), now, wait), Occurrences(sets[..i], h))
          && (h.link.socketOpen <==> old(h.link.socketOpen) && !(h in sets[..i] && HeartOverdue(h.Times(), now, wait)))
      {
        assert sets[..i + 1] == sets[..i] + [sets[i]];
        assert sets[..i + 1][..i] == sets[..i];
        var p := sets[i];
        if p != null {
          if p.CheckHeartjumpTimeout(now, wait) {
            ReportOnceMore(Occurrences(sets[..i], p));
            p.link.OnManagerClose();
          }
        }
      }
      assert sets[..|sets|] == sets;
    }

    method CheckAuthenticationPass(now: int, wait: int)
      requires Separate()
      modifies Links()`errors, Links()`socketOpen
      ensures forall h: TcpSvrHandler :: h in sets ==>
        && h.link.errors == old(h.link.errors) + Reports(AuthOverdue(h.Times(), now, wait), Occurrences(sets, h))
        && (h.link.socketOpen <==> old(h.link.socketOpen) && !AuthOverdue(h.Times(), now, wait))
    {
      for i := 0 to |sets|
        invariant forall h: TcpSvrHandler :: h in sets ==>
          && h.link.errors == old(h.link.errors) + Reports(AuthOverdue(h.Times(), now, wait), Occurrences(sets[..i], h))
          && (h.link.socketOpen <==> old(h.link.socketOpen) && !(h in sets[..i] && AuthOverdue(h.Times(), now, wait)))
      {
        assert sets[..i + 1] == sets[..i] + [sets[i]];
        assert sets[..i + 1][..i] == sets[..i];
        var p := sets[i];
        if p != null {
          if !p.CheckAuthenticationPass(now, wait) {
            ReportOnceMore(Occurrences(sets[..i], p));
            p.link.OnManagerClose();
          }
        }
      }
      assert sets[..|sets|] == sets;
    }
  }

  lemma ReportOnceMore(n: nat)
    ensures Reports(true, n + 1) == Reports(true, n) + [ByManager]
  {}

  function Reports(overdue: bool, entries: nat): seq<Error> {
    if overdue then seq(entries, _ => ByManager) else []
  }
}
