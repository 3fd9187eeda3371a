/**
 * The periodic sweeps of the server over real time, seen by one handler. Time is in ticks; a sweep
 * runs at the tick it is due and takes none, so the next one is due exactly one wait later.
 */
module Timeouts {
  import opened Bytes
  import opened SvrHandler
  import opened HdrManager

  /** The waits of the parser; 0 switches the sweep off. */
  datatype Waits = Waits(heart: nat, auth: nat)

  /** The server object: when its two timers fire next. */
  class TcpServer {
    const waits: Waits
    const manager: TcpSvrHdrManager
    var heartDue: Option<int>
    var authDue: Option<int>

    constructor (w: Waits, m: TcpSvrHdrManager, now: int)
      ensures waits == w && manager == m
      ensures heartDue == Armed(w.heart, now) && authDue == Armed(w.auth, now)
      ensures heartDue == (if w.heart > 0 then Some(now + w.heart) else None)
      ensures authDue == (if w.auth > 0 then Some(now + w.auth) else None)
    {
      waits, manager := w, m;
      heartDue, authDue := None, None;
      new;
      ArmHeartjump(now);
      ArmAuthentication(now);
    }

    method ArmHeartjump(now: int)
      requires heartDue == None
      modifies this`heartDue
      ensures heartDue == Armed(waits.heart, now)
    {
      if waits.heart > 0 {
        heartDue := Some(now + waits.heart);
      }
    }

    method ArmAuthentication(now: int)
      requires authDue == None
      modifies this`authDue
      ensures authDue == Armed(waits.auth, now)
    {
      if waits.auth > 0 {
        authDue := Some(now + waits.auth);
      }
    }

    /** The heart-jump timer fires: sweep, then arm again; after a timer error neither happens. */
    method OnHeartjump(error: bool, now: int)
      requires manager.Separate()
      modifies this`heartDue, manager.Links()`errors, manager.Links()`socketOpen
      ensures heartDue == if error then None else Armed(waits.heart, now)
      ensures !error && waits.heart > 0 ==> heartDue == Some(now + waits.heart)
      ensures !error ==> forall h: TcpSvrHandler :: h in manager.sets ==>
        (h.link.socketOpen <==> old(h.link.socketOpen) && !HeartOverdue(h.Times(), now, waits.heart))
      ensures error ==> forall h: TcpSvrHandler :: h in manager.sets ==> unchanged(h.link)
    {
      heartDue := None;
      if !error {
        manager.CheckHeartjump(now, waits.heart);
        ArmHeartjump(now);
      }
    }

    method OnAuthentication(error: bool, now: int)
      requires manager.Separate()
      modifies this`authDue, manager.Links()`errors, manager.Links()`socketOpen
      ensures authDue == if error then None else Armed(waits.auth, now)
      ensures !error && waits.auth > 0 ==> authDue == Some(now + waits.auth)
      ensures !error ==> forall h: TcpSvrHandler :: h in manager.sets ==>
        (h.link.socketOpen <==> old(h.link.socketOpen) && !AuthOverdue(h.Times(), now, waits.auth))
      ensures error ==> forall h: TcpSvrHandler :: h in manager.sets ==> unchanged(h.link)
    {
      authDue := None;
      if !error {
        manager.CheckAuthenticationPass(now, waits.auth);
        ArmAuthentication(now);
      }
    }
  }

  /** The next due time of a timer armed now. */
  function Armed(wait: nat, now: int): Option<int> {
    if wait > 0 then Some(now + wait) else None
  }

  // ---- the timed runs ----

  /** A sweep's first close of the handler: when, the stamp it saw, and since when it was registered. */
  datatype Closing = Closing(at: int, stamp: int, since: int)

  datatype Timeline = Timeline(
    now: int,
    heartDue: Option<int>,
    authDue: Option<int>,
    clock: Clock,
    since: Option<int>,            // registered with the manager since
    byHeart: Option<Closing>,
    byAuth: Option<Closing>)

  datatype Event =
    | Advance(t: int)
    | HeartSweep
    | AuthSweep
    | Refresh
    | Authenticate
    | Started
    | Register
    | Unregister

  function Begin(w: Waits, t: int): Timeline {
    Timeline(t, Armed(w.heart, t), Armed(w.auth, t), Clock(t, t, false), None, None, None)
  }

  /** Time does not pass a due sweep. */
  predicate Enabled(x: Timeline, e: Event) {
    match e
    case Advance(t) =>
      && x.now <= t
      && (x.heartDue.Some? ==> t <= x.heartDue.value)
      && (x.authDue.Some? ==> t <= x.authDue.value)
    case HeartSweep => x.heartDue == Some(x.now)
    case AuthSweep => x.authDue == Some(x.now)
    case _ => true
  }

  function Apply(w: Waits, x: Timeline, e: Event): Timeline
    requires Enabled(x, e)
  {
    match e
    case Advance(t) => x.(now := t)
    case HeartSweep =>
      x.(heartDue := Armed(w.heart, x.now),
         byHeart :=
           if x.since.Some? && x.byHeart.None? && HeartOverdue(x.clock, x.now, w.heart)
           then Some(Closing(x.now, x.clock.p1, x.since.value)) else x.byHeart)
    case AuthSweep =>
      x.(authDue := Armed(w.auth, x.now),
         byAuth :=
           if x.since.Some? && x.byAuth.None? && AuthOverdue(x.clock, x.now, w.auth)
           then Some(Closing(x.now, x.clock.p2, x.since.value)) else x.byAuth)
    case Refresh => x.(clock := Refreshed(x.clock, x.now))
    case Authenticate => x.(clock := Passed(x.clock, x.now))
    case Started => x.(clock := StartedAt(x.clock, x.now))
    case Register => if x.since.Some? then x else x.(since := Some(x.now))
    case Unregister => x.(since := None)
  }

  predicate CanRun(w: Waits, x: Timeline, es: seq<Event>)
    decreases |es|
  {
    es == [] || (Enabled(x, es[0]) && CanRun(w, Apply(w, x, es[0]), es[1..]))
  }

  function Exec(w: Waits, x: Timeline, es: seq<Event>): Timeline
    requires CanRun(w, x, es)
    decreases |es|
  {
    if es == [] then x else Exec(w, Apply(w, x, es[0]), es[1..])
  }

  /** The last tick by which a sweep with this wait gets a handler with this stamp. */
  function Deadline(wait: nat, stamp: int, since: int): int {
    if stamp + 2 * wait >= since + wait then stamp + 2 * wait else since + wait
  }

  /** The window of one sweep: it closes strictly after stamp + wait and by the deadline. */
  predicate InWindow(wait: nat, c: Closing) {
    c.stamp + wait < c.at <= Deadline(wait, c.stamp, c.since)
  }

  predicate HeartInv(w: Waits, x: Timeline) {
    && (w.heart > 0 <==> x.heartDue.Some?)
    && (x.heartDue.Some? ==> x.now <= x.heartDue.value <= x.now + w.heart)
    && x.clock.p1 <= x.now
    && (x.byHeart.Some? ==> InWindow(w.heart, x.byHeart.value) && x.clock.authenticated)
    && (w.heart > 0 && x.since.Some? && x.byHeart.None? && x.clock.authenticated ==>
          x.heartDue.value <= Deadline(w.heart, x.clock.p1, x.since.value))
  }

  predicate AuthInv(w: Waits, x: Timeline) {
    && (w.auth > 0 <==> x.authDue.Some?)
    && (x.authDue.Some? ==> x.now <= x.authDue.value <= x.now + w.auth)
    && x.clock.p2 <= x.now
    && (x.byAuth.Some? ==> InWindow(w.auth, x.byAuth.value))
    && (w.auth > 0 && x.since.Some? && x.byAuth.None? && !x.clock.authenticated ==>
          x.authDue.value <= Deadline(w.auth, x.clock.p2, x.since.value))
  }

  predicate Inv(w: Waits, x: Timeline) {
    HeartInv(w, x) && AuthInv(w, x) && (x.since.Some? ==> x.since.value <= x.now)
  }

  lemma HeartStep(w: Waits, x: Timeline, e: Event)
    requires HeartInv(w, x) && Enabled(x, e) && (x.since.Some? ==> x.since.value <= x.now)
    ensures HeartInv(w, Apply(w, x, e))
  {}

  lemma AuthStep(w: Waits, x: Timeline, e: Event)
    requires AuthInv(w, x) && Enabled(x, e) && (x.since.Some? ==> x.since.value <= x.now)
    ensures AuthInv(w, Apply(w, x, e))
    ensures x.clock.authenticated ==> Apply(w, x, e).clock.authenticated && Apply(w, x, e).byAuth == x.byAuth
  {}

  lemma StepInv(w: Waits, x: Timeline, e: Event)
    requires Inv(w, x) && Enabled(x, e)
    ensures Inv(w, Apply(w, x, e))
    ensures x.clock.authenticated ==> Apply(w, x, e).clock.authenticated && Apply(w, x, e).byAuth == x.byAuth
  {
    HeartStep(w, x, e);
    AuthStep(w, x, e);
  }

  lemma {:induction false} RunInv(w: Waits, x: Timeline, es: seq<Event>)
    requires Inv(w, x) && CanRun(w, x, es)
    ensures Inv(w, Exec(w, x, es))
    ensures x.clock.authenticated ==>
      Exec(w, x, es).clock.authenticated && Exec(w, x, es).byAuth == x.byAuth
    decreases |es|
  {
    if es == [] {
    } else {
      StepInv(w, x, es[0]);
      RunInv(w, Apply(w, x, es[0]), es[1..]);
    }
  }

  // ---- the stamps, told from the run ----

  /** The time after a run, and the times of its last refresh, authentication included, and last start. */
  function NowOf(es: seq<Event>, t: int): int {
    if es == [] then t
    else if es[|es| - 1].Advance? then es[|es| - 1].t
    else NowOf(es[..|es| - 1], t)
  }

  function LastRefresh(es: seq<Event>, t: int): int {
    if es == [] then t
    else if es[|es| - 1] == Refresh || es[|es| - 1] == Authenticate then NowOf(es, t)
    else LastRefresh(es[..|es| - 1], t)
  }

  function LastStart(es: seq<Event>, t: int): int {
    if es == [] then t
    else if es[|es| - 1] == Started then NowOf(es, t)
    else LastStart(es[..|es| - 1], t)
  }

  /** Since when the handler has been registered without a break. */
  function SinceOf(es: seq<Event>, t: int): Option<int> {
    if es == [] then None
    else
      var front, last := es[..|es| - 1], es[|es| - 1];
      if last == Unregister then None
      else if last == Register && SinceOf(front, t).None? then Some(NowOf(es, t))
      else SinceOf(front, t)
  }

  predicate Stamped(es: seq<Event>, t: int, x: Timeline) {
    && x.now == NowOf(es, t) && x.since == SinceOf(es, t)
    && x.clock == Clock(LastRefresh(es, t), LastStart(es, t), Authenticate in es)
  }

  lemma StampStep(w: Waits, past: seq<Event>, t: int, x: Timeline, e: Event)
    requires Stamped(past, t, x) && Enabled(x, e)
    ensures Stamped(past + [e], t, Apply(w, x, e))
  {
    assert (past + [e])[..|past|] == past;
  }

  lemma {:induction false} StampRun(w: Waits, past: seq<Event>, t: int, x: Timeline, es: seq<Event>)
    requires Stamped(past, t, x) && CanRun(w, x, es)
    ensures Stamped(past + es, t, Exec(w, x, es))
    decreases |es|
  {
    if es == [] {
      assert past + es == past;
    } else {
      StampStep(w, past, t, x, es[0]);
      StampRun(w, past + [es[0]], t, Apply(w, x, es[0]), es[1..]);
      assert past + [es[0]] + es[1..] == past + es;
    }
  }

  // ---- main results ----

  /**
   * The stamps the windows speak of are those of the run: the time of the last refresh or
   * authentication, the time of the last start, and whether authentication has passed.
   */
  lemma StampsAreTrue(w: Waits, t: int, es: seq<Event>)
    requires CanRun(w, Begin(w, t), es)
    ensures var x := Exec(w, Begin(w, t), es);
      && x.now == NowOf(es, t) && x.since == SinceOf(es, t)
      && x.clock == Clock(LastRefresh(es, t), LastStart(es, t), Authenticate in es)
  {
    StampRun(w, [], t, Begin(w, t), es);
    assert [] + es == es;
  }

  /**
   * A heart-jump sweep closes a handler not closed before if and only if it is registered, has
   * authenticated, and was last refreshed strictly more than the wait ago, all told from the run.
   */
  lemma HeartSweepClosesIff(w: Waits, t: int, es: seq<Event>)
    requires CanRun(w, Begin(w, t), es) && Enabled(Exec(w, Begin(w, t), es), HeartSweep)
    requires Exec(w, Begin(w, t), es).byHeart.None?
    ensures Apply(w, Exec(w, Begin(w, t), es), HeartSweep).byHeart ==
      if SinceOf(es, t).Some? && Authenticate in es && NowOf(es, t) - LastRefresh(es, t) > w.heart
      then Some(Closing(NowOf(es, t), LastRefresh(es, t), SinceOf(es, t).value)) else None
  {
    StampsAreTrue(w, t, es);
  }

  /** The authentication sweep, the same, for a handler that has not authenticated, from its last start. */
  lemma AuthSweepClosesIff(w: Waits, t: int, es: seq<Event>)
    requires CanRun(w, Begin(w, t), es) && Enabled(Exec(w, Begin(w, t), es), AuthSweep)
    requires Exec(w, Begin(w, t), es).byAuth.None?
    ensures Apply(w, Exec(w, Begin(w, t), es), AuthSweep).byAuth ==
      if SinceOf(es, t).Some? && Authenticate !in es && NowOf(es, t) - LastStart(es, t) > w.auth
      then Some(Closing(NowOf(es, t), LastStart(es, t), SinceOf(es, t).value)) else None
  {
    StampsAreTrue(w, t, es);
  }

  /**
   * The heart-jump window. A handler last refreshed at h and registered at r <= h + W is closed
   * strictly after h + W and no later than h + 2W; if it is still open, that deadline is not over.
   */
  lemma HeartWindow(w: Waits, t: int, es: seq<Event>)
    requires w.heart > 0 && CanRun(w, Begin(w, t), es)
    ensures var x := Exec(w, Begin(w, t), es);
      && (x.byHeart.Some? ==>
            var c := x.byHeart.value;
            && c.stamp + w.heart < c.at
            && (c.since <= c.stamp + w.heart ==> c.at <= c.stamp + 2 * w.heart))
      && (x.byHeart.Some? ==> Authenticate in es)
      && (x.byHeart.None? && x.since.Some? && x.clock.authenticated ==>
            x.since.value <= x.clock.p1 + w.heart ==> x.now <= x.clock.p1 + 2 * w.heart)
  {
    StampsAreTrue(w, t, es);
    RunInv(w, Begin(w, t), es);
  }

  /** The same window for authentication, measured from the start of an unauthenticated handler. */
  lemma AuthWindow(w: Waits, t: int, es: seq<Event>)
    requires w.auth > 0 && CanRun(w, Begin(w, t), es)
    ensures var x := Exec(w, Begin(w, t), es);
      && (x.byAuth.Some? ==>
            var c := x.byAuth.value;
            && c.stamp + w.auth < c.at
            && (c.since <= c.stamp + w.auth ==> c.at <= c.stamp + 2 * w.auth))
      && (x.byAuth.None? && x.since.Some? && !x.clock.authenticated ==>
            x.since.value <= x.clock.p2 + w.auth ==> x.now <= x.clock.p2 + 2 * w.auth)
  {
    RunInv(w, Begin(w, t), es);
  }

  /** Authentication, once set, exempts a handler from that sweep for ever. */
  lemma AuthenticationIsForever(w: Waits, t: int, es: seq<Event>, more: seq<Event>)
    requires CanRun(w, Begin(w, t), es) && CanRun(w, Exec(w, Begin(w, t), es), more)
    requires var x := Exec(w, Begin(w, t), es); x.clock.authenticated && x.byAuth.None?
    ensures Exec(w, Exec(w, Begin(w, t), es), more).byAuth.None?
  {
    RunInv(w, Begin(w, t), es);
    RunInv(w, Exec(w, Begin(w, t), es), more);
  }

  /** At every point of the run the last refresh is at most one wait ago. */
  predicate AlwaysFresh(w: Waits, x: Timeline, es: seq<Event>)
    requires CanRun(w, x, es)
    decreases |es|
  {
    && (x.clock.authenticated ==> x.now <= x.clock.p1 + w.heart)
    && (es != [] ==> AlwaysFresh(w, Apply(w, x, es[0]), es[1..]))
  }

  /** A handler refreshed at least once per wait is never closed by the heart-jump sweep. */
  lemma {:induction false} FreshIsNeverClosed(w: Waits, x: Timeline, es: seq<Event>)
    requires CanRun(w, x, es) && AlwaysFresh(w, x, es) && x.byHeart.None?
    ensures Exec(w, x, es).byHeart.None?
    decreases |es|
  {
    if es == [] {
    } else {
      FreshIsNeverClosed(w, Apply(w, x, es[0]), es[1..]);
    }
  }
}
