/** The server side of a TCP connection. */
module SvrHandler {
  import opened Bytes
  import opened Framing
  import opened Sending
  import opened Handlers
  import opened Histories

  /** The times the sweeps look at, in ticks, and whether authentication has passed. */
  datatype Clock = Clock(p1: int, p2: int, authenticated: bool)

  /** An authenticated handler is overdue strictly more than `wait` after its last heart-jump. */
  predicate HeartOverdue(k: Clock, now: int, wait: int) {
    k.authenticated && k.p1 + wait < now
  }

  /** An unauthenticated handler is overdue strictly more than `wait` after its start. */
  predicate AuthOverdue(k: Clock, now: int, wait: int) {
    !k.authenticated && k.p2 + wait < now
  }

  function Refreshed(k: Clock, now: int): Clock { k.(p1 := now) }

  function Passed(k: Clock, now: int): Clock { k.(p1 := now, authenticated := true) }

  function StartedAt(k: Clock, now: int): Clock { k.(p2 := now) }

  /** A handler with the times the sweeps look at. */
  class TcpSvrHandler {
    const link: TcpHandler
    var p1: int
    var p2: int
    var isAuthenticationPass: bool

    function Times(): Clock
      reads this
    {
      Clock(p1, p2, isAuthenticationPass)
    }

    constructor (config: Config, now: int)
      requires ValidConfig(config)
      ensures fresh(link) && fresh(link.revMgr) && fresh(link.revMgr.data)
      ensures link.Valid() && link.c == config && link.State() == NEW
      ensures Times() == Clock(now, now, false)
    {
      link := new TcpHandler(config);
      p1, p2, isAuthenticationPass := now, now, false;
    }

    method Start(now: int)
      requires link.Valid()
      modifies this`p2, link`started, link`pending
      ensures link.Valid() && link.State() == Begin(link.c, old(link.State()))
      ensures Times() == StartedAt(old(Times()), now)
      ensures p2 == now && p1 == old(p1) && isAuthenticationPass == old(isAuthenticationPass)
      ensures link.started && link.pending == old(link.pending) + [link.c.headerSize]
    {
      p2 := now;
      link.Begin(true);
    }

    predicate CheckHeartjumpTimeout(now: int, wait: int): (timeout: bool)
      reads this
      ensures timeout <==> HeartOverdue(Times(), now, wait)
      ensures timeout <==> isAuthenticationPass && now - p1 > wait
    {
      if isAuthenticationPass then p1 < now - wait else false
    }

    predicate CheckAuthenticationPass(now: int, wait: int): (pass: bool)
      reads this
      ensures pass <==> !AuthOverdue(Times(), now, wait)
      ensures pass <==> isAuthenticationPass || now - p2 <= wait
    {
      if !isAuthenticationPass then !(p2 < now - wait) else true
    }

    method SetHeartjumpDatetime(now: int)
      modifies this`p1
      ensures Times() == Refreshed(old(Times()), now)
      ensures p1 == now
    {
      p1 := now;
    }

    method SetAuthenticationPass(now: int)
      modifies this`p1, this`isAuthenticationPass
      ensures Times() == Passed(old(Times()), now)
      ensures isAuthenticationPass && p1 == now
    {
      isAuthenticationPass := true;
      SetHeartjumpDatetime(now);
    }
  }

  function Begin(c: Config, h: Handler): Handler {
    Read(h.(started := true), c.headerSize)
  }

  // ---- every run of one handler ----

  datatype Event =
    | Start
    | ReadDone(k: nat, done: Completion)
    | Send(data: Bytes)
    | Close
    | RunPosted(hookAccepts: bool)
    | WriteDone(k: nat)
    | ManagerCloses

  predicate Enabled(h: Handler, e: Event) {
    match e
    case Start => !h.started
    case ReadDone(k, done) => CanComplete(h, k, done)
    case Send(_) => true
    case Close => true
    case RunPosted(_) => h.out.posts != []
    case WriteDone(k) => k < |h.out.writing|
    case ManagerCloses => true
  }

  function Apply(c: Config, h: Handler, e: Event): Handler
    requires Enabled(h, e)
  {
    match e
    case Start => Begin(c, h)
    case ReadDone(k, done) => ReadHandler(c, h, k, done)
    case Send(data) => SendData(c, h, data)
    case Close => SendClose(h)
    case RunPosted(ok) => RunPost(h, ok)
    case WriteDone(k) => WriteHandler(c, h, k)
    case ManagerCloses => CloseByManager(h)
  }

  predicate CanRun(c: Config, h: Handler, es: seq<Event>)
    decreases |es|
  {
    es == [] || (Enabled(h, es[0]) && CanRun(c, Apply(c, h, es[0]), es[1..]))
  }

  function Exec(c: Config, h: Handler, es: seq<Event>): Handler
    requires CanRun(c, h, es)
    decreases |es|
  {
    if es == [] then h else Exec(c, Apply(c, h, es[0]), es[1..])
  }

  /** A server handler writes application data only. */
  predicate OnlyApp(h: Handler) {
    && (forall i :: 0 <= i < |h.out.wire| ==> h.out.wire[i].kind == App)
    && (forall i :: 0 <= i < |h.out.writing| ==> h.out.writing[i].kind == App)
  }

  ghost predicate SvrInv(c: Config, h: Handler)
    requires ValidConfig(c)
  {
    Inv(c, h) && OnlyApp(h)
  }

  lemma BeginInv(c: Config, h: Handler)
    requires ValidConfig(c) && Inv(c, h) && !h.started
    ensures Inv(c, Begin(c, h))
  {}

  lemma StepCommon(c: Config, h: Handler, e: Event)
    requires ValidConfig(c) && Inv(c, h) && Enabled(h, e)
    ensures Inv(c, Apply(c, h, e))
  {
    match e
    case Start => BeginInv(c, h);
    case ReadDone(k, done) => ReadHandlerInv(c, h, k, done);
    case Send(data) => SendDataInv(c, h, data);
    case Close => SendCloseInv(c, h);
    case RunPosted(ok) => RunPostInv(c, h, ok);
    case WriteDone(k) => WriteHandlerInv(c, h, k);
    case ManagerCloses =>
  }

  lemma StepInv(c: Config, h: Handler, e: Event)
    requires ValidConfig(c) && SvrInv(c, h) && Enabled(h, e)
    ensures SvrInv(c, Apply(c, h, e))
  {
    StepCommon(c, h, e);
    StepOnlyApp(c, h, e);
  }

  lemma StepOnlyApp(c: Config, h: Handler, e: Event)
    requires OnlyApp(h) && PostsAreApp(h.out) && Enabled(h, e)
    ensures OnlyApp(Apply(c, h, e))
  {
    match e
    case RunPosted(_) =>
    case WriteDone(_) =>
    case _ => assert Apply(c, h, e).out.wire == h.out.wire && Apply(c, h, e).out.writing == h.out.writing;
  }

  lemma {:induction false} RunInv(c: Config, h: Handler, es: seq<Event>)
    requires ValidConfig(c) && SvrInv(c, h) && CanRun(c, h, es)
    ensures SvrInv(c, Exec(c, h, es))
    decreases |es|
  {
    if es == [] {
    } else {
      StepInv(c, h, es[0]);
      RunInv(c, Apply(c, h, es[0]), es[1..]);
    }
  }

  // ---- the history of a run ----

  function HappeningOf(e: Event): Happening {
    match e
    case Start => Nothing
    case ReadDone(_, done) => Completed(done)
    case Send(data) => Gave(data)
    case Close => AskedToClose
    case RunPosted(accepts) => PostRan(accepts)
    case WriteDone(_) => Nothing
    case ManagerCloses => ManagerClosed
  }

  function History(es: seq<Event>): seq<Happening> {
    seq(|es|, i requires 0 <= i < |es| => HappeningOf(es[i]))
  }

  lemma StepFollows(c: Config, past: seq<Happening>, h: Handler, e: Event)
    requires ValidConfig(c) && SvrInv(c, h) && Follows(c, past, h) && Enabled(h, e)
    ensures Follows(c, past + [HappeningOf(e)], Apply(c, h, e))
  {
    match e
    case Start => QuietFollows(c, past, h, Begin(c, h));
    case ReadDone(k, done) => ReadFollows(c, past, h, k, done);
    case Send(data) => SendFollows(c, past, h, data);
    case Close => CloseFollows(c, past, h);
    case RunPosted(accepts) => PostFollows(c, past, h, accepts);
    case WriteDone(k) => WriteDoneFollows(c, past, h, k);
    case ManagerCloses => ManagerFollows(c, past, h);
  }

  lemma WriteDoneFollows(c: Config, past: seq<Happening>, h: Handler, k: nat)
    requires ValidConfig(c) && Follows(c, past, h) && k < |h.out.writing|
    ensures Follows(c, past + [Nothing], WriteHandler(c, h, k))
  {
    QuietFollows(c, past, h, WriteHandler(c, h, k));
  }

  lemma HistoryCons(past: seq<Happening>, es: seq<Event>)
    requires es != []
    ensures past + [HappeningOf(es[0])] + History(es[1..]) == past + History(es)
  {}

  /** The invariant and the history, taken together. */
  ghost predicate OnTrack(c: Config, past: seq<Happening>, h: Handler)
    requires ValidConfig(c)
  {
    SvrInv(c, h) && Follows(c, past, h)
  }

  lemma StepOnTrack(c: Config, past: seq<Happening>, h: Handler, e: Event)
    requires ValidConfig(c) && OnTrack(c, past, h) && Enabled(h, e)
    ensures OnTrack(c, past + [HappeningOf(e)], Apply(c, h, e))
  {
    StepInv(c, h, e);
    StepFollows(c, past, h, e);
  }

  lemma {:induction false} RunOnTrack(c: Config, past: seq<Happening>, h: Handler, es: seq<Event>)
    requires ValidConfig(c) && OnTrack(c, past, h) && CanRun(c, h, es)
    ensures OnTrack(c, past + History(es), Exec(c, h, es))
    decreases |es|
  {
    if es == [] {
      assert past + History(es) == past;
    } else {
      StepOnTrack(c, past, h, es[0]);
      RunOnTrack(c, past + [HappeningOf(es[0])], Apply(c, h, es[0]), es[1..]);
      HistoryCons(past, es);
    }
  }

  lemma {:induction false} RunStarts(c: Config, h: Handler, es: seq<Event>)
    requires CanRun(c, h, es)
    ensures Exec(c, h, es).started <==> h.started || Start in es
    decreases |es|
  {
    if es == [] {
    } else {
      StartsOnce(c, h, es[0]);
      RunStarts(c, Apply(c, h, es[0]), es[1..]);
      assert es == [es[0]] + es[1..];
    }
  }

  lemma StartsOnce(c: Config, h: Handler, e: Event)
    requires Enabled(h, e)
    ensures Apply(c, h, e).started <==> h.started || e == Start
  {}

  // ---- main results ----

  /**
   * Every run follows its history: the bytes read, validity, what was given and written, the errors
   * reported and whether the socket is closed are computed from the list of events alone.
   */
  lemma FollowsHistory(c: Config, es: seq<Event>)
    requires ValidConfig(c) && CanRun(c, NEW, es)
    ensures Follows(c, History(es), Exec(c, NEW, es))
    ensures Exec(c, NEW, es).started <==> Start in es
  {
    NewInv(c);
    NewFollows(c);
    RunOnTrack(c, [], NEW, es);
    RunStarts(c, NEW, es);
    assert [] + History(es) == History(es);
  }

  /**
   * The wire carries exactly the data whose post ran while the handler was valid and the hook accepted
   * it, in the order given; everything else that was processed is freed without having been written.
   */
  lemma WritesWhatTheHookAccepts(c: Config, es: seq<Event>, id: nat)
    requires ValidConfig(c) && CanRun(c, NEW, es)
    ensures var o := Exec(c, NEW, es).out;
      && o.given == SendsOf(c, History(es))
      && OnWire(o.wire) == WritesOf(c, History(es))
      && (id < o.nextId && InPosts(o.posts, id) == 0 && (forall pk :: pk in o.wire ==> pk.id != id) ==>
            InFreed(o.freed, id) == 1)
  {
    FollowsHistory(c, es);
    NewInv(c);
    RunInv(c, NEW, es);
    var o := Exec(c, NEW, es).out;
    if forall pk :: pk in o.wire ==> pk.id != id {
      NotWriting(o.writing, o.wire, id);
      assert Places(o, id) == if id < o.nextId then 1 else 0;
    }
  }

  /**
   * The socket is closed if and only if a close post ran while the handler was valid, a read failed or
   * shut the framing, or the manager closed it; and the errors reported are those of the events, one
   * for each cause and in event order.
   */
  lemma ClosesAndReports(c: Config, es: seq<Event>)
    requires ValidConfig(c) && CanRun(c, NEW, es)
    ensures var h, hs := Exec(c, NEW, es), History(es);
      && (!h.socketOpen <==> exists i :: 0 <= i < |hs| && ClosesSocket(c, hs[..i], hs[i]))
      && h.errors == ErrorsOf(c, hs)
      && h.valid == StillValid(c, hs) && h.received == BytesRead(hs)
  {
    FollowsHistory(c, es);
  }

  /**
   * However completions, closes, errors and rejections interleave, a started valid handler has one
   * read outstanding, any other has none, and close_complete_func has been called exactly if the
   * handler has become invalid.
   */
  lemma SingleReadChain(c: Config, es: seq<Event>)
    requires ValidConfig(c) && CanRun(c, NEW, es)
    ensures var h := Exec(c, NEW, es);
      && |h.pending| == (if h.started && h.valid then 1 else 0)
      && h.closeCalls == (if h.valid then 0 else 1)
  {
    NewInv(c);
    RunInv(c, NEW, es);
    NoFirsts(Exec(c, NEW, es).out.writing);
  }

  lemma {:induction false} NoFirsts(ps: seq<Packet>)
    requires forall i :: 0 <= i < |ps| ==> ps[i].kind == App
    ensures Firsts(ps) == 0
  {
    if ps == [] {
    } else {
      NoFirsts(ps[1..]);
    }
  }

  /** The close callback runs in the very step in which the handler becomes invalid. */
  lemma CloseCallbackAtInvalidation(c: Config, h: Handler, e: Event)
    requires Enabled(h, e)
    ensures var h' := Apply(c, h, e);
      && h'.closeCalls == h.closeCalls + (if h.valid && !h'.valid then 1 else 0)
      && (h'.valid ==> h.valid)
  {}

  /**
   * After that no continuation of the run calls it again, takes in a byte, hands over a package or
   * starts a write: what is still posted is freed unwritten.
   */
  lemma {:induction false} InvalidIsFinal(c: Config, h: Handler, more: seq<Event>)
    requires !h.valid && CanRun(c, h, more)
    ensures var h' := Exec(c, h, more);
      && !h'.valid && h'.closeCalls == h.closeCalls
      && h'.received == h.received && h'.receiver == h.receiver && h'.out.wire == h.out.wire
    decreases |more|
  {
    if more == [] {
    } else {
      InvalidIsFinal(c, Apply(c, h, more[0]), more[1..]);
    }
  }

  /**
   * What has been handed to read_pk_full_complete_func is what the reference parser cuts from all
   * bytes read, a framing stop is the parser's stop, and the outstanding request always fits behind
   * the bytes already read, so the buffer pointer is not null and the length check cannot fail.
   */
  lemma ReceivesWhatTheParserCuts(c: Config, es: seq<Event>)
    requires ValidConfig(c) && CanRun(c, NEW, es)
    ensures var h := Exec(c, NEW, es); var p := Parse(c, [], h.received);
      && h.receiver.delivered == p.delivered
      && (h.stopped.Some? ==> p.status == Stopped(h.stopped.value) && h.stopped != Some(LengthOverflow))
      && (forall k :: 0 <= k < |h.pending| ==>
            && h.receiver.buffer == p.rest
            && |h.receiver.buffer| + h.pending[k] <= c.capacity
            && (h.pending[k] > 0 ==> |h.receiver.buffer| < c.capacity))
  {
    NewInv(c);
    RunInv(c, NEW, es);
    RestIsPending(c, [], Exec(c, NEW, es).received);
    NoFirsts(Exec(c, NEW, es).out.writing);
  }

  /** Every package allocated for sending is posted, being written or freed, and freed at most once. */
  lemma SendBuffersConserved(c: Config, es: seq<Event>, id: nat)
    requires ValidConfig(c) && CanRun(c, NEW, es)
    ensures var o := Exec(c, NEW, es).out;
      && Places(o, id) == (if id < o.nextId then 1 else 0)
      && InFreed(o.freed, id) <= 1
  {
    NewInv(c);
    RunInv(c, NEW, es);
  }

  lemma StaysInOrder(c: Config, es: seq<Event>)
    requires ValidConfig(c) && CanRun(c, NEW, es)
    ensures var h := Exec(c, NEW, es); InOrder(h.out, h.valid) && AllData(h.out.wire) == AppData(h.out.wire)
  {
    NewInv(c);
    RunInv(c, NEW, es);
    OnlyAppData(Exec(c, NEW, es).out.wire);
  }

  lemma FatesFollow(c: Config, es: seq<Event>)
    requires ValidConfig(c) && CanRun(c, NEW, es)
    ensures Exec(c, NEW, es).out.fates == FatesOf(c, History(es))
  {
    FollowsHistory(c, es);
  }

  lemma NoRefusals(c: Config, es: seq<Event>)
    requires ValidConfig(c) && RunPosted(false) !in es
    ensures Refused !in FatesOf(c, History(es))
  {
    NobodyRefused(c, History(es));
  }

  /**
   * Data is processed in the order in which it was given, and the wire has exactly what the hook
   * accepted while the handler was valid, whole, unchanged and in that order: whatever came after the
   * close came too late. If the hook refuses nothing, this is a prefix of what was given.
   */
  lemma WritesInOrder(c: Config, es: seq<Event>)
    requires ValidConfig(c) && CanRun(c, NEW, es)
    ensures var h := Exec(c, NEW, es); var o := h.out;
      && o.given == o.processed + PostedData(o.posts)
      && |o.fates| == |o.processed|
      && AllData(o.wire) == Selected(o.processed, o.fates)
      && LateComeLast(o.fates) && (h.valid ==> TooLate !in o.fates)
      && o.fates == FatesOf(c, History(es))
      && (Refused !in o.fates ==> AllData(o.wire) <= o.given)
      && (RunPosted(false) !in es ==> Refused !in o.fates)
  {
    StaysInOrder(c, es);
    FatesFollow(c, es);
    if RunPosted(false) !in es { NoRefusals(c, es); }
    var h := Exec(c, NEW, es);
    if Refused !in h.out.fates {
      UnrefusedIsPrefix(h.out, h.valid);
    }
  }
}
