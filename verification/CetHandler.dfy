/**
 * The client side of a TCP connection: the common handler plus a first package written before the
 * read chain starts, periodic heart-jump writes, and a reconnect callback on close.
 */
module CetHandler {
  import opened Bytes
  import opened Framing
  import opened Sending
  import opened Handlers
  import opened Histories

  /** The constants of the parser: a heart-jump interval of 0 means none are sent. */
  datatype Settings = Settings(config: Config, heartInterval: nat, heartData: Bytes)

  datatype Client = Client(h: Handler, timerArmed: bool, reconnects: nat)

  const NEW_CLIENT := Client(NEW, false, 0)

  /** What make_first_sended_package_func answers: an error, or the (possibly empty) package. */
  datatype FirstPackage = Refuse | Make(data: Bytes)

  /** start, called once, after the connect: data may have been posted before. */
  function Begin(s: Settings, x: Client, first: FirstPackage): Client {
    var h := x.h.(started := true);
    match first
    case Refuse =>
      var h1 := h.(out := AllocateAndFree(h.out));
      x.(h := CloseCompleted(CloseSocket(Report(h1, ByHook))), reconnects := x.reconnects + 1)
    case Make(data) =>
      var h1 :=
        if data == [] then Read(h.(out := AllocateAndFree(h.out)), s.config.headerSize)
        else h.(out := WriteNew(h.out, First, data));
      x.(h := h1, timerArmed := x.timerArmed || s.heartInterval > 0)
  }

  /** A common callback; close_completed ends with the reconnect callback. */
  function Common(x: Client, h: Handler): Client {
    x.(h := h, reconnects := if h.closeCalls > x.h.closeCalls then x.reconnects + 1 else x.reconnects)
  }

  /** time_out_handler: writes a heart-jump, valid or not, and re-arms, unless it does not fit. */
  function TimeOut(s: Settings, x: Client, error: bool): Client {
    if error || |s.heartData| > s.config.capacity then x.(timerArmed := false)
    else x.(h := x.h.(out := WriteNew(x.h.out, Heart, s.heartData)))
  }

  class TcpCetHandler {
    const s: Settings
    const link: TcpHandler
    var timerArmed: bool
    var reconnects: nat

    ghost predicate Valid()
      reads this, link, link.revMgr
    {
      link.Valid() && link.c == s.config
    }

    ghost function State(): Client
      requires Valid()
      reads this, link, link.revMgr, link.revMgr.data
    {
      Client(link.State(), timerArmed, reconnects)
    }

    constructor (settings: Settings)
      requires ValidConfig(settings.config)
      ensures s == settings && Valid() && State() == NEW_CLIENT
      ensures fresh(link) && fresh(link.revMgr) && fresh(link.revMgr.data)
    {
      s := settings;
      link := new TcpHandler(settings.config);
      timerArmed, reconnects := false, 0;
    }

    method Reconnect()
      modifies this`reconnects
      ensures reconnects == old(reconnects) + 1
    {
      reconnects := reconnects + 1;
    }

    method Start(first: FirstPackage)
      requires Valid()
      modifies this`timerArmed, this`reconnects, link
      ensures Valid() && State() == Begin(s, old(State()), first)
    {
      if first.Refuse? {
        link.Begin(false);
        link.out := AllocateAndFree(link.out);
        link.CatchError(ByHook);
        link.CloseTheSocket();
        link.Completed();
        Reconnect();
        return;
      }
      if |first.data| == 0 {
        link.out := AllocateAndFree(link.out);
        link.Begin(true);
      } else {
        link.Begin(false);
        link.out := WriteNew(link.out, First, first.data);
      }
      if s.heartInterval > 0 {
        timerArmed := true;
      }
    }

    method OnRead(k: nat, done: Completion)
      requires Valid() && CanComplete(link.State(), k, done)
      modifies this, link, link.revMgr, link.revMgr.data
      ensures Valid() && State() == Common(old(State()), ReadHandler(s.config, old(link.State()), k, done))
    {
      var closes := link.closeCalls;
      link.OnRead(k, done);
      if link.closeCalls > closes {
        Reconnect();
      }
    }

    method OnTimeOut(error: bool)
      requires Valid()
      modifies this`timerArmed, link`out
      ensures Valid() && State() == TimeOut(s, old(State()), error)
    {
      if error || |s.heartData| > s.config.capacity {
        timerArmed := false;
        return;
      }
      link.out := WriteNew(link.out, Heart, s.heartData);
    }
  }

  // ---- every run of one handler ----

  datatype Event =
    | Start(first: FirstPackage)
    | ReadDone(k: nat, done: Completion)
    | Send(data: Bytes)
    | Close
    | RunPosted(hookAccepts: bool)
    | WriteDone(k: nat)
    | Timer(error: bool)

  predicate Enabled(x: Client, e: Event) {
    match e
    case Start(_) => !x.h.started
    case ReadDone(k, done) => CanComplete(x.h, k, done)
    case Send(_) => true
    case Close => true
    case RunPosted(_) => x.h.out.posts != []
    case WriteDone(k) => k < |x.h.out.writing|
    case Timer(_) => x.timerArmed
  }

  function Apply(s: Settings, x: Client, e: Event): Client
    requires Enabled(x, e)
  {
    match e
    case Start(first) => Begin(s, x, first)
    case ReadDone(k, done) => Common(x, ReadHandler(s.config, x.h, k, done))
    case Send(data) => Common(x, SendData(s.config, x.h, data))
    case Close => Common(x, SendClose(x.h))
    case RunPosted(ok) => Common(x, RunPost(x.h, ok))
    case WriteDone(k) => Common(x, WriteHandler(s.config, x.h, k))
    case Timer(error) => TimeOut(s, x, error)
  }

  predicate CanRun(s: Settings, x: Client, es: seq<Event>)
    decreases |es|
  {
    es == [] || (Enabled(x, es[0]) && CanRun(s, Apply(s, x, es[0]), es[1..]))
  }

  function Exec(s: Settings, x: Client, es: seq<Event>): Client
    requires CanRun(s, x, es)
    decreases |es|
  {
    if es == [] then x else Exec(s, Apply(s, x, es[0]), es[1..])
  }

  ghost predicate ClientInv(s: Settings, x: Client)
    requires ValidConfig(s.config)
  {
    Inv(s.config, x.h) && x.reconnects == x.h.closeCalls
  }

  lemma BeginInv(s: Settings, x: Client, first: FirstPackage)
    requires ValidConfig(s.config) && ClientInv(s, x) && !x.h.started
    ensures ClientInv(s, Begin(s, x, first))
  {
    AllocateAndFreeKeeps(x.h.out, x.h.valid);
    if first.Make? {
      WriteNewKeeps(x.h.out, First, first.data, true);
    }
  }

  lemma TimeOutInv(s: Settings, x: Client, error: bool)
    requires ValidConfig(s.config) && ClientInv(s, x)
    ensures ClientInv(s, TimeOut(s, x, error))
  {
    WriteNewKeeps(x.h.out, Heart, s.heartData, x.h.valid);
  }

  /** Starting and closing are final. */
  lemma StepIsForward(s: Settings, x: Client, e: Event)
    requires Enabled(x, e)
    ensures Apply(s, x, e).h.valid ==> x.h.valid
    ensures Apply(s, x, e).h.closeCalls >= x.h.closeCalls
    ensures x.h.started ==> Apply(s, x, e).h.started
  {}

  lemma StepInv(s: Settings, x: Client, e: Event)
    requires ValidConfig(s.config) && ClientInv(s, x) && Enabled(x, e)
    ensures ClientInv(s, Apply(s, x, e))
  {
    match e
    case Start(first) => BeginInv(s, x, first);
    case ReadDone(k, done) => ReadHandlerInv(s.config, x.h, k, done);
    case Send(data) => SendDataInv(s.config, x.h, data);
    case Close => SendCloseInv(s.config, x.h);
    case RunPosted(ok) => RunPostInv(s.config, x.h, ok);
    case WriteDone(k) => WriteHandlerInv(s.config, x.h, k);
    case Timer(error) => TimeOutInv(s, x, error);
  }

  lemma {:induction false} RunInv(s: Settings, x: Client, es: seq<Event>)
    requires ValidConfig(s.config) && ClientInv(s, x) && CanRun(s, x, es)
    ensures ClientInv(s, Exec(s, x, es))
    decreases |es|
  {
    if es == [] {
    } else {
      StepInv(s, x, es[0]);
      RunInv(s, Apply(s, x, es[0]), es[1..]);
    }
  }

  // ---- the history of a run ----

  function HappeningOf(s: Settings, e: Event): Happening {
    match e
    case Start(Refuse) => FirstRefused
    case Start(Make(data)) => FirstMade(data)
    case ReadDone(_, done) => Completed(done)
    case Send(data) => Gave(data)
    case Close => AskedToClose
    case RunPosted(accepts) => PostRan(accepts)
    case WriteDone(_) => Nothing
    case Timer(error) => Beat(error, s.heartData)
  }

  function History(s: Settings, es: seq<Event>): seq<Happening> {
    seq(|es|, i requires 0 <= i < |es| => HappeningOf(s, es[i]))
  }

  lemma StartFollows(s: Settings, past: seq<Happening>, x: Client, first: FirstPackage)
    requires ValidConfig(s.config) && Follows(s.config, past, x.h)
    ensures Follows(s.config, past + [HappeningOf(s, Start(first))], Begin(s, x, first).h)
  {
    var h' := Begin(s, x, first).h;
    match first
    case Make(data) => WriteFollows(s.config, past, x.h, h', FirstMade(data), First);
    case Refuse =>
      OutboxUntouched(s.config, past, FirstRefused, x.h, h');
      Snoc(s.config, past, FirstRefused);
      SnocClosed(s.config, past, FirstRefused);
  }

  lemma WriteDoneFollows(s: Settings, past: seq<Happening>, h: Handler, k: nat)
    requires ValidConfig(s.config) && Follows(s.config, past, h) && k < |h.out.writing|
    ensures Follows(s.config, past + [Nothing], WriteHandler(s.config, h, k))
  {
    QuietFollows(s.config, past, h, WriteHandler(s.config, h, k));
  }

  lemma TimerFollows(s: Settings, past: seq<Happening>, x: Client, error: bool)
    requires ValidConfig(s.config) && Follows(s.config, past, x.h)
    ensures Follows(s.config, past + [Beat(error, s.heartData)], TimeOut(s, x, error).h)
  {
    WriteFollows(s.config, past, x.h, TimeOut(s, x, error).h, Beat(error, s.heartData), Heart);
  }

  lemma PostRunFollows(s: Settings, past: seq<Happening>, x: Client, accepts: bool)
    requires ValidConfig(s.config) && ClientInv(s, x) && Follows(s.config, past, x.h) && x.h.out.posts != []
    ensures Follows(s.config, past + [PostRan(accepts)], RunPost(x.h, accepts))
  {
    PostFollows(s.config, past, x.h, accepts);
  }

  lemma StepFollows(s: Settings, past: seq<Happening>, x: Client, e: Event)
    requires ValidConfig(s.config) && ClientInv(s, x) && Follows(s.config, past, x.h) && Enabled(x, e)
    ensures Follows(s.config, past + [HappeningOf(s, e)], Apply(s, x, e).h)
  {
    match e
    case Start(first) => StartFollows(s, past, x, first);
    case ReadDone(k, done) => ReadFollows(s.config, past, x.h, k, done);
    case Send(data) => SendFollows(s.config, past, x.h, data);
    case Close => CloseFollows(s.config, past, x.h);
    case RunPosted(accepts) => PostRunFollows(s, past, x, accepts);
    case WriteDone(k) => WriteDoneFollows(s, past, x.h, k);
    case Timer(error) => TimerFollows(s, past, x, error);
  }

  lemma HistoryCons(s: Settings, past: seq<Happening>, es: seq<Event>)
    requires es != []
    ensures past + [HappeningOf(s, es[0])] + History(s, es[1..]) == past + History(s, es)
  {}

  /** The invariant and the history, taken together. */
  ghost predicate OnTrack(s: Settings, past: seq<Happening>, x: Client)
    requires ValidConfig(s.config)
  {
    ClientInv(s, x) && Follows(s.config, past, x.h)
  }

  lemma StepOnTrack(s: Settings, past: seq<Happening>, x: Client, e: Event)
    requires ValidConfig(s.config) && OnTrack(s, past, x) && Enabled(x, e)
    ensures OnTrack(s, past + [HappeningOf(s, e)], Apply(s, x, e))
  {
    StepInv(s, x, e);
    StepFollows(s, past, x, e);
  }

  lemma {:induction false} RunOnTrack(s: Settings, past: seq<Happening>, x: Client, es: seq<Event>)
    requires ValidConfig(s.config) && OnTrack(s, past, x) && CanRun(s, x, es)
    ensures OnTrack(s, past + History(s, es), Exec(s, x, es))
    decreases |es|
  {
    if es == [] {
      assert past + History(s, es) == past;
    } else {
      StepOnTrack(s, past, x, es[0]);
      RunOnTrack(s, past + [HappeningOf(s, es[0])], Apply(s, x, es[0]), es[1..]);
      HistoryCons(s, past, es);
    }
  }

  /** A start with a first package, be it empty. */
  predicate Makes(e: Event) {
    e.Start? && e.first.Make?
  }

  /** An expiry after which no further heart-jump is due. */
  predicate StopsTimer(s: Settings, e: Event) {
    e.Timer? && (e.error || |s.heartData| > s.config.capacity)
  }

  predicate SomeMakes(es: seq<Event>) {
    exists e :: e in es && Makes(e)
  }

  predicate SomeStopsTimer(s: Settings, es: seq<Event>) {
    exists e :: e in es && StopsTimer(s, e)
  }

  lemma Cons(s: Settings, es: seq<Event>)
    requires es != []
    ensures SomeMakes(es) <==> Makes(es[0]) || SomeMakes(es[1..])
    ensures SomeStopsTimer(s, es) <==> StopsTimer(s, es[0]) || SomeStopsTimer(s, es[1..])
  {
    assert es[0] in es && (forall e :: e in es <==> e == es[0] || e in es[1..]);
  }

  lemma TimerStep(s: Settings, x: Client, e: Event)
    requires Enabled(x, e) && (!x.h.started ==> !x.timerArmed)
    ensures var x' := Apply(s, x, e);
      && (!x'.h.started ==> !x'.timerArmed)
      && (x'.h.started <==> x.h.started || e.Start?)
      && x'.timerArmed == if Makes(e) then s.heartInterval > 0 else x.timerArmed && !StopsTimer(s, e)
  {}

  lemma {:induction false} TimerRun(s: Settings, x: Client, es: seq<Event>)
    requires CanRun(s, x, es) && (!x.h.started ==> !x.timerArmed)
    ensures Exec(s, x, es).timerArmed <==>
      (if x.h.started then x.timerArmed else s.heartInterval > 0 && SomeMakes(es)) && !SomeStopsTimer(s, es)
    ensures x.h.started || (SomeMakes(es) && s.heartInterval > 0) || !SomeStopsTimer(s, es)
    ensures x.h.started ==> !SomeMakes(es) && (x.timerArmed || !SomeStopsTimer(s, es))
    decreases |es|
  {
    if es == [] {
    } else {
      TimerStep(s, x, es[0]);
      Cons(s, es);
      TimerRun(s, Apply(s, x, es[0]), es[1..]);
    }
  }

  // ---- main results, for every run ----

  /** Every run of a client follows its history. */
  lemma FollowsHistory(s: Settings, es: seq<Event>)
    requires ValidConfig(s.config) && CanRun(s, NEW_CLIENT, es)
    ensures Follows(s.config, History(s, es), Exec(s, NEW_CLIENT, es).h)
  {
    NewInv(s.config);
    NewFollows(s.config);
    RunOnTrack(s, [], NEW_CLIENT, es);
    assert [] + History(s, es) == History(s, es);
  }

  /**
   * After any run a heart-jump is due if and only if an interval is set, the handler was started with
   * a first package, and no expiry failed or had data that does not fit.
   */
  lemma HeartbeatsGoOn(s: Settings, es: seq<Event>)
    requires CanRun(s, NEW_CLIENT, es)
    ensures Exec(s, NEW_CLIENT, es).timerArmed <==>
      s.heartInterval > 0 && SomeMakes(es) && !SomeStopsTimer(s, es)
  {
    TimerRun(s, NEW_CLIENT, es);
  }

  /**
   * The wire carries exactly the first package if it is not empty, the heart-jump data for every
   * expiry, and the data whose post ran while the handler was valid and the hook accepted it, in
   * event order; everything else that was processed is freed without having been written.
   */
  lemma WritesWhatTheHookAccepts(s: Settings, es: seq<Event>, id: nat)
    requires ValidConfig(s.config) && CanRun(s, NEW_CLIENT, es)
    ensures var o := Exec(s, NEW_CLIENT, es).h.out;
      && o.given == SendsOf(s.config, History(s, es))
      && OnWire(o.wire) == WritesOf(s.config, History(s, es))
      && (id < o.nextId && InPosts(o.posts, id) == 0 && (forall pk :: pk in o.wire ==> pk.id != id) ==>
            InFreed(o.freed, id) == 1)
  {
    FollowsHistory(s, es);
    Reached(s, es);
    var o := Exec(s, NEW_CLIENT, es).h.out;
    if forall pk :: pk in o.wire ==> pk.id != id {
      NotWriting(o.writing, o.wire, id);
      assert Places(o, id) == if id < o.nextId then 1 else 0;
    }
  }

  /**
   * The socket is closed if and only if a close post ran while the handler was valid, a read failed or
   * shut the framing, or the first package was refused; and the errors reported are those of the
   * events, one for each cause and in event order.
   */
  lemma ClosesAndReports(s: Settings, es: seq<Event>)
    requires ValidConfig(s.config) && CanRun(s, NEW_CLIENT, es)
    ensures var h, hs := Exec(s, NEW_CLIENT, es).h, History(s, es);
      && (!h.socketOpen <==> exists i :: 0 <= i < |hs| && ClosesSocket(s.config, hs[..i], hs[i]))
      && h.errors == ErrorsOf(s.config, hs)
      && h.valid == StillValid(s.config, hs) && h.received == BytesRead(hs)
  {
    FollowsHistory(s, es);
  }

  lemma Reached(s: Settings, es: seq<Event>)
    requires ValidConfig(s.config) && CanRun(s, NEW_CLIENT, es)
    ensures ClientInv(s, Exec(s, NEW_CLIENT, es))
  {
    NewInv(s.config);
    RunInv(s, NEW_CLIENT, es);
  }

  /**
   * A started valid handler has exactly one read or first-package write outstanding, any other has
   * none, and the reconnect callback has run once if the handler is invalid and never before.
   */
  lemma SingleReadChain(s: Settings, es: seq<Event>)
    requires ValidConfig(s.config) && CanRun(s, NEW_CLIENT, es)
    ensures var x := Exec(s, NEW_CLIENT, es);
      && |x.h.pending| + Firsts(x.h.out.writing) == (if x.h.started && x.h.valid then 1 else 0)
      && x.reconnects == x.h.closeCalls == (if x.h.valid then 0 else 1)
  {
    Reached(s, es);
  }

  /** Reconnecting happens in the very step in which the handler becomes invalid. */
  lemma ReconnectAtInvalidation(s: Settings, es: seq<Event>, e: Event)
    requires ValidConfig(s.config) && CanRun(s, NEW_CLIENT, es) && Enabled(Exec(s, NEW_CLIENT, es), e)
    ensures var x := Exec(s, NEW_CLIENT, es); var x' := Apply(s, x, e);
      && x'.reconnects == x.reconnects + (if x.h.valid && !x'.h.valid then 1 else 0)
      && (x'.h.valid ==> x.h.valid)
  {
    Reached(s, es);
    StepInv(s, Exec(s, NEW_CLIENT, es), e);
    StepIsForward(s, Exec(s, NEW_CLIENT, es), e);
  }

  /** What the later events of a closed handler leave alone: they write heart-jumps at most. */
  predicate SameButSends(x: Client, x': Client) {
    && x'.h.started && !x'.h.valid && x'.reconnects == x.reconnects
    && x'.h.received == x.h.received && x'.h.receiver == x.h.receiver
    && AppData(x'.h.out.wire) == AppData(x.h.out.wire)
  }

  lemma ClosedStep(s: Settings, x: Client, e: Event)
    requires x.h.started && !x.h.valid && Enabled(x, e)
    ensures SameButSends(x, Apply(s, x, e))
  {
    if e.Timer? {
      AppDataAppend(x.h.out.wire, Packet(x.h.out.nextId, Heart, s.heartData));
    } else {
      assert Apply(s, x, e).h.out.wire == x.h.out.wire;
    }
  }

  lemma {:induction false} ClosedRun(s: Settings, x: Client, more: seq<Event>)
    requires x.h.started && !x.h.valid && CanRun(s, x, more)
    ensures SameButSends(x, Exec(s, x, more))
    decreases |more|
  {
    if more == [] {
    } else {
      ClosedStep(s, x, more[0]);
      ClosedRun(s, Apply(s, x, more[0]), more[1..]);
    }
  }

  /**
   * After a run that has closed, no continuation reconnects again for this handler, takes in a byte,
   * hands over a package or writes application data.
   */
  lemma ClosedIsFinal(s: Settings, es: seq<Event>, more: seq<Event>)
    requires ValidConfig(s.config) && CanRun(s, NEW_CLIENT, es) && !Exec(s, NEW_CLIENT, es).h.valid
    requires CanRun(s, Exec(s, NEW_CLIENT, es), more)
    ensures var x := Exec(s, NEW_CLIENT, es); var x' := Exec(s, x, more);
      && !x'.h.valid && x'.reconnects == x.reconnects == 1
      && x'.h.received == x.h.received && x'.h.receiver == x.h.receiver
      && AppData(x'.h.out.wire) == AppData(x.h.out.wire)
  {
    Reached(s, es);
    ClosedRun(s, Exec(s, NEW_CLIENT, es), more);
  }

  /** Application data, heart-jumps and the first package alike: each in one place, freed once. */
  lemma SendBuffersConserved(s: Settings, es: seq<Event>, id: nat)
    requires ValidConfig(s.config) && CanRun(s, NEW_CLIENT, es)
    ensures var o := Exec(s, NEW_CLIENT, es).h.out;
      && Places(o, id) == (if id < o.nextId then 1 else 0)
      && InFreed(o.freed, id) <= 1
  {
    Reached(s, es);
  }

  lemma StaysInOrder(s: Settings, es: seq<Event>)
    requires ValidConfig(s.config) && CanRun(s, NEW_CLIENT, es)
    ensures var h := Exec(s, NEW_CLIENT, es).h; InOrder(h.out, h.valid)
  {
    Reached(s, es);
  }

  lemma FatesFollow(s: Settings, es: seq<Event>)
    requires ValidConfig(s.config) && CanRun(s, NEW_CLIENT, es)
    ensures Exec(s, NEW_CLIENT, es).h.out.fates == FatesOf(s.config, History(s, es))
  {
    FollowsHistory(s, es);
  }

  lemma NoRefusals(s: Settings, es: seq<Event>)
    requires ValidConfig(s.config) && RunPosted(false) !in es
    ensures Refused !in FatesOf(s.config, History(s, es))
  {
    NobodyRefused(s.config, History(s, es));
  }

  /**
   * Between the first package and heart-jumps the wire has exactly the application data that the hook
   * accepted while the handler was valid, in the order in which it was given.
   */
  lemma WritesInOrder(s: Settings, es: seq<Event>)
    requires ValidConfig(s.config) && CanRun(s, NEW_CLIENT, es)
    ensures var h := Exec(s, NEW_CLIENT, es).h; var o := h.out;
      && o.given == o.processed + PostedData(o.posts)
      && |o.fates| == |o.processed|
      && AppData(o.wire) == Selected(o.processed, o.fates)
      && LateComeLast(o.fates) && (h.valid ==> TooLate !in o.fates)
      && o.fates == FatesOf(s.config, History(s, es))
      && (Refused !in o.fates ==> AppData(o.wire) <= o.given)
      && (RunPosted(false) !in es ==> Refused !in o.fates)
  {
    StaysInOrder(s, es);
    FatesFollow(s, es);
    if RunPosted(false) !in es { NoRefusals(s, es); }
    var h := Exec(s, NEW_CLIENT, es).h;
    if Refused !in h.out.fates {
      UnrefusedIsPrefix(h.out, h.valid);
    }
  }

  /** The client hands over exactly the packages of the bytes it has read. */
  lemma ReceivesWhatTheParserCuts(s: Settings, es: seq<Event>)
    requires ValidConfig(s.config) && CanRun(s, NEW_CLIENT, es)
    ensures var h := Exec(s, NEW_CLIENT, es).h; var p := Parse(s.config, [], h.received);
      && h.receiver.delivered == p.delivered
      && (h.stopped.Some? ==> p.status == Stopped(h.stopped.value) && h.stopped != Some(LengthOverflow))
      && (h.pending != [] ==>
            && h.receiver.buffer == p.rest
            && |h.receiver.buffer| + h.pending[0] <= s.config.capacity)
  {
    Reached(s, es);
    RestIsPending(s.config, [], Exec(s, NEW_CLIENT, es).h.received);
  }
}
