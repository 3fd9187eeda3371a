/**
 * The TCP client: one connection attempt at a time, retries with exponential backoff, and a new
 * attempt whenever a handler closes.
 */
module TcpClients {
  import opened Bytes
  import opened Framing
  import opened Sending
  import opened Handlers
  import opened C = CetHandler

  /** The retry constants of the parser, and the settings of its handlers. */
  datatype Params = Params(base: nat, max: nat, settings: Settings)

  datatype Reason = NoRetry | RejectedByHook | TimerError

  /** The client object; attempts and timers are counted so that two of them could be told. */
  datatype Line = Line(
    retryDelay: int,
    connecting: nat,          // outstanding async_connects
    timers: nat,              // armed retry timers
    stopped: Option<Reason>,
    scheduled: seq<int>)      // every delay ever scheduled

  datatype Connected = ConnectFailed | HookRejects | HookAccepts

  function StartConnect(l: Line): Line {
    l.(connecting := l.connecting + 1)
  }

  function Reconnect(p: Params, l: Line): Line {
    StartConnect(l.(retryDelay := p.base))
  }

  function Doubled(p: Params, delay: int): int {
    if delay * 2 > p.max then p.max else delay * 2
  }

  /** connect_handler, up to the start of the handler. */
  function ConnectHandler(p: Params, l: Line, done: Connected): Line
    requires l.connecting > 0
  {
    var l1 := l.(connecting := l.connecting - 1);
    match done
    case HookAccepts => l1
    case HookRejects => l1.(stopped := Some(RejectedByHook))
    case ConnectFailed =>
      if p.base == 0 then l1.(stopped := Some(NoRetry))
      else
        var delay := Doubled(p, l.retryDelay);
        l1.(retryDelay := delay, timers := l.timers + 1, scheduled := l.scheduled + [delay])
  }

  function TimeOutHandler(l: Line, error: bool): Line
    requires l.timers > 0
  {
    var l1 := l.(timers := l.timers - 1);
    if error then l1.(stopped := Some(TimerError)) else StartConnect(l1)
  }

  class TcpClient {
    const p: Params
    var retryDelay: int
    var connecting: nat
    var timers: nat
    var stopped: Option<Reason>
    var scheduled: seq<int>

    function State(): Line
      reads this
    {
      Line(retryDelay, connecting, timers, stopped, scheduled)
    }

    constructor (params: Params)
      ensures p == params && State() == Initial(params)
    {
      p := params;
      retryDelay, connecting, timers, stopped, scheduled := params.base, 0, 0, None, [];
      new;
      Connect();
    }

    method Connect()
      modifies this`connecting
      ensures State() == StartConnect(old(State()))
    {
      connecting := connecting + 1;
    }

    method OnReconnect()
      modifies this
      ensures State() == Reconnect(p, old(State()))
      ensures retryDelay == p.base && connecting == old(connecting) + 1
      ensures timers == old(timers) && stopped == old(stopped) && scheduled == old(scheduled)
    {
      retryDelay := p.base;
      Connect();
    }

    method OnConnect(done: Connected) returns (startHandler: bool)
      requires connecting > 0
      modifies this
      ensures State() == ConnectHandler(p, old(State()), done)
      ensures startHandler <==> done == HookAccepts
      ensures connecting == old(connecting) - 1
      ensures done == HookAccepts ==> retryDelay == old(retryDelay) && timers == old(timers) && stopped == old(stopped)
      ensures done == HookRejects ==> timers == old(timers) && stopped == Some(RejectedByHook)
      ensures done == ConnectFailed && p.base == 0 ==> timers == old(timers) && stopped == Some(NoRetry)
      ensures done == ConnectFailed && p.base > 0 ==>
        timers == old(timers) + 1 && stopped == old(stopped) &&
        retryDelay == Min(2 * old(retryDelay), p.max) && scheduled == old(scheduled) + [retryDelay]
    {
      connecting := connecting - 1;
      startHandler := false;
      match done
      case HookAccepts => startHandler := true;
      case HookRejects => stopped := Some(RejectedByHook);
      case ConnectFailed =>
        if p.base == 0 {
          stopped := Some(NoRetry);
          return;
        }
        retryDelay := retryDelay * 2;
        if retryDelay > p.max {
          retryDelay := p.max;
        }
        ScheduleTimer(retryDelay);
    }

    method ScheduleTimer(delay: int)
      modifies this`timers, this`scheduled
      ensures State() == old(State()).(timers := old(timers) + 1, scheduled := old(scheduled) + [delay])
    {
      timers := timers + 1;
      scheduled := scheduled + [delay];
    }

    method OnTimeOut(error: bool)
      requires timers > 0
      modifies this
      ensures State() == TimeOutHandler(old(State()), error)
      ensures timers == old(timers) - 1 && retryDelay == old(retryDelay)
      ensures connecting == old(connecting) + (if error then 0 else 1)
      ensures stopped == if error then Some(TimerError) else old(stopped)
    {
      timers := timers - 1;
      if error {
        stopped := Some(TimerError);
      } else {
        Connect();
      }
    }
  }

  function Initial(p: Params): Line {
    StartConnect(Line(p.base, 0, 0, None, []))
  }

  // ---- the client together with every handler it ever started ----

  datatype System = System(line: Line, handlers: seq<Client>)

  /** `before` is what happened to the handler before its start: the success hook may have sent data. */
  datatype Event =
    | ConnectDone(done: Connected, before: seq<C.Event>, first: FirstPackage)
    | TimerDone(error: bool)
    | AtHandler(j: nat, e: C.Event)

  /** Events of a new handler that do not start it. */
  predicate Unstarted(p: Params, before: seq<C.Event>) {
    C.CanRun(p.settings, NEW_CLIENT, before) && !C.Exec(p.settings, NEW_CLIENT, before).h.started
  }

  /** The handler right after its start. */
  function Begun(p: Params, before: seq<C.Event>, first: FirstPackage): Client
    requires Unstarted(p, before)
  {
    C.Begin(p.settings, C.Exec(p.settings, NEW_CLIENT, before), first)
  }

  predicate Enabled(p: Params, s: System, e: Event) {
    match e
    case ConnectDone(_, before, _) => s.line.connecting > 0 && Unstarted(p, before)
    case TimerDone(_) => s.line.timers > 0
    case AtHandler(j, ev) => j < |s.handlers| && C.Enabled(s.handlers[j], ev)
  }

  function Apply(p: Params, s: System, e: Event): System
    requires Enabled(p, s, e)
  {
    match e
    case ConnectDone(done, before, first) =>
      var line := ConnectHandler(p, s.line, done);
      if done != HookAccepts then s.(line := line)
      else
        var x := Begun(p, before, first);
        System(if x.reconnects > 0 then Reconnect(p, line) else line, s.handlers + [x])
    case TimerDone(error) => s.(line := TimeOutHandler(s.line, error))
    case AtHandler(j, ev) =>
      var x := C.Apply(p.settings, s.handlers[j], ev);
      System(if x.reconnects > s.handlers[j].reconnects then Reconnect(p, s.line) else s.line,
             s.handlers[j := x])
  }

  predicate CanRun(p: Params, s: System, es: seq<Event>)
    decreases |es|
  {
    es == [] || (Enabled(p, s, es[0]) && CanRun(p, Apply(p, s, es[0]), es[1..]))
  }

  function Exec(p: Params, s: System, es: seq<Event>): System
    requires CanRun(p, s, es)
    decreases |es|
  {
    if es == [] then s else Exec(p, Apply(p, s, es[0]), es[1..])
  }

  function Start(p: Params): System {
    System(Initial(p), [])
  }

  // ---- the connection token ----

  function IsLive(x: Client): nat { if x.h.started && x.h.valid then 1 else 0 }

  function Live(xs: seq<Client>): nat {
    if xs == [] then 0 else IsLive(xs[0]) + Live(xs[1..])
  }

  function Tokens(s: System): nat {
    s.line.connecting + s.line.timers + Live(s.handlers) + (if s.line.stopped.Some? then 1 else 0)
  }

  lemma {:induction false} LiveAppend(xs: seq<Client>, x: Client)
    ensures Live(xs + [x]) == Live(xs) + IsLive(x)
  {
    if xs == [] {
    } else {
      assert (xs + [x])[1..] == xs[1..] + [x];
      LiveAppend(xs[1..], x);
    }
  }

  lemma {:induction false} LiveUpdate(xs: seq<Client>, j: nat, x: Client)
    requires j < |xs|
    ensures Live(xs[j := x]) == Live(xs) - IsLive(xs[j]) + IsLive(x)
  {
    if j == 0 {
      assert xs[j := x][1..] == xs[1..];
    } else {
      assert xs[j := x][1..] == xs[1..][j - 1 := x];
      LiveUpdate(xs[1..], j - 1, x);
    }
  }

  lemma {:induction false} TwoLive(xs: seq<Client>, i: nat, j: nat)
    requires i < j < |xs| && IsLive(xs[i]) == IsLive(xs[j]) == 1
    ensures Live(xs) >= 2
  {
    if i == 0 {
      OneLive(xs[1..], j - 1);
    } else {
      TwoLive(xs[1..], i - 1, j - 1);
    }
  }

  lemma {:induction false} OneLive(xs: seq<Client>, j: nat)
    requires j < |xs| && IsLive(xs[j]) == 1
    ensures Live(xs) >= 1
  {
    if j == 0 {
    } else {
      OneLive(xs[1..], j - 1);
    }
  }

  // ---- the backoff ----

  function Pow2(k: nat): nat {
    if k == 0 then 1 else 2 * Pow2(k - 1)
  }

  function Min(a: int, b: int): int { if a <= b then a else b }

  /** The delay after the k-th consecutive failure, in closed form. */
  function Delay(p: Params, k: nat): int {
    if k == 0 then p.base else Min(p.base * Pow2(k), p.max)
  }

  lemma DoublingIsClosed(p: Params, k: nat)
    ensures Doubled(p, Delay(p, k)) == Delay(p, k + 1)
  {
    assert p.base * Pow2(k + 1) == 2 * (p.base * Pow2(k));
  }

  /** A step in which some handler, the new one included, calls back to reconnect. */
  predicate CallsBack(s: System, s': System) {
    exists j :: 0 <= j < |s'.handlers| &&
      s'.handlers[j].reconnects > if j < |s.handlers| then s.handlers[j].reconnects else 0
  }

  /** A connect that failed. */
  predicate Fails(e: Event) {
    e.ConnectDone? && e.done == ConnectFailed
  }

  /** The number of failed connects since a handler last called back, after one more step. */
  function Place(p: Params, s: System, e: Event, before: nat): nat
    requires Enabled(p, s, e)
  {
    if CallsBack(s, Apply(p, s, e)) then 0 else if Fails(e) then before + 1 else before
  }

  /** The same after a run. */
  function Failures(p: Params, s: System, es: seq<Event>, before: nat): nat
    requires CanRun(p, s, es)
    decreases |es|
  {
    if es == [] then before else Failures(p, Apply(p, s, es[0]), es[1..], Place(p, s, es[0], before))
  }

  /** The delay a failed connect must wait, by its place. */
  function DelayAt(p: Params, e: Event, before: nat): seq<int> {
    if Fails(e) && p.base > 0 then [Min(p.base * Pow2(before + 1), p.max)] else []
  }

  function DelaysOf(p: Params, s: System, es: seq<Event>, before: nat): seq<int>
    requires CanRun(p, s, es)
    decreases |es|
  {
    if es == [] then []
    else DelayAt(p, es[0], before) + DelaysOf(p, Apply(p, s, es[0]), es[1..], Place(p, s, es[0], before))
  }

  ghost predicate HandlersInv(p: Params, xs: seq<Client>)
    requires ValidConfig(p.settings.config)
  {
    forall j :: 0 <= j < |xs| ==> ClientInv(p.settings, xs[j]) && xs[j].h.started
  }

  ghost predicate SystemInv(p: Params, s: System)
    requires ValidConfig(p.settings.config)
  {
    && HandlersInv(p, s.handlers)
    && Tokens(s) == 1
    && (s.line.stopped == Some(NoRetry) ==> p.base == 0)
  }

  lemma BegunInv(p: Params, before: seq<C.Event>, first: FirstPackage)
    requires ValidConfig(p.settings.config) && Unstarted(p, before)
    ensures var x := Begun(p, before, first);
      && ClientInv(p.settings, x) && x.h.started
      && IsLive(x) + x.reconnects == 1
  {
    C.Reached(p.settings, before);
    C.BeginInv(p.settings, C.Exec(p.settings, NEW_CLIENT, before), first);
  }

  lemma ConnectTokens(p: Params, s: System, done: Connected, before: seq<C.Event>, first: FirstPackage)
    requires ValidConfig(p.settings.config) && Enabled(p, s, ConnectDone(done, before, first))
    requires s.line.stopped.None?
    ensures Tokens(Apply(p, s, ConnectDone(done, before, first))) == Tokens(s)
  {
    BegunInv(p, before, first);
    LiveAppend(s.handlers, Begun(p, before, first));
  }

  lemma ConnectInv(p: Params, s: System, done: Connected, before: seq<C.Event>, first: FirstPackage)
    requires ValidConfig(p.settings.config) && SystemInv(p, s) && Enabled(p, s, ConnectDone(done, before, first))
    ensures SystemInv(p, Apply(p, s, ConnectDone(done, before, first)))
  {
    ConnectTokens(p, s, done, before, first);
    BegunInv(p, before, first);
  }

  /** Either the handler stays as live as it was, or it dies and reconnects in the same step. */
  lemma TokenPasses(p: Params, x: Client, e: C.Event)
    requires ValidConfig(p.settings.config) && ClientInv(p.settings, x) && x.h.started && C.Enabled(x, e)
    ensures var x' := C.Apply(p.settings, x, e);
      && ClientInv(p.settings, x') && x'.h.started
      && IsLive(x) == IsLive(x') + (if x'.reconnects > x.reconnects then 1 else 0)
  {
    C.StepInv(p.settings, x, e);
    C.StepIsForward(p.settings, x, e);
  }

  lemma AtHandlerTokens(p: Params, s: System, j: nat, e: C.Event)
    requires ValidConfig(p.settings.config) && HandlersInv(p, s.handlers) && Enabled(p, s, AtHandler(j, e))
    ensures Tokens(Apply(p, s, AtHandler(j, e))) == Tokens(s)
  {
    TokenPasses(p, s.handlers[j], e);
    LiveUpdate(s.handlers, j, C.Apply(p.settings, s.handlers[j], e));
  }

  lemma AtHandlerInv(p: Params, s: System, j: nat, e: C.Event)
    requires ValidConfig(p.settings.config) && SystemInv(p, s) && Enabled(p, s, AtHandler(j, e))
    ensures SystemInv(p, Apply(p, s, AtHandler(j, e)))
  {
    AtHandlerTokens(p, s, j, e);
    TokenPasses(p, s.handlers[j], e);
  }

  lemma StepInv(p: Params, s: System, e: Event)
    requires ValidConfig(p.settings.config) && SystemInv(p, s) && Enabled(p, s, e)
    ensures SystemInv(p, Apply(p, s, e))
  {
    match e
    case ConnectDone(done, before, first) => ConnectInv(p, s, done, before, first);
    case TimerDone(error) =>
    case AtHandler(j, ev) => AtHandlerInv(p, s, j, ev);
  }

  lemma {:induction false} RunInv(p: Params, s: System, es: seq<Event>)
    requires ValidConfig(p.settings.config) && SystemInv(p, s) && CanRun(p, s, es)
    ensures SystemInv(p, Exec(p, s, es))
    decreases |es|
  {
    if es == [] {
    } else {
      StepInv(p, s, es[0]);
      RunInv(p, Apply(p, s, es[0]), es[1..]);
    }
  }

  // ---- main results ----

  /**
   * At every point of every run exactly one of these holds: one connect is pending, one retry timer
   * is armed, one handler is live, or the client has stopped. So no two handlers are ever live.
   */
  lemma OneConnectionToken(p: Params, es: seq<Event>)
    requires ValidConfig(p.settings.config) && CanRun(p, Start(p), es)
    ensures var s := Exec(p, Start(p), es);
      && s.line.connecting + s.line.timers + Live(s.handlers) + (if s.line.stopped.Some? then 1 else 0) == 1
      && (forall i, j :: 0 <= i < j < |s.handlers| ==>
            !(IsLive(s.handlers[i]) == 1 && IsLive(s.handlers[j]) == 1))
  {
    RunInv(p, Start(p), es);
    var s := Exec(p, Start(p), es);
    forall i, j | 0 <= i < j < |s.handlers|
      ensures !(IsLive(s.handlers[i]) == 1 && IsLive(s.handlers[j]) == 1)
    {
      if IsLive(s.handlers[i]) == 1 && IsLive(s.handlers[j]) == 1 {
        TwoLive(s.handlers, i, j);
      }
    }
  }

  /** A success hook that rejects, or a failed connect when retrying is switched off. */
  predicate TellsToStop(p: Params, e: Event) {
    e.ConnectDone? && (e.done == HookRejects || (e.done == ConnectFailed && p.base == 0))
  }

  lemma {:induction false} StopCause(p: Params, s: System, es: seq<Event>)
    requires CanRun(p, s, es) && TimerDone(true) !in es
    ensures Exec(p, s, es).line.stopped.Some? <==> s.line.stopped.Some? || exists e :: e in es && TellsToStop(p, e)
    decreases |es|
  {
    if es == [] {
    } else {
      var s' := Apply(p, s, es[0]);
      assert es == [es[0]] + es[1..];
      assert s'.line.stopped.Some? <==> s.line.stopped.Some? || TellsToStop(p, es[0]);
      StopCause(p, s', es[1..]);
    }
  }

  /**
   * With error-free timers a client has stopped if and only if a connect failed with retrying
   * switched off or the success hook rejected, somewhere in its run.
   */
  lemma StopsOnlyWhenToldTo(p: Params, es: seq<Event>)
    requires CanRun(p, Start(p), es) && TimerDone(true) !in es
    ensures Exec(p, Start(p), es).line.stopped.Some? <==> exists e :: e in es && TellsToStop(p, e)
  {
    StopCause(p, Start(p), es);
  }

  /** A stopped client stays stopped: nothing is pending, no timer is armed and no handler is live. */
  lemma StoppedIsFinal(p: Params, es: seq<Event>, e: Event)
    requires ValidConfig(p.settings.config) && CanRun(p, Start(p), es)
    requires Exec(p, Start(p), es).line.stopped.Some? && Enabled(p, Exec(p, Start(p), es), e)
    ensures var s := Exec(p, Start(p), es);
      e.AtHandler? && Apply(p, s, e).line == s.line && Live(Apply(p, s, e).handlers) == 0
  {
    RunInv(p, Start(p), es);
    StepInv(p, Exec(p, Start(p), es), e);
  }

  /** A callback resets the delay, and a failed connect moves it on by one place. */
  lemma DelayStep(p: Params, s: System, e: Event, k: nat)
    requires Enabled(p, s, e) && s.line.retryDelay == Delay(p, k)
    ensures Apply(p, s, e).line.retryDelay == Delay(p, Place(p, s, e, k))
    ensures Apply(p, s, e).line.scheduled == s.line.scheduled + DelayAt(p, e, k)
  {
    DoublingIsClosed(p, k);
    var s' := Apply(p, s, e);
    match e
    case ConnectDone(done, before, first) =>
      if done == HookAccepts {
        assert s'.handlers[|s.handlers|].reconnects > 0 ==> CallsBack(s, s');
      }
    case TimerDone(_) =>
    case AtHandler(j, ev) =>
      assert s'.handlers[j].reconnects > s.handlers[j].reconnects ==> CallsBack(s, s');
  }

  lemma {:induction false} DelayRun(p: Params, s: System, es: seq<Event>, k: nat)
    requires CanRun(p, s, es) && s.line.retryDelay == Delay(p, k)
    ensures Exec(p, s, es).line.retryDelay == Delay(p, Failures(p, s, es, k))
    decreases |es|
  {
    if es == [] {
    } else {
      DelayStep(p, s, es[0], k);
      DelayRun(p, Apply(p, s, es[0]), es[1..], Place(p, s, es[0], k));
    }
  }

  lemma {:induction false} ScheduleRun(p: Params, s: System, es: seq<Event>, k: nat)
    requires CanRun(p, s, es) && s.line.retryDelay == Delay(p, k)
    ensures Exec(p, s, es).line.scheduled == s.line.scheduled + DelaysOf(p, s, es, k)
    decreases |es|
  {
    if es == [] {
    } else {
      var first, rest := DelayAt(p, es[0], k), DelaysOf(p, Apply(p, s, es[0]), es[1..], Place(p, s, es[0], k));
      DelayStep(p, s, es[0], k);
      ScheduleRun(p, Apply(p, s, es[0]), es[1..], Place(p, s, es[0], k));
      assert s.line.scheduled + first + rest == s.line.scheduled + (first + rest);
    }
  }

  /**
   * Counted from the run: the delays scheduled are min(base * 2^k, max) for the k-th failed connect
   * since a handler last called back, the next failed connect schedules the delay of its place, and
   * the doubling before the cap stays below twice the larger of base and max.
   */
  lemma BackoffClosedForm(p: Params, es: seq<Event>, before: seq<C.Event>, first: FirstPackage)
    requires ValidConfig(p.settings.config) && CanRun(p, Start(p), es)
    ensures var s := Exec(p, Start(p), es); var k := Failures(p, Start(p), es, 0);
      var e := ConnectDone(ConnectFailed, before, first);
      && s.line.scheduled == DelaysOf(p, Start(p), es, 0)
      && (Enabled(p, s, e) && p.base > 0 ==>
            Apply(p, s, e).line.scheduled == s.line.scheduled + [Min(p.base * Pow2(k + 1), p.max)])
      && 0 <= s.line.retryDelay * 2 <= 2 * (if p.base >= p.max then p.base else p.max)
  {
    DelayRun(p, Start(p), es, 0);
    ScheduleRun(p, Start(p), es, 0);
    var s, e := Exec(p, Start(p), es), ConnectDone(ConnectFailed, before, first);
    var k := Failures(p, Start(p), es, 0);
    DelayBound(p, k);
    if Enabled(p, s, e) {
      DelayStep(p, s, e, k);
    }
  }

  /** The client starts over: it connects, with the base delay, so the next failure waits min(2 * base, max). */
  predicate StartsOver(p: Params, l: Line) {
    && l.retryDelay == p.base && l.connecting == 1
    && (p.base > 0 ==>
          ConnectHandler(p, l, ConnectFailed).scheduled == l.scheduled + [Min(2 * p.base, p.max)])
  }

  lemma OverAgain(p: Params, s: System)
    requires Tokens(s) == 1 && s.line.connecting > 0 && s.line.retryDelay == p.base
    ensures StartsOver(p, s.line)
  {}

  lemma StepTokens(p: Params, s: System, e: Event)
    requires ValidConfig(p.settings.config) && SystemInv(p, s) && Enabled(p, s, e)
    ensures Tokens(Apply(p, s, e)) == 1
  {
    StepInv(p, s, e);
  }

  lemma CallBackInv(p: Params, s: System, e: Event)
    requires ValidConfig(p.settings.config) && SystemInv(p, s) && Enabled(p, s, e)
    requires CallsBack(s, Apply(p, s, e))
    ensures StartsOver(p, Apply(p, s, e).line)
  {
    CallBackStep(p, s, e);
    StepTokens(p, s, e);
    OverAgain(p, Apply(p, s, e));
  }

  lemma Reached(p: Params, es: seq<Event>)
    requires ValidConfig(p.settings.config) && CanRun(p, Start(p), es)
    ensures SystemInv(p, Exec(p, Start(p), es))
  {
    RunInv(p, Start(p), es);
  }

  /** Any step of any run in which a handler calls back makes the client start over. */
  lemma CallBackResets(p: Params, es: seq<Event>, e: Event)
    requires ValidConfig(p.settings.config) && CanRun(p, Start(p), es) && Enabled(p, Exec(p, Start(p), es), e)
    requires CallsBack(Exec(p, Start(p), es), Apply(p, Exec(p, Start(p), es), e))
    ensures StartsOver(p, Apply(p, Exec(p, Start(p), es), e).line)
  {
    Reached(p, es);
    CallBackInv(p, Exec(p, Start(p), es), e);
  }

  lemma CallBackStep(p: Params, s: System, e: Event)
    requires Enabled(p, s, e) && CallsBack(s, Apply(p, s, e))
    ensures Apply(p, s, e).line.connecting > 0 && Apply(p, s, e).line.retryDelay == p.base
  {}

  lemma DelayBound(p: Params, k: nat)
    ensures 0 <= Delay(p, k) <= if p.base >= p.max then p.base else p.max
  {
    assert p.base * Pow2(k) >= 0;
  }

  /** The scheduled delays never decrease, never exceed the maximum, and stay there once they reach it. */
  lemma {:induction false} BackoffIsMonotone(p: Params, j: nat, k: nat)
    requires 1 <= j <= k
    ensures Delay(p, j) <= Delay(p, k) <= p.max
    ensures Delay(p, j) == p.max ==> Delay(p, k) == p.max
    decreases k - j
  {
    if j < k {
      BackoffIsMonotone(p, j, k - 1);
      DoublingIsClosed(p, k - 1);
      assert p.base * Pow2(k - 1) >= 0;
    }
  }
}
