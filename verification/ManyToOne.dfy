/**
 * The single-worker queue. It looks like the pool, but its worker goes on after an exit message
 * until the queue is empty, so everything accepted is called back.
 */
module ManyToOne {
  import opened Messages

  /** The fields guarded by the mutex. */
  datatype Shared = Shared(queue: seq<Message>, exited: bool)

  datatype Outcome = Return | Wait | Got(msg: Message)

  function PutSection(s: Shared, m: Message): (Shared, bool) {
    if s.exited then (s, false) else (s.(queue := s.queue + [m]), true)
  }

  function SvcSection(s: Shared): (Shared, Outcome) {
    if s.queue == [] then
      (s, if s.exited then Return else Wait)
    else
      (Shared(s.queue[1..], s.exited || s.queue[0].ExitToken?), Got(s.queue[0]))
  }

  class WorkerQueue {
    var queue: seq<Message>
    var isThreadExit: bool

    function State(): Shared
      reads this
    {
      Shared(queue, isThreadExit)
    }

    constructor ()
      ensures State() == Shared([], false)
    {
      queue := [];
      isThreadExit := false;
    }

    method Put(data: Message) returns (r: int)
      modifies this
      ensures State() == PutSection(old(State()), data).0
      ensures r == if PutSection(old(State()), data).1 then 0 else -1
      ensures (r == -1 <==> old(isThreadExit)) && (r == 0 <==> !old(isThreadExit))
      ensures queue == (if r == 0 then old(queue) + [data] else old(queue)) && isThreadExit == old(isThreadExit)
    {
      if isThreadExit {
        return -1;
      }
      queue := queue + [data];
      return 0;
    }

    method SvcLocked() returns (outcome: Outcome)
      modifies this
      ensures (State(), outcome) == SvcSection(old(State()))
      ensures old(queue) == [] ==> outcome == (if isThreadExit then Return else Wait) && State() == old(State())
      ensures old(queue) != [] ==> outcome == Got(old(queue)[0]) && queue == old(queue)[1..]
      ensures old(queue) != [] ==> (isThreadExit <==> old(isThreadExit) || old(queue)[0].ExitToken?)
    {
      if |queue| == 0 {
        if isThreadExit {
          return Return;
        }
        return Wait;
      }
      var data := queue[0];
      queue := queue[1..];
      if data.ExitToken? {
        isThreadExit := true;
      }
      return Got(data);
    }

    /**
     * The worker loop from the pop of an exit message on: no put is accepted any more, so it runs
     * alone on the queue. It returns the messages it called back, in order.
     */
    method Drain() returns (called: seq<Message>)
      requires isThreadExit
      modifies this
      ensures queue == [] && isThreadExit
      ensures called == DataOf(old(queue))
    {
      called := [];
      ghost var all, done := queue, 0;
      while true
        invariant isThreadExit && done <= |all| && queue == all[done..]
        invariant called == DataOf(all[..done])
        decreases |queue|
      {
        var outcome := SvcLocked();
        if outcome.Return? {
          assert all[..done] == all;
          return;
        }
        assert all[..done + 1] == all[..done] + [outcome.msg];
        AppendOne(all[..done], outcome.msg);
        done := done + 1;
        if outcome.msg.Data? {
          called := called + [outcome.msg];
        }
      }
    }
  }

  datatype Worker =
    | Starting
    | Checking
    | Waiting
    | Woken
    | Holding(msg: Message)    // popped a data message, callback not finished
    | Releasing(msg: Message)  // about to free a message that needs no callback any more
    | Gone

  datatype One = One(
    shared: Shared,
    worker: Worker,
    notifies: nat,
    accepted: seq<Message>,
    popped: seq<Message>,
    called: seq<Message>,
    freed: seq<Message>,
    refused: nat)

  datatype Event = InitDone | Enter | CallBack | Free | SpuriousWake | Push(m: Message) | Notify

  const INIT := One(Shared([], false), Starting, 0, [], [], [], [], 0)

  predicate Enabled(p: One, e: Event) {
    match e
    case InitDone => p.worker == Starting
    case Enter => p.worker == Checking || p.worker == Woken
    case CallBack => p.worker.Holding?
    case Free => p.worker.Releasing?
    case SpuriousWake => p.worker == Waiting
    case Push(_) => true
    case Notify => p.notifies > 0
  }

  function Apply(p: One, e: Event): One
    requires Enabled(p, e)
  {
    match e
    case InitDone => p.(worker := Checking)
    case Enter =>
      var (shared, outcome) := SvcSection(p.shared);
      (match outcome
       case Return => p.(worker := Gone)
       case Wait => p.(worker := Waiting)
       case Got(m) =>
         p.(shared := shared, popped := p.popped + [m],
            worker := if m.Data? then Holding(m) else Releasing(m)))
    case CallBack => p.(worker := Releasing(p.worker.msg), called := p.called + [p.worker.msg])
    case Free => p.(worker := Checking, freed := p.freed + [p.worker.msg])
    case SpuriousWake => p.(worker := Woken)
    case Push(m) =>
      var (shared, ok) := PutSection(p.shared, m);
      if ok
      then p.(shared := shared, accepted := p.accepted + [m], notifies := p.notifies + 1)
      else p.(refused := p.refused + 1)
    case Notify =>
      p.(worker := if p.worker == Waiting then Woken else p.worker, notifies := p.notifies - 1)
  }

  predicate CanRun(p: One, es: seq<Event>)
    decreases |es|
  {
    es == [] || (Enabled(p, es[0]) && CanRun(Apply(p, es[0]), es[1..]))
  }

  function Exec(p: One, es: seq<Event>): One
    requires CanRun(p, es)
    decreases |es|
  {
    if es == [] then p else Exec(Apply(p, es[0]), es[1..])
  }

  predicate Inv(p: One) {
    && p.accepted == p.popped + p.shared.queue
    && (p.worker.Holding? ==> p.worker.msg.Data?)
    && DataOf(p.popped) == p.called + (if p.worker.Holding? then [p.worker.msg] else [])
    && p.popped == p.freed + (if p.worker.Holding? || p.worker.Releasing? then [p.worker.msg] else [])
    && (p.shared.exited <==> Tokens(p.popped) > 0)
    && (p.refused > 0 ==> p.shared.exited)
    && (p.worker == Waiting ==> !p.shared.exited && (p.shared.queue != [] ==> p.notifies > 0))
    && (p.worker == Gone ==> p.shared.exited && p.shared.queue == [])
  }

  lemma PopInv(p: One)
    requires Inv(p) && Enabled(p, Enter) && p.shared.queue != []
    ensures Inv(Apply(p, Enter))
  {
    var m := p.shared.queue[0];
    AppendOne(p.popped, m);
    assert p.popped + p.shared.queue == p.popped + [m] + p.shared.queue[1..];
  }

  lemma PushInv(p: One, m: Message)
    requires Inv(p)
    ensures Inv(Apply(p, Push(m)))
  {
    assert p.popped + p.shared.queue + [m] == p.popped + (p.shared.queue + [m]);
  }

  lemma StepInv(p: One, e: Event)
    requires Inv(p) && Enabled(p, e)
    ensures Inv(Apply(p, e))
  {
    if e.Push? {
      PushInv(p, e.m);
    } else if e.Enter? && p.shared.queue != [] {
      PopInv(p);
    }
  }

  lemma {:induction false} RunInv(p: One, es: seq<Event>)
    requires Inv(p) && CanRun(p, es)
    ensures Inv(Exec(p, es))
    decreases |es|
  {
    if es == [] {
    } else {
      StepInv(p, es[0]);
      RunInv(Apply(p, es[0]), es[1..]);
    }
  }

  /** After the worker has returned, no event changes anything but the count of refusals. */
  lemma {:induction false} GoneStays(p: One, es: seq<Event>)
    requires p.worker == Gone && p.shared.exited && CanRun(p, es)
    ensures var q := Exec(p, es);
      q.worker == Gone && q.shared == p.shared && q.accepted == p.accepted && q.called == p.called
    decreases |es|
  {
    if es == [] {
    } else {
      GoneStays(Apply(p, es[0]), es[1..]);
    }
  }

  // ---- main results ----

  /**
   * When the worker has returned, every accepted message has been called back, once, in put order,
   * and freed, and from then on every put is refused and nothing changes.
   */
  lemma DrainsEverything(es: seq<Event>, more: seq<Event>)
    requires CanRun(INIT, es) && Exec(INIT, es).worker == Gone && CanRun(Exec(INIT, es), more)
    ensures var p := Exec(INIT, es); var q := Exec(p, more);
      && p.called == DataOf(p.accepted)
      && p.freed == p.accepted
      && p.shared.queue == []
      && (forall m :: !PutSection(q.shared, m).1)
      && q.accepted == p.accepted && q.called == p.called && q.worker == Gone
  {
    RunInv(INIT, es);
    GoneStays(Exec(INIT, es), more);
    assert Exec(INIT, es).popped + [] == Exec(INIT, es).popped;
  }

  /** Callbacks happen in put order at every point of every run, with at most one under way. */
  lemma CallbacksInPutOrder(es: seq<Event>)
    requires CanRun(INIT, es)
    ensures var p := Exec(INIT, es);
      && p.popped <= p.accepted
      && p.called <= DataOf(p.popped) && |DataOf(p.popped)| <= |p.called| + 1
  {
    RunInv(INIT, es);
  }

  predicate Quiet(e: Event) {
    !e.Push? && !e.SpuriousWake?
  }

  predicate AllQuiet(es: seq<Event>) {
    forall e :: e in es ==> Quiet(e)
  }

  function Measure(p: One): nat {
    3 * |p.shared.queue| + 2 * p.notifies +
    match p.worker
    case Starting => 2
    case Checking => 1
    case Waiting => 0
    case Woken => 1
    case Holding(_) => 3
    case Releasing(_) => 2
    case Gone => 0
  }

  lemma StepDecreases(p: One, e: Event)
    requires Enabled(p, e) && Quiet(e)
    ensures Measure(Apply(p, e)) < Measure(p)
  {}

  lemma NeverStuck(p: One) returns (e: Event)
    requires Inv(p) && Tokens(p.accepted) > 0 && p.worker != Gone
    ensures Quiet(e) && Enabled(p, e)
  {
    TokensConcat(p.popped, p.shared.queue);
    match p.worker
    case Starting => e := InitDone;
    case Checking => e := Enter;
    case Woken => e := Enter;
    case Holding(_) => e := CallBack;
    case Releasing(_) => e := Free;
    case Waiting => e := Notify;
  }

  lemma {:induction false} QuietRunIsShort(p: One, es: seq<Event>)
    requires Inv(p) && CanRun(p, es) && AllQuiet(es)
    ensures |es| + Measure(Exec(p, es)) <= Measure(p)
    ensures Exec(p, es).accepted == p.accepted
    decreases |es|
  {
    if es == [] {
    } else {
      assert es[0] in es;
      StepInv(p, es[0]);
      StepDecreases(p, es[0]);
      QuietRunIsShort(Apply(p, es[0]), es[1..]);
    }
  }

  /**
   * After an accepted exit message and the last put every continuation is finite and can only end
   * with the worker gone, so a destructor whose own put was accepted always returns from join.
   */
  lemma JoinReturns(es: seq<Event>, rest: seq<Event>)
    requires CanRun(INIT, es) && Tokens(Exec(INIT, es).accepted) > 0
    requires CanRun(Exec(INIT, es), rest) && AllQuiet(rest)
    ensures var p := Exec(INIT, es);
      && |rest| <= Measure(p)
      && (Exec(p, rest).worker == Gone || exists e :: Quiet(e) && Enabled(Exec(p, rest), e))
  {
    RunInv(INIT, es);
    var p := Exec(INIT, es);
    QuietRunIsShort(p, rest);
    RunInv(p, rest);
    if Exec(p, rest).worker != Gone {
      var e := NeverStuck(Exec(p, rest));
    }
  }

  /**
   * Puts are refused exactly from the pop of an exit message on; what is then still owed a callback is
   * the message in the worker's hands and everything queued.
   */
  lemma RefusalLeavesADrain(es: seq<Event>)
    requires CanRun(INIT, es)
    ensures var p := Exec(INIT, es);
      && (forall m :: !PutSection(p.shared, m).1 <==> Tokens(p.popped) > 0)
      && (forall m :: var q := Apply(p, Push(m));
            if Tokens(p.popped) > 0 then q.accepted == p.accepted && q.refused == p.refused + 1
            else q.accepted == p.accepted + [m] && q.refused == p.refused)
      && (p.refused > 0 ==> Tokens(p.popped) > 0)
      && p.accepted == p.popped + p.shared.queue
      && DataOf(p.popped) == p.called + (if p.worker.Holding? then [p.worker.msg] else [])
      && (p.worker == Gone ==> p.called == DataOf(p.accepted))
  {
    RunInv(INIT, es);
    assert Exec(INIT, es).popped + [] == Exec(INIT, es).popped;
  }
}
