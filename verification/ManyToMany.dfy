/**
 * The worker pool: producers push under the mutex and notify after releasing it, N workers wait,
 * pop, and either run the callback or consume an exit message.
 */
module ManyToMany {
  import opened Messages

  /** The fields guarded by the mutex. */
  datatype Shared = Shared(queue: seq<Message>, exited: bool, active: int)

  /** What one lock-holding stretch of a worker ends in. */
  datatype Outcome = EarlyReturn | Wait | Deliver(msg: Message) | Leave

  /** The lock-holding part of put; the flag says whether the message was accepted. */
  function PutSection(s: Shared, m: Message): (Shared, bool) {
    if s.exited then (s, false) else (s.(queue := s.queue + [m]), true)
  }

  /** A worker's stretch from taking the lock (or waking with it) to releasing or waiting on it. */
  function SvcSection(s: Shared): (Shared, Outcome) {
    if s.queue == [] then
      (s, if s.exited then EarlyReturn else Wait)
    else if s.queue[0].ExitToken? then
      (Shared(s.queue[1..], s.active - 1 == 0, s.active - 1), Leave)
    else
      (s.(queue := s.queue[1..]), Deliver(s.queue[0]))
  }

  /** The queue object; its methods are the critical sections of put and svc. */
  class WorkerQueue {
    var queue: seq<Message>
    var isThreadExit: bool
    var threadActiveNum: int

    function State(): Shared
      reads this
    {
      Shared(queue, isThreadExit, threadActiveNum)
    }

    constructor (threads: nat)
      ensures State() == Shared([], false, threads)
    {
      queue := [];
      isThreadExit := false;
      threadActiveNum := threads;
    }

    method Put(data: Message) returns (r: int)
      modifies this
      ensures State() == PutSection(old(State()), data).0
      ensures r == if PutSection(old(State()), data).1 then 0 else -1
      ensures (r == -1 <==> old(isThreadExit)) && (r == 0 <==> !old(isThreadExit))
      ensures queue == if r == 0 then old(queue) + [data] else old(queue)
      ensures isThreadExit == old(isThreadExit) && threadActiveNum == old(threadActiveNum)
    {
      if isThreadExit {
        return -1;
      }
      queue := queue + [data];
      return 0;
    }

    method Svc() returns (outcome: Outcome)
      modifies this
      ensures (State(), outcome) == SvcSection(old(State()))
      ensures old(queue) == [] ==> outcome == (if isThreadExit then EarlyReturn else Wait) && State() == old(State())
      ensures old(queue) != [] ==> queue == old(queue)[1..]
      ensures old(queue) != [] && old(queue)[0].Data? ==>
        outcome == Deliver(old(queue)[0]) && State() == old(State()).(queue := queue)
      ensures old(queue) != [] && old(queue)[0].ExitToken? ==>
        outcome == Leave && threadActiveNum == old(threadActiveNum) - 1 && (isThreadExit <==> threadActiveNum == 0)
    {
      if |queue| == 0 {
        if isThreadExit {
          return EarlyReturn;
        }
        return Wait;
      }
      var data := queue[0];
      queue := queue[1..];
      if data.ExitToken? {
        threadActiveNum := threadActiveNum - 1;
        isThreadExit := threadActiveNum == 0;
        return Leave;
      }
      return Deliver(data);
    }
  }

  /** Where a worker stands between two atomic steps. */
  datatype Worker =
    | Starting                 // running the init callback
    | Checking                 // about to take the lock
    | Waiting                  // on the condition, not notified
    | Woken                    // notified, about to retake the lock
    | Holding(msg: Message)    // popped a data message, callback not finished
    | Called(msg: Message)     // callback finished, message not yet freed
    | Gone

  /** The pool, with logs of everything that happened. `notifies` counts puts that pushed and have not notified. */
  datatype Pool = Pool(
    shared: Shared,
    workers: seq<Worker>,
    notifies: nat,
    accepted: seq<Message>,
    popped: seq<Message>,
    called: multiset<Message>,
    freed: multiset<Message>,
    refused: nat)

  datatype Event =
    | InitDone(w: nat)
    | Enter(w: nat)
    | CallBack(w: nat)
    | Free(w: nat)
    | SpuriousWake(w: nat)
    | Push(m: Message)
    | Notify

  function Init(threads: nat): Pool {
    Pool(Shared([], false, threads), seq(threads, _ => Starting), 0, [], [], multiset{}, multiset{}, 0)
  }

  predicate Enabled(p: Pool, e: Event) {
    match e
    case InitDone(w) => w < |p.workers| && p.workers[w] == Starting
    case Enter(w) => w < |p.workers| && (p.workers[w] == Checking || p.workers[w] == Woken)
    case CallBack(w) => w < |p.workers| && p.workers[w].Holding?
    case Free(w) => w < |p.workers| && p.workers[w].Called?
    case SpuriousWake(w) => w < |p.workers| && p.workers[w] == Waiting
    case Push(_) => true
    case Notify => p.notifies > 0
  }

  function WakeAll(ws: seq<Worker>): (r: seq<Worker>)
    ensures |r| == |ws|
    ensures forall i :: 0 <= i < |ws| ==> r[i] == if ws[i] == Waiting then Woken else ws[i]
  {
    seq(|ws|, i requires 0 <= i < |ws| => if ws[i] == Waiting then Woken else ws[i])
  }

  function ApplyEnter(p: Pool, w: nat): Pool
    requires Enabled(p, Enter(w))
  {
    var (shared, outcome) := SvcSection(p.shared);
    match outcome
    case EarlyReturn => p.(shared := shared, workers := p.workers[w := Gone])
    case Wait => p.(shared := shared, workers := p.workers[w := Waiting])
    case Deliver(m) =>
      p.(shared := shared, workers := p.workers[w := Holding(m)], popped := p.popped + [m])
    case Leave =>
      p.(shared := shared, workers := p.workers[w := Gone],
         popped := p.popped + [ExitToken], freed := p.freed + multiset{ExitToken})
  }

  function ApplyPush(p: Pool, m: Message): Pool {
    var (shared, ok) := PutSection(p.shared, m);
    if ok
    then p.(shared := shared, accepted := p.accepted + [m], notifies := p.notifies + 1)
    else p.(refused := p.refused + 1)
  }

  function Apply(p: Pool, e: Event): Pool
    requires Enabled(p, e)
  {
    match e
    case InitDone(w) => p.(workers := p.workers[w := Checking])
    case Enter(w) => ApplyEnter(p, w)
    case CallBack(w) =>
      var m := p.workers[w].msg;
      p.(workers := p.workers[w := Called(m)], called := p.called + multiset{m})
    case Free(w) =>
      p.(workers := p.workers[w := Checking], freed := p.freed + multiset{p.workers[w].msg})
    case SpuriousWake(w) => p.(workers := p.workers[w := Woken])
    case Push(m) => ApplyPush(p, m)
    case Notify => p.(workers := WakeAll(p.workers), notifies := p.notifies - 1)
  }

  predicate CanRun(p: Pool, es: seq<Event>)
    decreases |es|
  {
    es == [] || (Enabled(p, es[0]) && CanRun(Apply(p, es[0]), es[1..]))
  }

  function Exec(p: Pool, es: seq<Event>): Pool
    requires CanRun(p, es)
    decreases |es|
  {
    if es == [] then p else Exec(Apply(p, es[0]), es[1..])
  }

  // ---- quantities over the workers ----

  function IsLive(w: Worker): nat { if w.Gone? then 0 else 1 }

  /** Whether a worker still owes message m its callback. */
  function CallDebt(w: Worker, m: Message): nat { if w == Holding(m) then 1 else 0 }

  /** Whether a worker still has to free message m. */
  function FreeDebt(w: Worker, m: Message): nat { if w == Holding(m) || w == Called(m) then 1 else 0 }

  function Live(ws: seq<Worker>): nat {
    if ws == [] then 0 else IsLive(ws[0]) + Live(ws[1..])
  }

  function CallsOwed(ws: seq<Worker>, m: Message): nat {
    if ws == [] then 0 else CallDebt(ws[0], m) + CallsOwed(ws[1..], m)
  }

  function FreesOwed(ws: seq<Worker>, m: Message): nat {
    if ws == [] then 0 else FreeDebt(ws[0], m) + FreesOwed(ws[1..], m)
  }

  function Weight(w: Worker): nat {
    match w
    case Starting => 2
    case Checking => 1
    case Waiting => 0
    case Woken => 1
    case Holding(_) => 3
    case Called(_) => 2
    case Gone => 0
  }

  function Load(ws: seq<Worker>): nat {
    if ws == [] then 0 else Load(ws[1..]) + Weight(ws[0])
  }

  lemma {:induction false} Replace(ws: seq<Worker>, i: nat, w: Worker, m: Message)
    requires i < |ws|
    ensures Live(ws[i := w]) == Live(ws) + IsLive(w) - IsLive(ws[i])
    ensures CallsOwed(ws[i := w], m) == CallsOwed(ws, m) + CallDebt(w, m) - CallDebt(ws[i], m)
    ensures FreesOwed(ws[i := w], m) == FreesOwed(ws, m) + FreeDebt(w, m) - FreeDebt(ws[i], m)
    ensures Load(ws[i := w]) == Load(ws) + Weight(w) - Weight(ws[i])
  {
    if i == 0 {
      assert ws[i := w][1..] == ws[1..];
    } else {
      assert ws[i := w][1..] == ws[1..][i - 1 := w];
      Replace(ws[1..], i - 1, w, m);
    }
  }

  lemma {:induction false} WakeAllKeeps(ws: seq<Worker>, m: Message)
    ensures Live(WakeAll(ws)) == Live(ws)
    ensures CallsOwed(WakeAll(ws), m) == CallsOwed(ws, m)
    ensures FreesOwed(WakeAll(ws), m) == FreesOwed(ws, m)
    ensures Load(WakeAll(ws)) <= Load(ws) + |ws|
  {
    if ws == [] {
    } else {
      assert WakeAll(ws)[1..] == WakeAll(ws[1..]);
      WakeAllKeeps(ws[1..], m);
    }
  }

  lemma {:induction false} LiveBounds(ws: seq<Worker>)
    ensures Live(ws) <= |ws|
    ensures Live(ws) == 0 <==> forall i :: 0 <= i < |ws| ==> ws[i] == Gone
  {
    if ws == [] {
    } else {
      LiveBounds(ws[1..]);
      assert forall i :: 1 <= i < |ws| ==> ws[i] == ws[1..][i - 1];
      assert (forall i :: 0 <= i < |ws| ==> ws[i] == Gone) ==>
        forall i :: 0 <= i < |ws[1..]| ==> ws[1..][i] == ws[i + 1];
    }
  }

  lemma {:induction false} NobodyOwes(ws: seq<Worker>, m: Message)
    requires forall i :: 0 <= i < |ws| ==> ws[i] == Gone || ws[i] == Starting
    ensures CallsOwed(ws, m) == FreesOwed(ws, m) == 0
  {
    if ws == [] {
    } else {
      NobodyOwes(ws[1..], m);
    }
  }

  lemma {:induction false} StartingLive(n: nat)
    ensures Live(Init(n).workers) == n
  {
    if n == 0 {
    } else {
      assert Init(n).workers[1..] == Init(n - 1).workers;
      StartingLive(n - 1);
    }
  }

  // ---- the invariant ----

  predicate AllGone(p: Pool) {
    forall i :: 0 <= i < |p.workers| ==> p.workers[i] == Gone
  }

  /** The activity counter and the exit flag tell the truth about the workers. */
  predicate Counts(p: Pool) {
    && p.shared.active == Live(p.workers) == |p.workers| - Tokens(p.popped)
    && (p.shared.exited <==> |p.workers| > 0 && p.shared.active == 0)
    && (p.refused > 0 ==> p.shared.exited)
  }

  /** Messages leave the queue in the order in which they were accepted. */
  predicate Fifo(p: Pool) {
    LogsAgree(p) && HeldAreData(p)
  }

  predicate LogsAgree(p: Pool) {
    && p.accepted == p.popped + p.shared.queue
    && (Tokens(p.popped) == |p.workers| && p.popped != [] ==> p.popped[|p.popped| - 1].ExitToken?)
  }

  predicate HeldAreData(p: Pool) {
    forall i :: 0 <= i < |p.workers| && (p.workers[i].Holding? || p.workers[i].Called?) ==> p.workers[i].msg.Data?
  }

  /**
   * Every popped data message is called back once or still owed its callback, and every popped
   * message is freed once or still held.
   */
  predicate Balanced(p: Pool, m: Message) {
    CallsBalanced(p, m) && FreesBalanced(p, m)
  }

  predicate CallsBalanced(p: Pool, m: Message) {
    (if m.Data? then Count(p.popped, m) else 0) == p.called[m] + CallsOwed(p.workers, m)
  }

  predicate FreesBalanced(p: Pool, m: Message) {
    Count(p.popped, m) == p.freed[m] + FreesOwed(p.workers, m)
  }

  /** Nothing is lost, duplicated or reordered between put and free. */
  ghost predicate Logs(p: Pool) {
    Fifo(p) && forall m :: Balanced(p, m)
  }

  predicate SomeWaiting(p: Pool) {
    exists i :: 0 <= i < |p.workers| && p.workers[i] == Waiting
  }

  /** A waiting worker beside a non-empty queue always has a notification on its way. */
  predicate NoLostWakeup(p: Pool) {
    SomeWaiting(p) && p.shared.queue != [] ==> p.notifies > 0
  }

  ghost predicate Inv(p: Pool) {
    Counts(p) && Logs(p) && NoLostWakeup(p)
  }

  lemma InitInv(n: nat)
    ensures Inv(Init(n))
  {
    StartingLive(n);
    forall m
      ensures Balanced(Init(n), m)
    {
      NobodyOwes(Init(n).workers, m);
    }
  }

  lemma SomeoneLive(p: Pool, i: nat)
    requires Counts(p) && i < |p.workers| && p.workers[i] != Gone
    ensures p.shared.active > 0 && !p.shared.exited
  {
    LiveBounds(p.workers);
  }

  /** No live worker ever takes the early return inside the empty-queue loop. */
  lemma NoEarlyReturn(p: Pool, w: nat)
    requires Counts(p) && Enabled(p, Enter(w))
    ensures SvcSection(p.shared).1 != EarlyReturn
  {
    SomeoneLive(p, w);
  }

  lemma EnterCounts(p: Pool, w: nat)
    requires Counts(p) && Enabled(p, Enter(w))
    ensures Counts(ApplyEnter(p, w))
  {
    NoEarlyReturn(p, w);
    Replace(p.workers, w, ApplyEnter(p, w).workers[w], ExitToken);
    if p.shared.queue != [] {
      AppendOne(p.popped, p.shared.queue[0]);
    }
  }

  lemma StepCounts(p: Pool, e: Event)
    requires Counts(p) && Enabled(p, e)
    ensures Counts(Apply(p, e))
  {
    match e
    case Push(_) =>
    case Notify => WakeAllKeeps(p.workers, ExitToken);
    case Enter(w) => EnterCounts(p, w);
    case CallBack(w) => Replace(p.workers, w, Called(p.workers[w].msg), ExitToken);
    case Free(w) => Replace(p.workers, w, Checking, ExitToken);
    case InitDone(w) => Replace(p.workers, w, Checking, ExitToken);
    case SpuriousWake(w) => Replace(p.workers, w, Woken, ExitToken);
  }

  lemma StepHeld(p: Pool, e: Event)
    requires HeldAreData(p) && Enabled(p, e)
    ensures HeldAreData(Apply(p, e))
  {
    var q := Apply(p, e);
    forall i | 0 <= i < |q.workers| && (q.workers[i].Holding? || q.workers[i].Called?)
      ensures q.workers[i].msg.Data?
    {
      if q.workers[i] != p.workers[i] && e.CallBack? {
        assert p.workers[i].Holding?;
      }
    }
  }

  lemma EnterFifo(p: Pool, w: nat)
    requires Counts(p) && Fifo(p) && Enabled(p, Enter(w))
    ensures LogsAgree(ApplyEnter(p, w))
  {
    SomeoneLive(p, w);
    if p.shared.queue != [] {
      var m := p.shared.queue[0];
      AppendOne(p.popped, m);
      assert p.accepted == p.popped + [m] + p.shared.queue[1..];
    }
  }

  lemma StepFifo(p: Pool, e: Event)
    requires Counts(p) && Fifo(p) && Enabled(p, e)
    ensures Fifo(Apply(p, e))
  {
    StepHeld(p, e);
    match e
    case Push(m) => assert p.popped + p.shared.queue + [m] == p.popped + (p.shared.queue + [m]);
    case Enter(w) => EnterFifo(p, w);
    case _ => assert LogsAgree(p);
  }

  lemma EnterCalls(p: Pool, w: nat, m: Message)
    requires Enabled(p, Enter(w)) && CallsBalanced(p, m)
    ensures CallsBalanced(ApplyEnter(p, w), m)
  {
    Replace(p.workers, w, ApplyEnter(p, w).workers[w], m);
    if p.shared.queue != [] {
      CountAppend(p.popped, p.shared.queue[0], m);
    }
  }

  lemma StepCalls(p: Pool, e: Event, m: Message)
    requires Enabled(p, e) && CallsBalanced(p, m) && HeldAreData(p)
    ensures CallsBalanced(Apply(p, e), m)
  {
    match e
    case Push(_) =>
    case Notify => WakeAllKeeps(p.workers, m);
    case Enter(w) => EnterCalls(p, w, m);
    case CallBack(w) => Replace(p.workers, w, Called(p.workers[w].msg), m);
    case Free(w) => Replace(p.workers, w, Checking, m);
    case InitDone(w) => Replace(p.workers, w, Checking, m);
    case SpuriousWake(w) => Replace(p.workers, w, Woken, m);
  }

  lemma EnterFrees(p: Pool, w: nat, m: Message)
    requires Enabled(p, Enter(w)) && FreesBalanced(p, m)
    ensures FreesBalanced(ApplyEnter(p, w), m)
  {
    Replace(p.workers, w, ApplyEnter(p, w).workers[w], m);
    if p.shared.queue != [] {
      CountAppend(p.popped, p.shared.queue[0], m);
    }
  }

  lemma FreeFrees(p: Pool, w: nat, m: Message)
    requires Enabled(p, Free(w)) && FreesBalanced(p, m)
    ensures FreesBalanced(Apply(p, Free(w)), m)
  {
    Replace(p.workers, w, Checking, m);
  }

  lemma CallBackFrees(p: Pool, w: nat, m: Message)
    requires Enabled(p, CallBack(w)) && FreesBalanced(p, m)
    ensures FreesBalanced(Apply(p, CallBack(w)), m)
  {
    Replace(p.workers, w, Called(p.workers[w].msg), m);
  }

  lemma StepFrees(p: Pool, e: Event, m: Message)
    requires Enabled(p, e) && FreesBalanced(p, m)
    ensures FreesBalanced(Apply(p, e), m)
  {
    match e
    case Push(_) =>
    case Notify => WakeAllKeeps(p.workers, m);
    case Enter(w) => EnterFrees(p, w, m);
    case CallBack(w) => CallBackFrees(p, w, m);
    case Free(w) => FreeFrees(p, w, m);
    case InitDone(w) => Replace(p.workers, w, Checking, m);
    case SpuriousWake(w) => Replace(p.workers, w, Woken, m);
  }

  lemma StepLogs(p: Pool, e: Event)
    requires Counts(p) && Logs(p) && Enabled(p, e)
    ensures Logs(Apply(p, e))
  {
    StepFifo(p, e);
    forall m
      ensures Balanced(Apply(p, e), m)
    {
      assert Balanced(p, m);
      StepCalls(p, e, m);
      StepFrees(p, e, m);
    }
  }

  lemma StepWakeup(p: Pool, e: Event)
    requires NoLostWakeup(p) && Enabled(p, e)
    ensures NoLostWakeup(Apply(p, e))
  {
    var q := Apply(p, e);
    if !e.Push? && SomeWaiting(q) && q.shared.queue != [] {
      var i :| 0 <= i < |q.workers| && q.workers[i] == Waiting;
      assert p.workers[i] == Waiting;
    }
  }

  lemma StepInv(p: Pool, e: Event)
    requires Inv(p) && Enabled(p, e)
    ensures Inv(Apply(p, e))
  {
    StepCounts(p, e);
    StepLogs(p, e);
    StepWakeup(p, e);
  }

  lemma {:induction false} RunInv(p: Pool, es: seq<Event>)
    requires Inv(p) && CanRun(p, es)
    ensures Inv(Exec(p, es))
    ensures |Exec(p, es).workers| == |p.workers|
    decreases |es|
  {
    if es == [] {
    } else {
      StepInv(p, es[0]);
      RunInv(Apply(p, es[0]), es[1..]);
    }
  }

  // ---- main results, for every run of n workers ----

  lemma Reachable(n: nat, es: seq<Event>)
    requires CanRun(Init(n), es)
    ensures Inv(Exec(Init(n), es)) && |Exec(Init(n), es).workers| == n
  {
    InitInv(n);
    RunInv(Init(n), es);
  }

  /** thread_active_num_ counts the workers still there, which is n minus the exit messages popped. */
  lemma ActiveCountIsTrue(n: nat, es: seq<Event>)
    requires CanRun(Init(n), es)
    ensures var p := Exec(Init(n), es);
      && p.shared.active == Live(p.workers) == n - Tokens(p.popped)
      && (p.shared.exited <==> n > 0 && AllGone(p))
  {
    Reachable(n, es);
    LiveBounds(Exec(Init(n), es).workers);
  }

  /** The return inside the empty-queue loop is dead code: whoever gets there finds the flag down. */
  lemma EarlyReturnIsUnreachable(n: nat, es: seq<Event>, w: nat)
    requires CanRun(Init(n), es) && Enabled(Exec(Init(n), es), Enter(w))
    ensures SvcSection(Exec(Init(n), es).shared).1 != EarlyReturn
  {
    Reachable(n, es);
    NoEarlyReturn(Exec(Init(n), es), w);
  }

  /** Once a put has been refused no callback is running and no worker holds a message. */
  lemma RefusalMeansQuiet(n: nat, es: seq<Event>)
    requires CanRun(Init(n), es) && Exec(Init(n), es).refused > 0
    ensures AllGone(Exec(Init(n), es))
  {
    Reachable(n, es);
    LiveBounds(Exec(Init(n), es).workers);
  }

  /**
   * A put after any run is refused, without effect on the queue, if and only if every worker of a
   * non-empty pool is gone; otherwise its message is accepted and queued behind the others.
   */
  lemma RefusedIffAllGone(n: nat, es: seq<Event>, m: Message)
    requires CanRun(Init(n), es)
    ensures var p := Exec(Init(n), es); var q := Apply(p, Push(m));
      if n > 0 && AllGone(p)
      then q.accepted == p.accepted && q.shared.queue == p.shared.queue && q.refused == p.refused + 1
      else q.accepted == p.accepted + [m] && q.shared.queue == p.shared.queue + [m] && q.refused == p.refused
  {
    Reachable(n, es);
    LiveBounds(Exec(Init(n), es).workers);
  }

  /** An abandoned pool stays as it is: nothing is accepted, popped, called back or freed any more. */
  lemma {:induction false} AllGoneIsFinal(p: Pool, more: seq<Event>)
    requires Counts(p) && |p.workers| > 0 && AllGone(p) && CanRun(p, more)
    ensures var q := Exec(p, more);
      && AllGone(q) && q.accepted == p.accepted && q.popped == p.popped && q.shared == p.shared
      && q.called == p.called && q.freed == p.freed
    decreases |more|
  {
    if more == [] {
    } else {
      LiveBounds(p.workers);
      StepCounts(p, more[0]);
      AllGoneIsFinal(Apply(p, more[0]), more[1..]);
    }
  }

  /** In particular after any run that has emptied the pool. */
  lemma NothingAfterAllGone(n: nat, es: seq<Event>, more: seq<Event>)
    requires n > 0 && CanRun(Init(n), es) && AllGone(Exec(Init(n), es)) && CanRun(Exec(Init(n), es), more)
    ensures var p := Exec(Init(n), es); var q := Exec(p, more);
      && AllGone(q) && q.accepted == p.accepted && q.popped == p.popped && q.shared == p.shared
      && q.called == p.called && q.freed == p.freed
  {
    Reachable(n, es);
    AllGoneIsFinal(Exec(Init(n), es), more);
  }

  /** Whenever a worker waits beside a non-empty queue, some put has pushed and not notified yet. */
  lemma NoWakeupIsLost(n: nat, es: seq<Event>, w: nat)
    requires CanRun(Init(n), es)
    requires var p := Exec(Init(n), es); w < |p.workers| && p.workers[w] == Waiting && p.shared.queue != []
    ensures Enabled(Exec(Init(n), es), Notify)
    ensures Apply(Exec(Init(n), es), Notify).workers[w] == Woken
  {
    Reachable(n, es);
    assert SomeWaiting(Exec(Init(n), es));
  }

  /** Messages leave the queue in the order in which puts were accepted, and none is lost. */
  lemma FifoOverRuns(n: nat, es: seq<Event>)
    requires CanRun(Init(n), es)
    ensures var p := Exec(Init(n), es); p.accepted == p.popped + p.shared.queue
  {
    Reachable(n, es);
  }

  /**
   * When every worker has left, what was called back and freed depends on the accepted messages
   * alone: everything up to the n-th exit message, once each, and everything behind it is stranded.
   */
  lemma ExactlyOnceUpToTheLastToken(n: nat, es: seq<Event>)
    requires n > 0 && CanRun(Init(n), es) && AllGone(Exec(Init(n), es))
    ensures var p := Exec(Init(n), es);
      var cut := CutAtToken(p.accepted, n);
      && p.popped == cut
      && p.accepted == cut + p.shared.queue
      && p.called == multiset(DataOf(cut))
      && p.freed == multiset(cut)
  {
    Reachable(n, es);
    var p := Exec(Init(n), es);
    LiveBounds(p.workers);
    CutIsUnique(p.popped, p.shared.queue, n);
    forall m
      ensures p.called[m] == multiset(DataOf(p.popped))[m]
      ensures p.freed[m] == multiset(p.popped)[m]
    {
      NothingOwed(p, m);
    }
  }

  lemma NothingOwed(p: Pool, m: Message)
    requires Balanced(p, m) && AllGone(p)
    ensures p.called[m] == multiset(DataOf(p.popped))[m]
    ensures p.freed[m] == multiset(p.popped)[m]
  {
    NobodyOwes(p.workers, m);
    CountInDataOf(p.popped, m);
    CountIsMultiplicity(DataOf(p.popped), m);
    CountIsMultiplicity(p.popped, m);
  }

  // ---- progress ----

  /** An event that is neither a new put nor a spurious wakeup. */
  predicate Quiet(e: Event) {
    !e.Push? && !e.SpuriousWake?
  }

  predicate AllQuiet(es: seq<Event>) {
    forall e :: e in es ==> Quiet(e)
  }

  /** One more than the number of workers a notification can wake, for each notification due. */
  function NotifyLoad(workers: nat, notifies: nat): nat {
    if notifies == 0 then 0 else workers + 1 + NotifyLoad(workers, notifies - 1)
  }

  function Measure(p: Pool): nat {
    3 * |p.shared.queue| + NotifyLoad(|p.workers|, p.notifies) + Load(p.workers)
  }

  lemma StepDecreases(p: Pool, e: Event)
    requires Enabled(p, e) && Quiet(e)
    ensures Measure(Apply(p, e)) < Measure(p)
  {
    match e
    case Notify => WakeAllKeeps(p.workers, ExitToken);
    case Enter(w) => EnterDecreases(p, w);
    case CallBack(w) => Replace(p.workers, w, Called(p.workers[w].msg), ExitToken);
    case Free(w) => Replace(p.workers, w, Checking, ExitToken);
    case InitDone(w) => Replace(p.workers, w, Checking, ExitToken);
  }

  lemma EnterDecreases(p: Pool, w: nat)
    requires Enabled(p, Enter(w))
    ensures Measure(ApplyEnter(p, w)) < Measure(p)
  {
    Replace(p.workers, w, ApplyEnter(p, w).workers[w], ExitToken);
  }

  /** With an exit message accepted for every worker, someone can always move until all are gone. */
  lemma NeverStuck(p: Pool) returns (e: Event)
    requires Inv(p) && Tokens(p.accepted) >= |p.workers| && !AllGone(p)
    ensures Enabled(p, e) && Quiet(e)
  {
    var i :| 0 <= i < |p.workers| && p.workers[i] != Gone;
    SomeoneLive(p, i);
    TokensConcat(p.popped, p.shared.queue);
    assert p.shared.queue != [];
    match p.workers[i]
    case Starting => e := InitDone(i);
    case Checking => e := Enter(i);
    case Woken => e := Enter(i);
    case Holding(_) => e := CallBack(i);
    case Called(_) => e := Free(i);
    case Waiting =>
      assert SomeWaiting(p);
      e := Notify;
  }

  lemma {:induction false} QuietRunIsShort(p: Pool, es: seq<Event>)
    requires Inv(p) && CanRun(p, es) && AllQuiet(es)
    ensures |es| + Measure(Exec(p, es)) <= Measure(p)
    ensures Exec(p, es).accepted == p.accepted
    decreases |es|
  {
    if es == [] {
    } else {
      assert es[0] in es;
      StepInv(p, es[0]);
      StepDecreases(p, es[0]);
      QuietRunIsShort(Apply(p, es[0]), es[1..]);
    }
  }

  /**
   * No wakeup is lost: after n exit messages have been accepted and the producers have stopped,
   * every continuation is finite, and one that cannot be continued has all workers gone.
   */
  lemma PoolShutsDown(n: nat, es: seq<Event>, rest: seq<Event>)
    requires CanRun(Init(n), es)
    requires var p := Exec(Init(n), es);
      Tokens(p.accepted) >= n && CanRun(p, rest) && AllQuiet(rest)
    ensures var p := Exec(Init(n), es);
      && |rest| <= Measure(p)
      && (AllGone(Exec(p, rest)) || exists e :: Quiet(e) && Enabled(Exec(p, rest), e))
  {
    Reachable(n, es);
    var p := Exec(Init(n), es);
    QuietRunIsShort(p, rest);
    RunInv(p, rest);
    if !AllGone(Exec(p, rest)) {
      var e := NeverStuck(Exec(p, rest));
    }
  }
}
