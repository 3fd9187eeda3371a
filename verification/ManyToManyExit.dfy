/**
 * The destructor of the worker pool: it re-reads the number of active workers without the lock
 * before every exit message it sends, while the workers decrement that number.
 */
module ManyToManyExit {
  import opened Messages
  import opened M = ManyToMany

  /** Where the destroying thread stands; i is its loop counter. */
  datatype Exiter =
    | Testing(i: nat)     // about to read the counter for the loop test
    | Putting(i: nat)     // test passed, about to put an exit message
    | Notifying(i: nat)   // message pushed, about to notify
    | Joining             // loop left, waiting for all workers
    | Skipping            // loop left without a successful put, join skipped

  datatype System = System(pool: Pool, exiter: Exiter, suc: bool, sent: nat, failed: nat)

  datatype Action = Others(e: Event) | ReadCount | PutToken | NotifyToken

  function Start(p: Pool): System {
    System(p, Testing(0), false, 0, 0)
  }

  /** Other threads do anything but send exit messages. */
  predicate CanAct(s: System, a: Action) {
    match a
    case Others(e) =>
      && Enabled(s.pool, e) && e != Push(ExitToken)
      && (e.Notify? && s.exiter.Notifying? ==> s.pool.notifies > 1)
    case ReadCount => s.exiter.Testing?
    case PutToken => s.exiter.Putting?
    case NotifyToken => s.exiter.Notifying? && s.pool.notifies > 0
  }

  function Act(s: System, a: Action): System
    requires CanAct(s, a)
  {
    match a
    case Others(e) => s.(pool := Apply(s.pool, e))
    case ReadCount =>
      if s.exiter.i < s.pool.shared.active then s.(exiter := Putting(s.exiter.i))
      else s.(exiter := if s.suc then Joining else Skipping)
    case PutToken =>
      var pool := ApplyPush(s.pool, ExitToken);
      if PutSection(s.pool.shared, ExitToken).1
      then System(pool, Notifying(s.exiter.i), true, s.sent + 1, s.failed)
      else System(pool, Testing(s.exiter.i + 1), false, s.sent, s.failed + 1)
    case NotifyToken =>
      s.(pool := Apply(s.pool, Notify), exiter := Testing(s.exiter.i + 1))
  }

  predicate CanActAll(s: System, acts: seq<Action>)
    decreases |acts|
  {
    acts == [] || (CanAct(s, acts[0]) && CanActAll(Act(s, acts[0]), acts[1..]))
  }

  function ActAll(s: System, acts: seq<Action>): System
    requires CanActAll(s, acts)
    decreases |acts|
  {
    if acts == [] then s else ActAll(Act(s, acts[0]), acts[1..])
  }

  /** The invariant of the exit loop, started with a live workers and no exit message queued. */
  ghost predicate ExitInv(s: System, a: nat) {
    && Inv(s.pool)
    && Tokens(s.pool.accepted) == |s.pool.workers| - a + s.sent
    && s.pool.shared.active <= a
    && s.failed == 0
    && match s.exiter
       case Testing(i) => s.sent == i <= a && (s.suc <==> i > 0)
       case Putting(i) => s.sent == i < a
       case Notifying(i) => s.sent == i + 1 <= a && s.suc && s.pool.notifies > 0
       case Joining => 0 < s.sent <= a <= 2 * s.sent
       case Skipping => s.sent == a == 0
  }

  /** At most as many workers have left as exit messages were sent. */
  lemma ActiveBound(s: System, a: nat)
    requires ExitInv(s, a)
    ensures a - s.sent <= s.pool.shared.active
  {
    TokensConcat(s.pool.popped, s.pool.shared.queue);
  }

  lemma OthersInv(s: System, e: Event, a: nat)
    requires ExitInv(s, a) && CanAct(s, Others(e))
    ensures ExitInv(Act(s, Others(e)), a)
  {
    StepInv(s.pool, e);
    OthersKeepTokens(s.pool, e);
  }

  lemma OthersKeepTokens(p: Pool, e: Event)
    requires Counts(p) && Enabled(p, e) && e != Push(ExitToken)
    ensures Tokens(Apply(p, e).accepted) == Tokens(p.accepted)
    ensures |Apply(p, e).workers| == |p.workers| && Apply(p, e).shared.active <= p.shared.active
  {
    if e.Push? { AppendOne(p.accepted, e.m); }
  }

  lemma PutTokenInv(s: System, a: nat)
    requires ExitInv(s, a) && CanAct(s, PutToken)
    ensures ExitInv(Act(s, PutToken), a)
  {
    ActiveBound(s, a);
    StepInv(s.pool, Push(ExitToken));
    AppendOne(s.pool.accepted, ExitToken);
  }

  lemma ActInv(s: System, act: Action, a: nat)
    requires ExitInv(s, a) && CanAct(s, act)
    ensures ExitInv(Act(s, act), a)
  {
    match act
    case Others(e) => OthersInv(s, e, a);
    case ReadCount => ActiveBound(s, a);
    case PutToken => PutTokenInv(s, a);
    case NotifyToken => StepInv(s.pool, Notify);
  }

  lemma {:induction false} ActAllInv(s: System, acts: seq<Action>, a: nat)
    requires ExitInv(s, a) && CanActAll(s, acts)
    ensures ExitInv(ActAll(s, acts), a)
    ensures s.exiter.Joining? ==> ActAll(s, acts).exiter.Joining? && ActAll(s, acts).sent == s.sent
    decreases |acts|
  {
    if acts == [] {
    } else {
      ActInv(s, acts[0], a);
      ActAllInv(Act(s, acts[0]), acts[1..], a);
    }
  }

  /** The pools the destructor may start from: reachable, with no exit message queued. */
  ghost predicate Startable(p: Pool) {
    Inv(p) && Tokens(p.shared.queue) == 0
  }

  lemma StartInv(p: Pool)
    requires Startable(p)
    ensures p.shared.active >= 0 && ExitInv(Start(p), p.shared.active)
  {
    TokensConcat(p.popped, p.shared.queue);
  }

  // ---- main results ----

  /**
   * With a live workers, every interleaving makes the loop queue k exit messages with
   * k <= a <= 2k, and no put inside the loop is refused.
   */
  lemma ExitLoopBound(p: Pool, acts: seq<Action>)
    requires Startable(p) && CanActAll(Start(p), acts)
    ensures var s := ActAll(Start(p), acts); var a := p.shared.active;
      && s.failed == 0 && s.sent <= a
      && (s.exiter.Joining? || s.exiter.Skipping? ==> a <= 2 * s.sent)
      && (s.exiter.Skipping? ==> a == 0)
  {
    StartInv(p);
    ActAllInv(Start(p), acts, p.shared.active);
  }

  lemma {:induction false} Concat(s: System, x: seq<Action>, y: seq<Action>)
    requires CanActAll(s, x) && CanActAll(ActAll(s, x), y)
    ensures CanActAll(s, x + y) && ActAll(s, x + y) == ActAll(ActAll(s, x), y)
    decreases |x|
  {
    if x == [] {
      assert x + y == y;
    } else {
      assert (x + y)[0] == x[0] && (x + y)[1..] == x[1..] + y;
      Concat(Act(s, x[0]), x[1..], y);
    }
  }

  /** If the loop sent a message to everyone, the workers can all leave. */
  lemma {:induction false} AllCanLeave(s: System, a: nat) returns (acts: seq<Action>)
    requires ExitInv(s, a) && s.exiter.Joining? && s.sent == a
    ensures CanActAll(s, acts) && AllGone(ActAll(s, acts).pool)
    decreases Measure(s.pool)
  {
    if AllGone(s.pool) {
      acts := [];
    } else {
      var e := NeverStuck(s.pool);
      var act := Others(e);
      StepDecreases(s.pool, e);
      ActInv(s, act, a);
      var rest := AllCanLeave(Act(s, act), a);
      acts := [act] + rest;
      assert acts[1..] == rest;
    }
  }

  /** Some continuation ends with every worker gone. */
  ghost predicate JoinCanReturn(s: System) {
    exists more :: CanActAll(s, more) && AllGone(ActAll(s, more).pool)
  }

  lemma NoJoinIfShort(s: System, a: nat)
    requires ExitInv(s, a) && s.exiter.Joining? && s.sent < a
    ensures !JoinCanReturn(s)
  {
    forall more | CanActAll(s, more)
      ensures !AllGone(ActAll(s, more).pool)
    {
      ActAllInv(s, more, a);
      ActiveBound(ActAll(s, more), a);
      LiveBounds(ActAll(s, more).pool.workers);
    }
  }

  /** join_all can return exactly when the loop queued one exit message per live worker. */
  lemma JoinReturnsIffOneTokenEach(p: Pool, acts: seq<Action>)
    requires Startable(p) && CanActAll(Start(p), acts) && ActAll(Start(p), acts).exiter.Joining?
    ensures ActAll(Start(p), acts).sent == p.shared.active <==> JoinCanReturn(ActAll(Start(p), acts))
  {
    var a, s := p.shared.active, ActAll(Start(p), acts);
    StartInv(p);
    ActAllInv(Start(p), acts, a);
    if s.sent == a {
      var more := AllCanLeave(s, a);
    } else {
      NoJoinIfShort(s, a);
    }
  }

  // ---- the loop itself, on the queue object ----

  /** One critical section of another thread: a live worker's, or a producer's with a data message. */
  datatype Turn = Work | Produce(address: nat)

  /** The exit messages sent are either still queued or have each taken one worker away. */
  ghost predicate Ledger(q: WorkerQueue, a: int, sent: nat)
    reads q
  {
    && q.threadActiveNum <= a
    && q.threadActiveNum - Tokens(q.queue) == a - sent
    && (q.isThreadExit ==> q.threadActiveNum == 0)
  }

  method Interfere(q: WorkerQueue, turns: seq<Turn>, ghost a: int, ghost sent: nat)
    requires Ledger(q, a, sent)
    modifies q
    ensures Ledger(q, a, sent)
  {
    for i := 0 to |turns|
      invariant Ledger(q, a, sent)
    {
      match turns[i]
      case Work =>
        if q.threadActiveNum > 0 {
          if q.queue != [] {
            TokensConcat([q.queue[0]], q.queue[1..]);
            assert q.queue == [q.queue[0]] + q.queue[1..];
            AppendOne([], q.queue[0]);
            assert [] + [q.queue[0]] == [q.queue[0]];
          }
          var outcome := q.Svc();
        }
      case Produce(address) =>
        AppendOne(q.queue, Data(address));
        var r := q.Put(Data(address));
    }
  }

  /** The loop of the destructor; others(t) is what the other threads do in its t-th gap. */
  method ExitLoop(q: WorkerQueue, others: nat -> seq<Turn>) returns (k: nat, suc: int)
    requires q.threadActiveNum >= 0 && Tokens(q.queue) == 0
    requires q.isThreadExit ==> q.threadActiveNum == 0
    modifies q
    ensures k <= old(q.threadActiveNum) <= 2 * k
    ensures suc == if old(q.threadActiveNum) > 0 then 0 else -1
    ensures Ledger(q, old(q.threadActiveNum), k)
  {
    ghost var a := q.threadActiveNum;
    suc := -1;
    k := 0;
    var i, gap := 0, 0;
    while i < q.threadActiveNum
      invariant i == k <= a && Ledger(q, a, k)
      invariant suc == if k > 0 then 0 else -1
      decreases a - i
    {
      Interfere(q, others(gap), a, k);
      AppendOne(q.queue, ExitToken);
      suc := q.Put(ExitToken);
      if suc == 0 {
        k := k + 1;
      }
      Interfere(q, others(gap + 1), a, k);
      i, gap := i + 1, gap + 2;
    }
  }

  // ---- the bound is exact, from every pool ----

  function Repeat(n: nat): seq<Message> {
    seq(n, _ => ExitToken)
  }

  /** Every worker is gone or stands at `at`. */
  predicate AllAt(ws: seq<Worker>, at: Worker) {
    forall i :: 0 <= i < |ws| ==> ws[i] == Gone || ws[i] == at
  }

  /** `sent` exit messages have been sent and `gone` of them taken, with all other workers in step. */
  ghost predicate Marching(s: System, a: nat, sent: nat, gone: nat) {
    && ExitInv(s, a)
    && s.exiter == Testing(sent) && gone <= sent
    && s.pool.shared.queue == Repeat(sent - gone)
    && s.pool.shared.active == a - gone
    && AllAt(s.pool.workers, if sent == 0 then Waiting else Woken)
  }

  /** Something other than waiting that a pool can do without new messages, if it can do anything. */
  lemma AtRestOrMoving(p: Pool) returns (rest: bool, e: Event)
    requires Inv(p) && p.shared.active > 0
    ensures rest ==> AllAt(p.workers, Waiting) && p.shared.queue == []
    ensures !rest ==> Enabled(p, e) && Quiet(e)
  {
    rest, e := false, Notify;
    if p.notifies == 0 {
      if i :| 0 <= i < |p.workers| && p.workers[i] != Gone && p.workers[i] != Waiting {
        match p.workers[i]
        case Starting => e := InitDone(i);
        case Checking => e := Enter(i);
        case Woken => e := Enter(i);
        case Holding(_) => e := CallBack(i);
        case Called(_) => e := Free(i);
      } else {
        rest := true;
        LiveBounds(p.workers);
        assert SomeWaiting(p);
      }
    }
  }

  /** Before the destructor sends anything, the workers can finish all work and wait. */
  lemma {:induction false} Settle(s: System, a: nat) returns (acts: seq<Action>)
    requires ExitInv(s, a) && s.exiter == Testing(0) && a > 0
    ensures CanActAll(s, acts) && Marching(ActAll(s, acts), a, 0, 0)
    decreases Measure(s.pool)
  {
    ActiveBound(s, a);
    var rest, e := AtRestOrMoving(s.pool);
    if rest {
      acts := [];
    } else {
      var act := Others(e);
      StepDecreases(s.pool, e);
      ActInv(s, act, a);
      var more := Settle(Act(s, act), a);
      acts := [act] + more;
      assert acts[1..] == more;
    }
  }

  lemma ThreeActs(s: System, x: Action, y: Action, z: Action)
    requires CanAct(s, x) && CanAct(Act(s, x), y) && CanAct(Act(Act(s, x), y), z)
    ensures CanActAll(s, [x, y, z]) && ActAll(s, [x, y, z]) == Act(Act(Act(s, x), y), z)
  {
    var acts, s1, s2 := [x, y, z], Act(s, x), Act(Act(s, x), y);
    assert acts[1..] == [y, z] && [y, z][1..] == [z] && [z][1..] == [];
    assert CanActAll(Act(s2, z), []) && ActAll(Act(s2, z), []) == Act(s2, z);
    assert CanActAll(s2, [z]) && ActAll(s2, [z]) == Act(s2, z);
    assert CanActAll(s1, [y, z]) && ActAll(s1, [y, z]) == Act(s2, z);
  }

  /** One turn of the loop while no worker runs. */
  lemma SendOne(s: System, a: nat, sent: nat)
    requires Marching(s, a, sent, 0) && sent < a
    ensures CanActAll(s, [ReadCount, PutToken, NotifyToken])
    ensures Marching(ActAll(s, [ReadCount, PutToken, NotifyToken]), a, sent + 1, 0)
  {
    ActInv(s, ReadCount, a);
    var s1 := Act(s, ReadCount);
    ActInv(s1, PutToken, a);
    var s2 := Act(s1, PutToken);
    ActInv(s2, NotifyToken, a);
    ThreeActs(s, ReadCount, PutToken, NotifyToken);
    assert Repeat(sent) + [ExitToken] == Repeat(sent + 1);
  }

  lemma {:induction false} SendMany(s: System, a: nat, sent: nat, target: nat) returns (acts: seq<Action>)
    requires Marching(s, a, sent, 0) && sent <= target <= a
    ensures CanActAll(s, acts) && Marching(ActAll(s, acts), a, target, 0)
    decreases target - sent
  {
    if sent == target {
      acts := [];
    } else {
      var turn := [ReadCount, PutToken, NotifyToken];
      SendOne(s, a, sent);
      var rest := SendMany(ActAll(s, turn), a, sent + 1, target);
      Concat(s, turn, rest);
      acts := turn + rest;
    }
  }

  lemma LeaveOne(s: System, a: nat, sent: nat, gone: nat) returns (w: nat)
    requires Marching(s, a, sent, gone) && gone < sent && gone < a
    ensures CanAct(s, Others(Enter(w))) && Marching(Act(s, Others(Enter(w))), a, sent, gone + 1)
  {
    LiveBounds(s.pool.workers);
    w :| 0 <= w < |s.pool.workers| && s.pool.workers[w] != Gone;
    ActInv(s, Others(Enter(w)), a);
    assert Repeat(sent - gone)[1..] == Repeat(sent - gone - 1);
  }

  lemma {:induction false} LeaveMany(s: System, a: nat, sent: nat, gone: nat, target: nat) returns (acts: seq<Action>)
    requires Marching(s, a, sent, gone) && gone <= target <= sent && target <= a
    ensures CanActAll(s, acts) && Marching(ActAll(s, acts), a, sent, target)
    decreases target - gone
  {
    if gone == target {
      acts := [];
    } else {
      var w := LeaveOne(s, a, sent, gone);
      var act := Others(Enter(w));
      var rest := LeaveMany(Act(s, act), a, sent, gone + 1, target);
      acts := [act] + rest;
      assert acts[1..] == rest;
    }
  }

  /** Every count the bound allows does occur, from every pool: k messages whenever k <= a <= 2k. */
  lemma EveryCountOccurs(p: Pool, k: nat) returns (acts: seq<Action>)
    requires Startable(p) && 0 < k <= p.shared.active <= 2 * k
    ensures CanActAll(Start(p), acts)
    ensures ActAll(Start(p), acts).exiter == Joining && ActAll(Start(p), acts).sent == k
  {
    var s0, a := Start(p), p.shared.active;
    StartInv(p);
    var x := Settle(s0, a);
    var s1 := ActAll(s0, x);
    var y := SendMany(s1, a, 0, k);
    Concat(s0, x, y);
    var s2 := ActAll(s1, y);
    var z := LeaveMany(s2, a, k, 0, a - k);
    Concat(s0, x + y, z);
    var s3 := ActAll(s2, z);
    Concat(s0, x + y + z, [ReadCount]);
    assert ActAll(s3, [ReadCount]) == Act(s3, ReadCount);
    acts := x + y + z + [ReadCount];
  }

  /** However the destructor and the other threads interleave, its join can return. */
  ghost predicate JoinIsSafe(p: Pool) {
    forall acts :: CanActAll(Start(p), acts) && ActAll(Start(p), acts).exiter.Joining? ==>
      JoinCanReturn(ActAll(Start(p), acts))
  }

  /** What can be known before destroying a pool: it is safe if and only if at most one worker is left. */
  lemma JoinIsSafeIffAtMostOneWorker(p: Pool)
    requires Startable(p)
    ensures JoinIsSafe(p) <==> p.shared.active <= 1
  {
    StartInv(p);
    if p.shared.active <= 1 {
      forall acts | CanActAll(Start(p), acts) && ActAll(Start(p), acts).exiter.Joining?
        ensures JoinCanReturn(ActAll(Start(p), acts))
      {
        ActAllInv(Start(p), acts, p.shared.active);
        JoinReturnsIffOneTokenEach(p, acts);
      }
    } else {
      var acts := EveryCountOccurs(p, p.shared.active - 1);
      JoinReturnsIffOneTokenEach(p, acts);
    }
  }
}
