/**
 * The destructor of the single-worker queue: it puts one exit message and joins, unless the put is
 * refused; then it frees the message and returns at once.
 */
module ManyToOneExit {
  import opened Messages
  import opened ManyToOne

  /** Where the destroying thread stands. */
  datatype Destroyer =
    | Putting              // about to put its exit message
    | Notifying            // message pushed, about to notify
    | Joining              // waiting for the worker
    | Returned(suc: int)   // 0 after a join, -1 if the put was refused

  datatype System = System(one: One, destroyer: Destroyer)

  datatype Action = Others(e: Event) | PutExit | NotifyExit | Join

  function Begin(p: One): System {
    System(p, Putting)
  }

  /** The worker does anything; other producers go on sending, but data only. */
  predicate CanAct(s: System, a: Action) {
    match a
    case Others(e) =>
      && Enabled(s.one, e) && e != Push(ExitToken)
      && (e.Notify? && s.destroyer.Notifying? ==> s.one.notifies > 1)
    case PutExit => s.destroyer.Putting?
    case NotifyExit => s.destroyer.Notifying? && s.one.notifies > 0
    case Join => s.destroyer.Joining? && s.one.worker == Gone
  }

  function Act(s: System, a: Action): System
    requires CanAct(s, a)
  {
    match a
    case Others(e) => s.(one := Apply(s.one, e))
    case PutExit =>
      System(Apply(s.one, Push(ExitToken)),
             if PutSection(s.one.shared, ExitToken).1 then Notifying else Returned(-1))
    case NotifyExit => System(Apply(s.one, Notify), Joining)
    case Join => s.(destroyer := Returned(0))
  }

  predicate CanActAll(s: System, acts: seq<Action>)
    decreases |acts|
  {
    acts == [] || (CanAct(s, acts[0]) && CanActAll(Act(s, acts[0]), acts[1..]))
  }

  function ActAll(s: System, acts: seq<Action>): System
    requires CanActAll(s, acts)
    decreases |acts|
  {
    if acts == [] then s else ActAll(Act(s, acts[0]), acts[1..])
  }

  /** The destructor puts before any other exit message is accepted, or the worker is gone already. */
  predicate Orderly(s: System) {
    && Inv(s.one)
    && (s.destroyer.Putting? ==> Tokens(s.one.accepted) == 0 || s.one.worker == Gone)
    && (s.destroyer.Returned? ==> s.one.worker == Gone)
  }

  lemma OrderlyStep(s: System, a: Action)
    requires Orderly(s) && CanAct(s, a)
    ensures Orderly(Act(s, a))
  {
    match a
    case Others(e) =>
      StepInv(s.one, e);
      if e.Push? { AppendOne(s.one.accepted, e.m); }
    case PutExit =>
      StepInv(s.one, Push(ExitToken));
      TokensConcat(s.one.popped, s.one.shared.queue);
    case NotifyExit => StepInv(s.one, Notify);
    case Join =>
  }

  lemma {:induction false} OrderlyRun(s: System, acts: seq<Action>)
    requires Orderly(s) && CanActAll(s, acts)
    ensures Orderly(ActAll(s, acts))
    decreases |acts|
  {
    if acts == [] {
    } else {
      OrderlyStep(s, acts[0]);
      OrderlyRun(Act(s, acts[0]), acts[1..]);
    }
  }

  predicate DataLast(queue: seq<Message>) {
    queue != [] && queue[|queue| - 1].Data?
  }

  /** Data behind an exit message that is still queued is not popped before it. */
  lemma DataStaysLast(p: One, e: Event)
    requires Inv(p) && Enabled(p, e) && Quiet(e) && DataLast(p.shared.queue)
    requires !p.shared.exited && Tokens(p.accepted) > 0
    ensures DataLast(Apply(p, e).shared.queue)
  {
    TokensConcat(p.popped, p.shared.queue);
    var head := p.shared.queue[0];
    AppendOne([], head);
    assert [] + [head] == [head];
    assert |p.shared.queue| == 1 ==> p.shared.queue == [head];
  }

  /** A step towards the pop. */
  lemma OneStepCloser(s: System) returns (e: Event)
    requires Inv(s.one) && Tokens(s.one.accepted) > 0 && !s.one.shared.exited && s.destroyer == Putting
    ensures CanAct(s, Others(e))
    ensures var p := Act(s, Others(e)).one;
      && Inv(p) && Tokens(p.accepted) > 0 && p.worker != Gone && Measure(p) < Measure(s.one)
      && (DataLast(s.one.shared.queue) ==> DataLast(p.shared.queue))
  {
    e := NeverStuck(s.one);
    StepInv(s.one, e);
    StepDecreases(s.one, e);
    if DataLast(s.one.shared.queue) { DataStaysLast(s.one, e); }
  }

  /** The worker can get as far as popping the exit message before the destructor's put. */
  lemma {:induction false} ReachThePop(s: System) returns (acts: seq<Action>)
    requires Inv(s.one) && s.destroyer == Putting && Tokens(s.one.accepted) > 0 && s.one.worker != Gone
    ensures CanActAll(s, acts)
    ensures var s' := ActAll(s, acts);
      && s'.destroyer == Putting && Inv(s'.one) && s'.one.shared.exited && s'.one.worker != Gone
      && (!s.one.shared.exited && DataLast(s.one.shared.queue) ==> DataLast(s'.one.shared.queue))
    ensures s.one.shared.exited ==> acts == []
    decreases Measure(s.one)
  {
    if s.one.shared.exited {
      acts := [];
    } else {
      var e := OneStepCloser(s);
      var rest := ReachThePop(Act(s, Others(e)));
      acts := [Others(e)] + rest;
      assert acts[1..] == rest;
    }
  }

  lemma {:induction false} Concat(s: System, x: seq<Action>, y: seq<Action>)
    requires CanActAll(s, x) && CanActAll(ActAll(s, x), y)
    ensures CanActAll(s, x + y) && ActAll(s, x + y) == ActAll(ActAll(s, x), y)
    decreases |x|
  {
    if x == [] {
      assert x + y == y;
    } else {
      assert (x + y)[0] == x[0] && (x + y)[1..] == x[1..] + y;
      Concat(Act(s, x[0]), x[1..], y);
    }
  }

  /** After the pop the destructor's put is refused, and it returns. */
  lemma RefusedNow(s: System) returns (acts: seq<Action>)
    requires s.destroyer == Putting && s.one.shared.exited
    ensures CanActAll(s, acts)
    ensures var s' := ActAll(s, acts);
      s'.destroyer == Returned(-1) && s'.one == Apply(s.one, Push(ExitToken))
  {
    acts := [PutExit];
    assert acts[1..] == [];
    assert ActAll(s, acts) == Act(s, PutExit);
  }

  // ---- main results ----

  /** The destructor never returns while the worker is still there, in any interleaving. */
  ghost predicate AlwaysWaits(p: One) {
    forall acts :: CanActAll(Begin(p), acts) && ActAll(Begin(p), acts).destroyer.Returned? ==>
      ActAll(Begin(p), acts).one.worker == Gone
  }

  /**
   * Started after any run, the destructor is sure to wait for the worker if and only if nobody else
   * had an exit message accepted before, or the worker is gone already.
   */
  lemma WaitsIffNoOtherExit(es: seq<Event>)
    requires CanRun(INIT, es)
    ensures var p := Exec(INIT, es);
      AlwaysWaits(p) <==> Tokens(p.accepted) == 0 || p.worker == Gone
  {
    RunInv(INIT, es);
    var p := Exec(INIT, es);
    if Tokens(p.accepted) == 0 || p.worker == Gone {
      forall acts | CanActAll(Begin(p), acts) && ActAll(Begin(p), acts).destroyer.Returned?
        ensures ActAll(Begin(p), acts).one.worker == Gone
      {
        OrderlyRun(Begin(p), acts);
      }
    } else {
      var acts := ReachThePop(Begin(p));
      var put := RefusedNow(ActAll(Begin(p), acts));
      Concat(Begin(p), acts, put);
    }
  }

  /** The destructor's put is refused, and its join skipped, exactly after the pop of an exit message. */
  lemma SkipsJoinIffExitPopped(es: seq<Event>)
    requires CanRun(INIT, es)
    ensures var p := Exec(INIT, es);
      Act(Begin(p), PutExit).destroyer == Returned(-1) <==> Tokens(p.popped) > 0
  {
    RunInv(INIT, es);
  }

  // ---- returning in the middle of a callback ----

  /** The destructor can have returned at a point where the worker runs a callback. */
  ghost predicate MayReturnDuringCallback(p: One) {
    exists acts :: CanActAll(Begin(p), acts) &&
      ActAll(Begin(p), acts).destroyer.Returned? && ActAll(Begin(p), acts).one.worker.Holding?
  }

  predicate HasData(queue: seq<Message>) {
    exists i :: 0 <= i < |queue| && queue[i].Data?
  }

  /** An exit message has been popped and no data is left to call back. */
  predicate Spent(p: One) {
    p.shared.exited && !p.worker.Holding? && !HasData(p.shared.queue)
  }

  lemma {:induction false} SpentStays(s: System, acts: seq<Action>)
    requires Spent(s.one) && CanActAll(s, acts)
    ensures Spent(ActAll(s, acts).one)
    decreases |acts|
  {
    if acts == [] {
    } else {
      var q, q' := s.one.shared.queue, Act(s, acts[0]).one.shared.queue;
      assert q' == q || q' == q[1..];
      assert forall i :: 0 <= i < |q'| ==> q'[i] in q;
      SpentStays(Act(s, acts[0]), acts[1..]);
    }
  }

  /** The worker gets to some callback after the pop, if data is left. */
  lemma {:induction false} ReachACallback(s: System) returns (acts: seq<Action>)
    requires Inv(s.one) && s.destroyer.Returned? && s.one.shared.exited
    requires s.one.worker.Holding? || HasData(s.one.shared.queue)
    ensures CanActAll(s, acts)
    ensures ActAll(s, acts).destroyer.Returned? && ActAll(s, acts).one.worker.Holding?
    decreases Measure(s.one)
  {
    if s.one.worker.Holding? {
      acts := [];
    } else {
      TokensConcat(s.one.popped, s.one.shared.queue);
      var e := NeverStuck(s.one);
      StepInv(s.one, e);
      StepDecreases(s.one, e);
      KeepsData(s.one, e);
      var rest := ReachACallback(Act(s, Others(e)));
      acts := [Others(e)] + rest;
      assert acts[1..] == rest;
    }
  }

  lemma KeepsData(p: One, e: Event)
    requires Enabled(p, e) && Quiet(e) && HasData(p.shared.queue) && !p.worker.Holding?
    ensures Apply(p, e).worker.Holding? || HasData(Apply(p, e).shared.queue)
  {
    var i :| 0 <= i < |p.shared.queue| && p.shared.queue[i].Data?;
    if i > 0 {
      assert p.shared.queue[1..][i - 1].Data?;
    }
  }

  /** Data is pushed if that is still possible, and the exit message popped before it. */
  lemma PopBeforeData(p: One) returns (acts: seq<Action>)
    requires Inv(p) && Tokens(p.accepted) > 0 && p.worker != Gone && !Spent(p)
    ensures CanActAll(Begin(p), acts)
    ensures var s := ActAll(Begin(p), acts);
      && Inv(s.one) && s.destroyer == Putting && s.one.shared.exited
      && (s.one.worker.Holding? || HasData(s.one.shared.queue))
  {
    if p.shared.exited {
      acts := [];
    } else {
      var push := Others(Push(Data(0)));
      var s := Act(Begin(p), push);
      StepInv(p, Push(Data(0)));
      AppendOne(p.accepted, Data(0));
      var rest := ReachThePop(s);
      acts := [push] + rest;
      assert acts[1..] == rest;
    }
  }

  /** Such a run, built: after that the put is refused and the data called back. */
  lemma CallbackRun(p: One) returns (acts: seq<Action>)
    requires Inv(p) && Tokens(p.accepted) > 0 && p.worker != Gone && !Spent(p)
    ensures CanActAll(Begin(p), acts)
    ensures ActAll(Begin(p), acts).destroyer.Returned? && ActAll(Begin(p), acts).one.worker.Holding?
  {
    var x := PopBeforeData(p);
    var s := ActAll(Begin(p), x);
    var y := RefusedNow(s);
    StepInv(s.one, Push(ExitToken));
    var z := ReachACallback(ActAll(s, y));
    Concat(Begin(p), x, y);
    Concat(Begin(p), x + y, z);
    acts := x + y + z;
  }

  /**
   * The destructor can return in the middle of a callback if and only if someone else's exit message
   * was accepted, the worker is still there, and not both the exit message and all data are popped.
   */
  lemma ReturnsDuringCallbackIff(es: seq<Event>)
    requires CanRun(INIT, es)
    ensures var p := Exec(INIT, es);
      MayReturnDuringCallback(p) <==> Tokens(p.accepted) > 0 && p.worker != Gone && !Spent(p)
  {
    RunInv(INIT, es);
    var p := Exec(INIT, es);
    if Tokens(p.accepted) > 0 && p.worker != Gone && !Spent(p) {
      var acts := CallbackRun(p);
    } else {
      forall acts | CanActAll(Begin(p), acts) && ActAll(Begin(p), acts).destroyer.Returned?
        ensures !ActAll(Begin(p), acts).one.worker.Holding?
      {
        if Spent(p) {
          SpentStays(Begin(p), acts);
        } else {
          OrderlyRun(Begin(p), acts);
        }
      }
    }
  }
}
