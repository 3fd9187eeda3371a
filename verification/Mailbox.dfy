/**
 * The one-slot mailbox in shared memory: one sender with a bounded number of attempts, one
 * receiver, two condition variables, and waits that are not repeated in a loop.
 */
module Mailbox {
  import opened Bytes

  datatype Kind = Data | Exit

  /** A message to send; its data is at most `size` bytes, the size of the slot. */
  datatype Message = Message(kind: Kind, data: Bytes)

  /** What is stored in the slot: always `size` bytes. */
  datatype Item = Item(kind: Kind, bytes: Bytes)

  const ATTEMPTS: nat := 5

  function Padded(m: Message, size: nat): Item
    requires |m.data| <= size
  {
    Item(m.kind, m.data + seq(size - |m.data|, _ => 0))
  }

  /** What an item carries: the message's kind, its data from the start, and zeros behind, to the full size. */
  predicate Carries(item: Item, m: Message, size: nat) {
    && item.kind == m.kind && |item.bytes| == size && |m.data| <= size
    && (forall i :: 0 <= i < |m.data| ==> item.bytes[i] == m.data[i])
    && (forall i :: |m.data| <= i < size ==> item.bytes[i] == 0)
  }

  // ---- the shared structure and the two loops over it ----

  class ShmData {
    const items: array<byte>
    var messageIn: bool
    var kind: Kind

    constructor (size: nat)
      ensures fresh(items) && items.Length == size && !messageIn && kind == Data
    {
      items := new byte[size];
      messageIn, kind := false, Data;
    }

    /** What the sender does with the lock held and the slot free. */
    method Store(m: Message)
      requires |m.data| <= items.Length
      modifies this, items
      ensures messageIn && Item(kind, items[..]) == Padded(m, items.Length)
      ensures kind == m.kind
      ensures forall i :: 0 <= i < |m.data| ==> items[i] == m.data[i]
      ensures forall i :: |m.data| <= i < items.Length ==> items[i] == 0
    {
      forall i | 0 <= i < items.Length {
        items[i] := 0;
      }
      forall i | 0 <= i < |m.data| {
        items[i] := m.data[i];
      }
      kind := m.kind;
      messageIn := true;
    }

    /** Another party's store, of a whole item. */
    method Hold(item: Item)
      requires |item.bytes| == items.Length
      modifies this, items
      ensures messageIn && Item(kind, items[..]) == item
    {
      forall i | 0 <= i < items.Length {
        items[i] := item.bytes[i];
      }
      kind := item.kind;
      messageIn := true;
    }
  }

  /**
   * What the world does to one attempt: opening or mapping throws, or the lock is obtained, perhaps
   * after the receiver emptied the slot, and a wait for it ends by notification or by timeout.
   */
  datatype Attempt = OpenFails | Locked(emptied: bool, notified: bool)

  /** Whether an attempt gets to write, given whether the slot was full before it. */
  predicate Succeeds(full: bool, a: Attempt) {
    a.Locked? && (!full || a.emptied || a.notified)
  }

  class ShmSender {
    constructor () {}

    /** put returns -1 exactly if all five attempts fail, and then it has not touched the slot. */
    method Put(slot: ShmData, m: Message, world: nat -> Attempt) returns (r: int)
      requires |m.data| <= slot.items.Length
      modifies slot, slot.items
      ensures r == -1 || r == 0
      ensures r == -1 <==> forall i: nat :: i < 5 ==> !Succeeds(old(slot.messageIn), world(i))
      ensures r == -1 ==> unchanged(slot) && unchanged(slot.items)
      ensures r == 0 ==> slot.messageIn && Item(slot.kind, slot.items[..]) == Padded(m, slot.items.Length)
      ensures r == 0 ==> slot.kind == m.kind && slot.items[..|m.data|] == m.data
      ensures r == 0 ==> forall i :: |m.data| <= i < slot.items.Length ==> slot.items[i] == 0
    {
      var counter: nat := 0;
      while counter < ATTEMPTS
        invariant counter <= ATTEMPTS
        invariant unchanged(slot) && unchanged(slot.items)
        invariant forall i: nat :: i < counter ==> !Succeeds(slot.messageIn, world(i))
      {
        var a := world(counter);
        if a.OpenFails? {
          counter := counter + 1;
          continue;
        }
        if slot.messageIn && !a.emptied && !a.notified {
          counter := counter + 1;
          continue;
        }
        assert Succeeds(old(slot.messageIn), world(counter));
        slot.Store(m);
        break;
      }
      r := if counter == ATTEMPTS then -1 else 0;
    }
  }

  /** What the receiver's stretch with the lock held ends in. */
  datatype Outcome = Wait | Got(bytes: Bytes) | Ended

  /** What one turn of the receiver meets: an item stored before it has the lock, or while it waits. */
  datatype Arrival = Arrival(early: bool, item: Item)

  /** The bytes of the first n items up to the first exit message. */
  function UpToExit(world: nat -> Arrival, n: nat): seq<Bytes> {
    if n == 0 then []
    else UpToExit(world, n - 1) + (if ExitWithin(world, n) then [] else [world(n - 1).item.bytes])
  }

  /** One of the first n items is an exit message. */
  predicate ExitWithin(world: nat -> Arrival, n: nat) {
    exists i: nat :: i < n && world(i).item.kind == Exit
  }

  class ShmReceiver {
    constructor () {}

    /** From taking the lock, or from being woken with it: the slot is looked at only if not woken. */
    method SvcLocked(slot: ShmData, woken: bool) returns (outcome: Outcome)
      modifies slot`messageIn
      ensures outcome ==
        if !old(slot.messageIn) && !woken then Wait
        else if slot.kind == Exit then Ended else Got(slot.items[..])
      ensures slot.messageIn == if outcome.Got? then false else old(slot.messageIn)
    {
      if !slot.messageIn && !woken {
        return Wait;
      }
      if slot.kind == Exit {
        return Ended;
      }
      outcome := Got(slot.items[..]);
      slot.messageIn := false;
    }

    /** The receive loop, for a number of turns or until an exit message. */
    method Svc(slot: ShmData, world: nat -> Arrival, turns: nat) returns (received: seq<Bytes>, ended: bool)
      requires !slot.messageIn && forall i: nat :: |world(i).item.bytes| == slot.items.Length
      modifies slot, slot.items
      ensures received == UpToExit(world, turns)
      ensures ended <==> ExitWithin(world, turns)
      ensures slot.messageIn <==> ended
    {
      received, ended := [], false;
      var i := 0;
      while i < turns && !ended
        invariant i <= turns
        invariant received == UpToExit(world, i)
        invariant slot.messageIn <==> ended
        invariant ended <==> ExitWithin(world, i)
      {
        var arrival := world(i);
        if arrival.early {
          slot.Hold(arrival.item);
        }
        var outcome := SvcLocked(slot, false);
        if outcome.Wait? {
          slot.Hold(arrival.item);
          outcome := SvcLocked(slot, true);
        }
        if outcome.Got? {
          received := received + [outcome.bytes];
        } else {
          ended := true;
        }
        i := i + 1;
      }
      NothingAfterExitItem(world, i, turns);
    }
  }

  lemma {:induction false} NothingAfterExitItem(world: nat -> Arrival, i: nat, n: nat)
    requires i <= n && (i < n ==> ExitWithin(world, i))
    ensures UpToExit(world, n) == UpToExit(world, i) && (ExitWithin(world, i) <==> ExitWithin(world, n))
    decreases n
  {
    if i == n {
    } else {
      NothingAfterExitItem(world, i, n - 1);
    }
  }

  // ---- the protocol, step by step ----

  datatype Sender =
    | Idle
    | Opening(msg: Message, failures: nat)     // about to open, map and lock
    | Waiting(msg: Message, failures: nat)     // in timed_wait, not woken
    | Notified(msg: Message, failures: nat)    // woken, for whatever reason, about to retake the lock
    | TimedOut(msg: Message, failures: nat)    // timed out, about to retake the lock

  datatype Receiver =
    | Locking
    | WaitingEmpty     // in wait, not woken
    | NotifiedFull     // woken, for whatever reason, about to retake the lock
    | Gone

  /** A finished put: its return code, and how many of its attempts failed. */
  datatype Result = Result(msg: Message, code: int, failures: nat)

  datatype Box = Box(
    messageIn: bool,
    item: Item,
    sender: Sender,
    receiver: Receiver,
    results: seq<Result>,
    written: seq<Item>,      // every item stored in the slot, in order
    received: seq<Item>)     // every item the callback was given

  datatype Event =
    | Put(msg: Message)
    | OpenThrows
    | SenderLocks
    | SenderTimesOut
    | SenderRelocks
    | ReceiverLocks
    | ReceiverRelocks
    | SpuriousSenderWake
    | SpuriousReceiverWake

  function Fresh(size: nat): Box {
    Box(false, Item(Data, seq(size, _ => 0)), Idle, Locking, [], [], [])
  }

  predicate Enabled(b: Box, e: Event, size: nat) {
    match e
    case Put(m) => b.sender == Idle && |m.data| <= size
    case OpenThrows => b.sender.Opening?
    case SenderLocks => b.sender.Opening?
    case SenderTimesOut => b.sender.Waiting?
    case SenderRelocks => b.sender.Notified? || b.sender.TimedOut?
    case ReceiverLocks => b.receiver == Locking
    case ReceiverRelocks => b.receiver == NotifiedFull
    case SpuriousSenderWake => b.sender.Waiting?
    case SpuriousReceiverWake => b.receiver == WaitingEmpty
  }

  function Fail(b: Box): Box
    requires b.sender != Idle
  {
    var n := b.sender.failures + 1;
    if n == ATTEMPTS
    then b.(sender := Idle, results := b.results + [Result(b.sender.msg, -1, n)])
    else b.(sender := Opening(b.sender.msg, n))
  }

  function Write(b: Box, size: nat): Box
    requires b.sender != Idle && |b.sender.msg.data| <= size
  {
    var item := Padded(b.sender.msg, size);
    b.(messageIn := true, item := item, sender := Idle,
       receiver := if b.receiver == WaitingEmpty then NotifiedFull else b.receiver,
       results := b.results + [Result(b.sender.msg, 0, b.sender.failures)],
       written := b.written + [item])
  }

  function Take(b: Box): Box {
    if b.item.kind == Exit then b.(receiver := Gone)
    else b.(messageIn := false, receiver := Locking, received := b.received + [b.item],
            sender := if b.sender.Waiting? then Notified(b.sender.msg, b.sender.failures) else b.sender)
  }

  predicate SizeOk(b: Box, size: nat) {
    b.sender != Idle ==> |b.sender.msg.data| <= size
  }

  function Apply(b: Box, e: Event, size: nat): Box
    requires Enabled(b, e, size) && SizeOk(b, size)
  {
    match e
    case Put(m) => b.(sender := Opening(m, 0))
    case OpenThrows => Fail(b)
    case SenderLocks =>
      if b.messageIn then b.(sender := Waiting(b.sender.msg, b.sender.failures)) else Write(b, size)
    case SenderTimesOut => b.(sender := TimedOut(b.sender.msg, b.sender.failures))
    case SenderRelocks => if b.sender.TimedOut? then Fail(b) else Write(b, size)
    case ReceiverLocks => if b.messageIn then Take(b) else b.(receiver := WaitingEmpty)
    case ReceiverRelocks => Take(b)
    case SpuriousSenderWake => b.(sender := Notified(b.sender.msg, b.sender.failures))
    case SpuriousReceiverWake => b.(receiver := NotifiedFull)
  }

  predicate CanRun(b: Box, es: seq<Event>, size: nat)
    requires SizeOk(b, size)
    decreases |es|
  {
    es == [] || (Enabled(b, es[0], size) && CanRun(Apply(b, es[0], size), es[1..], size))
  }

  function Exec(b: Box, es: seq<Event>, size: nat): Box
    requires SizeOk(b, size) && CanRun(b, es, size)
    decreases |es|
  {
    if es == [] then b else Exec(Apply(b, es[0], size), es[1..], size)
  }

  /** What successful puts stored, in order. */
  function Wins(rs: seq<Result>, size: nat): seq<Item>
    requires forall r :: r in rs ==> |r.msg.data| <= size
  {
    if rs == [] then []
    else
      var last := rs[|rs| - 1];
      Wins(rs[..|rs| - 1], size) + (if last.code == 0 then [Padded(last.msg, size)] else [])
  }

  function InSlot(b: Box): seq<Item> {
    if b.messageIn then [b.item] else []
  }

  predicate ResultOk(r: Result, size: nat) {
    && |r.msg.data| <= size
    && (r.code == 0 || r.code == -1)
    && (r.code == -1 <==> r.failures == 5)
    && r.failures <= 5
  }

  predicate ResultsOk(b: Box, size: nat) {
    && (forall r :: r in b.results ==> ResultOk(r, size))
    && b.written == Wins(b.results, size)
  }

  /** Where the two parties may stand, given the slot, whatever wakes them. */
  predicate Positions(b: Box, size: nat) {
    && SizeOk(b, size)
    && (b.sender != Idle ==> b.sender.failures < ATTEMPTS)
    && (b.sender.Waiting? ==> b.messageIn)
    && (b.receiver == WaitingEmpty ==> !b.messageIn)
    && (!b.messageIn ==> b.item.kind == Data)
  }

  /** Everything stored has been received, in order, except what is in the slot. */
  predicate Fifo(b: Box) {
    && b.written == b.received + InSlot(b)
    && (forall i :: 0 <= i < |b.received| ==> b.received[i].kind == Data)
  }

  predicate ExitStays(b: Box) {
    b.receiver == Gone ==> b.messageIn && b.item.kind == Exit
  }

  predicate Inv(b: Box, size: nat) {
    Positions(b, size) && ResultsOk(b, size)
  }

  lemma StepInv(b: Box, e: Event, size: nat)
    requires Inv(b, size) && Enabled(b, e, size)
    ensures Inv(Apply(b, e, size), size)
  {
    var b' := Apply(b, e, size);
    if b'.results != b.results {
      assert b'.results[..|b.results|] == b.results;
      assert b'.results == b.results + [b'.results[|b.results|]];
    }
  }

  lemma {:induction false} RunInv(b: Box, es: seq<Event>, size: nat)
    requires Inv(b, size) && CanRun(b, es, size)
    ensures Inv(Exec(b, es, size), size)
    decreases |es|
  {
    if es == [] {
    } else {
      StepInv(b, es[0], size);
      RunInv(Apply(b, es[0], size), es[1..], size);
    }
  }

  // ---- what the puts sent, told from the run ----

  /** The messages whose put returned 0, in order. */
  function Winners(rs: seq<Result>): seq<Message> {
    if rs == [] then []
    else
      var last := rs[|rs| - 1];
      Winners(rs[..|rs| - 1]) + (if last.code == 0 then [last.msg] else [])
  }

  lemma {:induction false} WinsCarry(rs: seq<Result>, size: nat)
    requires forall r :: r in rs ==> |r.msg.data| <= size
    ensures |Wins(rs, size)| == |Winners(rs)|
    ensures forall k :: 0 <= k < |Winners(rs)| ==> Carries(Wins(rs, size)[k], Winners(rs)[k], size)
  {
    if rs == [] {
    } else {
      var front, last := rs[..|rs| - 1], rs[|rs| - 1];
      assert last in rs && forall r :: r in front ==> r in rs;
      WinsCarry(front, size);
      assert Carries(Padded(last.msg, size), last.msg, size);
    }
  }

  function PutAt(e: Event): seq<Message> {
    if e.Put? then [e.msg] else []
  }

  /** The messages given to put, in order. */
  function PutsOf(es: seq<Event>): seq<Message> {
    if es == [] then [] else PutAt(es[0]) + PutsOf(es[1..])
  }

  function MessagesOf(rs: seq<Result>): seq<Message> {
    seq(|rs|, i requires 0 <= i < |rs| => rs[i].msg)
  }

  /** The messages of the puts that have ended and of the one under way. */
  function Given(b: Box): seq<Message> {
    MessagesOf(b.results) + (if b.sender == Idle then [] else [b.sender.msg])
  }

  /** An attempt that fails: opening throws, or a wait times out. */
  predicate AttemptFails(b: Box, e: Event) {
    e == OpenThrows || (e == SenderRelocks && b.sender.TimedOut?)
  }

  /** How many attempts of the put under way have failed, `before` of them before the run. */
  function FailedOf(b: Box, es: seq<Event>, size: nat, before: nat): nat
    requires SizeOk(b, size) && CanRun(b, es, size)
    decreases |es|
  {
    if es == [] then before
    else
      FailedOf(Apply(b, es[0], size), es[1..], size,
        if es[0].Put? then 0 else if AttemptFails(b, es[0]) then before + 1 else before)
  }

  lemma StepPuts(b: Box, e: Event, size: nat)
    requires SizeOk(b, size) && Enabled(b, e, size)
    ensures var b' := Apply(b, e, size);
      Given(b') == Given(b) + PutAt(e)
  {
    var b' := Apply(b, e, size);
    if b'.results != b.results {
      assert MessagesOf(b'.results) == MessagesOf(b.results) + [b.sender.msg];
    }
  }

  lemma ConsPuts(made: seq<Message>, es: seq<Event>)
    requires es != []
    ensures made + PutAt(es[0]) + PutsOf(es[1..]) == made + PutsOf(es)
  {}

  lemma {:induction false} RunPuts(b: Box, es: seq<Event>, size: nat, made: seq<Message>)
    requires SizeOk(b, size) && CanRun(b, es, size) && Given(b) == made
    ensures Given(Exec(b, es, size)) == made + PutsOf(es)
    decreases |es|
  {
    if es == [] {
      assert made + [] == made;
    } else {
      var b', made' := Apply(b, es[0], size), made + PutAt(es[0]);
      assert Given(b') == made' by { StepPuts(b, es[0], size); }
      RunPuts(b', es[1..], size, made');
      ConsPuts(made, es);
    }
  }

  lemma StepFailures(b: Box, e: Event, size: nat)
    requires Positions(b, size) && Enabled(b, e, size) && b.sender != Idle
    ensures var b', n := Apply(b, e, size), b.sender.failures + (if AttemptFails(b, e) then 1 else 0);
      if b'.sender != Idle then b'.sender.failures == n && b'.results == b.results
      else b'.results == b.results + [Result(b.sender.msg, if AttemptFails(b, e) then -1 else 0, n)]
  {}

  lemma {:induction false} RunFailures(b: Box, es: seq<Event>, size: nat, before: nat)
    requires Inv(b, size) && CanRun(b, es, size) && (b.sender != Idle ==> b.sender.failures == before)
    ensures var b' := Exec(b, es, size);
      b'.sender != Idle ==> b'.sender.failures == FailedOf(b, es, size, before)
    decreases |es|
  {
    if es == [] {
    } else {
      StepInv(b, es[0], size);
      if b.sender != Idle { StepFailures(b, es[0], size); }
      RunFailures(Apply(b, es[0], size), es[1..], size,
        if es[0].Put? then 0 else if AttemptFails(b, es[0]) then before + 1 else before);
    }
  }

  // ---- the test a repeated wait would make ----

  /** A woken sender finds the slot empty when it has the lock again, and a woken receiver finds it full. */
  predicate Rechecked(b: Box, e: Event) {
    && (e == SenderRelocks && b.sender.Notified? ==> !b.messageIn)
    && (e == ReceiverRelocks ==> b.messageIn)
  }

  /** Every relock of a run would pass the test. */
  predicate AllRechecked(b: Box, es: seq<Event>, size: nat)
    requires SizeOk(b, size) && CanRun(b, es, size)
    decreases |es|
  {
    es == [] || (Rechecked(b, es[0]) && AllRechecked(Apply(b, es[0], size), es[1..], size))
  }

  /** Nothing is lost, duplicated or reordered at any point of a run. */
  predicate FifoThroughout(b: Box, es: seq<Event>, size: nat)
    requires SizeOk(b, size) && CanRun(b, es, size)
    decreases |es|
  {
    Fifo(b) && (es != [] ==> FifoThroughout(Apply(b, es[0], size), es[1..], size))
  }

  lemma RecheckedStepKeeps(b: Box, e: Event, size: nat)
    requires Inv(b, size) && Fifo(b) && Enabled(b, e, size) && Rechecked(b, e)
    ensures Fifo(Apply(b, e, size))
    ensures ExitStays(b) ==> ExitStays(Apply(b, e, size))
  {}

  /** A relock that fails the test overwrites an unread message, or delivers a message twice. */
  lemma UncheckedStepBreaks(b: Box, e: Event, size: nat)
    requires Inv(b, size) && Fifo(b) && Enabled(b, e, size) && !Rechecked(b, e)
    ensures !Fifo(Apply(b, e, size))
  {
    var b' := Apply(b, e, size);
    assert |b.written| == |b.received| + |InSlot(b)|;
    assert |b'.written| != |b'.received| + |InSlot(b')|;
  }

  lemma {:induction false} RunFifo(b: Box, es: seq<Event>, size: nat)
    requires Inv(b, size) && Fifo(b) && CanRun(b, es, size)
    ensures FifoThroughout(b, es, size) <==> AllRechecked(b, es, size)
    ensures FifoThroughout(b, es, size) ==> Fifo(Exec(b, es, size))
    ensures AllRechecked(b, es, size) && ExitStays(b) ==> ExitStays(Exec(b, es, size))
    decreases |es|
  {
    if es == [] {
    } else {
      StepInv(b, es[0], size);
      if Rechecked(b, es[0]) {
        RecheckedStepKeeps(b, es[0], size);
        RunFifo(Apply(b, es[0], size), es[1..], size);
      } else {
        UncheckedStepBreaks(b, es[0], size);
      }
    }
  }

  // ---- runs without spurious wakeups ----

  predicate Genuine(es: seq<Event>) {
    SpuriousSenderWake !in es && SpuriousReceiverWake !in es
  }

  /** Whoever has been woken was woken for a reason that still holds. */
  predicate Trusted(b: Box) {
    && (b.sender.Notified? ==> !b.messageIn)
    && (b.receiver == NotifiedFull ==> b.messageIn)
  }

  lemma TrustedStep(b: Box, e: Event, size: nat)
    requires Positions(b, size) && Trusted(b) && Enabled(b, e, size)
    requires e != SpuriousSenderWake && e != SpuriousReceiverWake
    ensures Rechecked(b, e) && Trusted(Apply(b, e, size))
  {}

  lemma {:induction false} TrustedRun(b: Box, es: seq<Event>, size: nat)
    requires Inv(b, size) && Trusted(b) && CanRun(b, es, size) && Genuine(es)
    ensures AllRechecked(b, es, size) && Trusted(Exec(b, es, size))
    decreases |es|
  {
    if es == [] {
    } else {
      assert es[0] in es && forall e :: e in es[1..] ==> e in es;
      TrustedStep(b, es[0], size);
      StepInv(b, es[0], size);
      TrustedRun(Apply(b, es[0], size), es[1..], size);
    }
  }

  // ---- main results ----

  /**
   * Spurious wakeups included, nothing is lost, duplicated or reordered in a run if and only if every
   * woken party finds the slot as it needs it: the test that waiting in a loop would make.
   */
  lemma FifoIffRechecked(es: seq<Event>, size: nat)
    requires CanRun(Fresh(size), es, size)
    ensures FifoThroughout(Fresh(size), es, size) <==> AllRechecked(Fresh(size), es, size)
  {
    RunFifo(Fresh(size), es, size);
  }

  /** Without spurious wakeups every woken party does, in a run and in its continuations. */
  lemma GenuineIsRechecked(es: seq<Event>, more: seq<Event>, size: nat)
    requires CanRun(Fresh(size), es, size) && Genuine(es)
    requires SizeOk(Exec(Fresh(size), es, size), size)
    requires CanRun(Exec(Fresh(size), es, size), more, size) && Genuine(more)
    ensures AllRechecked(Fresh(size), es, size)
    ensures AllRechecked(Exec(Fresh(size), es, size), more, size)
  {
    RunInv(Fresh(size), es, size);
    TrustedRun(Fresh(size), es, size);
    TrustedRun(Exec(Fresh(size), es, size), more, size);
  }

  /** One spurious wakeup of a waiting sender can overwrite an unread message. */
  lemma SpuriousSenderWakeLoses(es: seq<Event>, size: nat)
    requires CanRun(Fresh(size), es, size) && AllRechecked(Fresh(size), es, size)
    requires Exec(Fresh(size), es, size).sender.Waiting?
    ensures var b := Exec(Fresh(size), es, size); var more := [SpuriousSenderWake, SenderRelocks];
      SizeOk(b, size) && CanRun(b, more, size) && !Fifo(Exec(b, more, size))
  {
    RunInv(Fresh(size), es, size);
    RunFifo(Fresh(size), es, size);
    WakeAndRelock(Exec(Fresh(size), es, size), SpuriousSenderWake, SenderRelocks, size);
  }

  /** One spurious wakeup of a waiting receiver can deliver what the slot held before. */
  lemma SpuriousReceiverWakeDuplicates(es: seq<Event>, size: nat)
    requires CanRun(Fresh(size), es, size) && AllRechecked(Fresh(size), es, size)
    requires Exec(Fresh(size), es, size).receiver == WaitingEmpty
    ensures var b := Exec(Fresh(size), es, size); var more := [SpuriousReceiverWake, ReceiverRelocks];
      SizeOk(b, size) && CanRun(b, more, size) && !Fifo(Exec(b, more, size))
  {
    RunInv(Fresh(size), es, size);
    RunFifo(Fresh(size), es, size);
    WakeAndRelock(Exec(Fresh(size), es, size), SpuriousReceiverWake, ReceiverRelocks, size);
  }

  lemma WakeAndRelock(b: Box, wake: Event, relock: Event, size: nat)
    requires Inv(b, size) && Fifo(b) && Enabled(b, wake, size)
    requires (wake == SpuriousSenderWake && relock == SenderRelocks) ||
      (wake == SpuriousReceiverWake && relock == ReceiverRelocks)
    ensures CanRun(b, [wake, relock], size) && !Fifo(Exec(b, [wake, relock], size))
  {
    var woken := Apply(b, wake, size);
    StepInv(b, wake, size);
    UncheckedStepBreaks(woken, relock, size);
    var after := Apply(woken, relock, size);
    assert [wake, relock][1..] == [relock] && [relock][1..] == [];
    assert CanRun(after, [], size) && Exec(after, [], size) == after;
    assert CanRun(woken, [relock], size) && Exec(woken, [relock], size) == after;
  }

  /**
   * Exactly once, in order, without spurious wakeups: the items the callback has received, followed
   * by what is in the slot, are as many as the puts that returned 0, and the k-th carries the message
   * of the k-th of those puts: its kind, its data, and zeros up to the slot size.
   */
  lemma ExactlyOnceFifo(es: seq<Event>, size: nat)
    requires CanRun(Fresh(size), es, size) && Genuine(es)
    ensures var b := Exec(Fresh(size), es, size); var items, sent := b.received + InSlot(b), Winners(b.results);
      && |items| == |sent|
      && (forall k :: 0 <= k < |sent| ==> Carries(items[k], sent[k], size))
      && (forall i :: 0 <= i < |b.received| ==> b.received[i].kind == Data)
  {
    RunInv(Fresh(size), es, size);
    GenuineIsRechecked(es, [], size);
    RunFifo(Fresh(size), es, size);
    WinsCarry(Exec(Fresh(size), es, size).results, size);
  }

  /**
   * Whatever wakes the parties: the results are those of the puts made, in order, with the last put
   * perhaps still under way, and -1 exactly if five attempts failed.
   */
  lemma ResultsOfPuts(es: seq<Event>, size: nat)
    requires CanRun(Fresh(size), es, size)
    ensures var b := Exec(Fresh(size), es, size);
      && Given(b) == PutsOf(es)
      && (forall r :: r in b.results ==> ResultOk(r, size))
  {
    RunInv(Fresh(size), es, size);
    RunPuts(Fresh(size), es, size, []);
  }

  /**
   * A put under way ends in the step that stores its message, with 0, or in the step in which an
   * attempt fails with four failed before, with -1; the failed attempts are counted from the run.
   */
  lemma EndOfAPut(es: seq<Event>, e: Event, size: nat)
    requires CanRun(Fresh(size), es, size) && SizeOk(Exec(Fresh(size), es, size), size)
    requires Exec(Fresh(size), es, size).sender != Idle && Enabled(Exec(Fresh(size), es, size), e, size)
    ensures var b := Exec(Fresh(size), es, size); var b', n := Apply(b, e, size), FailedOf(Fresh(size), es, size, 0);
      && (AttemptFails(b, e) && n == 4 ==> b'.sender == Idle && b'.results == b.results + [Result(b.sender.msg, -1, 5)])
      && (AttemptFails(b, e) && n != 4 ==> b'.sender != Idle && b'.results == b.results)
      && (!AttemptFails(b, e) && b'.sender == Idle ==> b'.results == b.results + [Result(b.sender.msg, 0, n)])
      && (b'.written != b.written <==> !AttemptFails(b, e) && b'.sender == Idle)
  {
    RunInv(Fresh(size), es, size);
    RunFailures(Fresh(size), es, size, 0);
    StepFailures(Exec(Fresh(size), es, size), e, size);
  }

  /**
   * Sender and receiver are never both waiting un-notified; a waiter's partner can always move. This
   * holds whatever wakes them.
   */
  lemma NeverBothWaiting(es: seq<Event>, size: nat)
    requires CanRun(Fresh(size), es, size)
    ensures var b := Exec(Fresh(size), es, size);
      && !(b.sender.Waiting? && b.receiver == WaitingEmpty)
      && (b.sender.Waiting? && b.receiver != Gone ==>
            Enabled(b, ReceiverLocks, size) || Enabled(b, ReceiverRelocks, size))
  {
    RunInv(Fresh(size), es, size);
  }

  /** From b to b' nothing moved through the slot and every finished put returned -1. */
  predicate OnlyRefusals(b: Box, b': Box) {
    && b'.receiver == Gone && b'.written == b.written && b'.received == b.received
    && b'.messageIn == b.messageIn && b'.item == b.item
    && b.results <= b'.results
    && (forall k :: |b.results| <= k < |b'.results| ==> b'.results[k].code == -1)
  }

  lemma {:induction false} RefusedRun(b: Box, es: seq<Event>, size: nat)
    requires Inv(b, size) && b.receiver == Gone && b.messageIn
    requires CanRun(b, es, size) && AllRechecked(b, es, size)
    ensures OnlyRefusals(b, Exec(b, es, size))
    decreases |es|
  {
    if es == [] {
    } else {
      StepInv(b, es[0], size);
      RefusedRun(Apply(b, es[0], size), es[1..], size);
    }
  }

  /** After the receiver has taken an exit message nothing is stored any more: every put returns -1. */
  lemma NothingAfterExit(es: seq<Event>, more: seq<Event>, size: nat)
    requires CanRun(Fresh(size), es, size) && AllRechecked(Fresh(size), es, size)
    requires Exec(Fresh(size), es, size).receiver == Gone && SizeOk(Exec(Fresh(size), es, size), size)
    requires CanRun(Exec(Fresh(size), es, size), more, size)
    requires AllRechecked(Exec(Fresh(size), es, size), more, size)
    ensures OnlyRefusals(Exec(Fresh(size), es, size), Exec(Exec(Fresh(size), es, size), more, size))
  {
    RunInv(Fresh(size), es, size);
    RunFifo(Fresh(size), es, size);
    RefusedRun(Exec(Fresh(size), es, size), more, size);
  }
}
