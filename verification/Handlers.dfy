/**
 * What the server-side and the client-side TCP handler have in common: the read chain over the
 * framed receive buffer, the close path, and the posted sends. Every io_service callback is one
 * atomic step.
 */
module Handlers {
  import opened Bytes
  import opened Framing
  import opened Sending
  import opened MemGuards

  /** What catch_error_func is told. */
  datatype Error = ByHook | ReceiveTooLong | ClosedByPeer | ClosedBySelf | SendTooLong | ByManager

  datatype Handler = Handler(
    started: bool,
    valid: bool,
    socketOpen: bool,
    receiver: Receiver,
    pending: seq<nat>,          // requested sizes of the outstanding async_reads
    received: Bytes,           // every byte read so far
    stopped: Option<Stop>,     // why the framing gave up, if it did
    closeCalls: nat,           // calls of close_complete_func
    errors: seq<Error>,
    out: Outbox)

  const NEW := Handler(false, true, true, Receiver([], []), [], [], None, 0, [], EMPTY)

  /** How an outstanding read completes; at most the requested number of bytes arrives. */
  datatype Completion = Arrived(chunk: Bytes) | Canceled | Failed

  function Report(h: Handler, e: Error): Handler {
    h.(errors := h.errors + [e])
  }

  function CloseSocket(h: Handler): Handler {
    h.(socketOpen := false)
  }

  function CloseCompleted(h: Handler): Handler {
    h.(valid := false, closeCalls := h.closeCalls + 1)
  }

  function Read(h: Handler, size: nat): Handler {
    h.(pending := h.pending + [size])
  }

  function ErrorOf(stop: Stop): Error {
    if stop.Oversize? || stop.LengthOverflow? then ReceiveTooLong else ByHook
  }

  /** What follows a successful read: the next read, or the end. */
  function Continue(h: Handler, next: Reaction): Handler {
    match next
    case ReadMore(size) => Read(h, size)
    case Shut(stop) => CloseCompleted(CloseSocket(Report(h.(stopped := Some(stop)), ErrorOf(stop))))
  }

  predicate CanComplete(h: Handler, k: nat, done: Completion) {
    k < |h.pending| && (done.Arrived? ==> |done.chunk| <= h.pending[k])
  }

  /** read_handler for the k-th outstanding read. */
  function ReadHandler(c: Config, h: Handler, k: nat, done: Completion): Handler
    requires CanComplete(h, k, done)
  {
    var h1 := h.(pending := RemoveAt(h.pending, k));
    if !h.valid then h1
    else
      match done
      case Canceled => CloseCompleted(h1)
      case Failed => CloseCompleted(CloseSocket(Report(h1, ClosedByPeer)))
      case Arrived(chunk) =>
        var (receiver, next) := OnBytes(c, h.receiver, h.pending[k], chunk);
        Continue(h1.(receiver := receiver, received := h.received + chunk), next)
  }

  /** send_data_in_thread: a package that does not fit reports and posts a close instead. */
  function SendData(c: Config, h: Handler, data: Bytes): Handler {
    if |data| > c.capacity
    then Report(h, SendTooLong).(out := PostClose(h.out))
    else h.(out := PostData(h.out, data))
  }

  function SendClose(h: Handler): Handler {
    h.(out := PostClose(h.out))
  }

  /** The io_service runs the oldest post: active_send or active_close. */
  function RunPost(h: Handler, hookAccepts: bool): Handler
    requires h.out.posts != []
  {
    match h.out.posts[0]
    case ClosePost =>
      var h1 := h.(out := TakeClose(h.out));
      if h.valid then CloseSocket(Report(h1, ClosedBySelf)) else h1
    case SendPost(_) =>
      if !h.valid then h.(out := TakeAndFree(h.out, false))
      else if !hookAccepts then Report(h, ByHook).(out := TakeAndFree(h.out, true))
      else h.(out := TakeAndWrite(h.out))
  }

  /** write_handler, or write_first_handler, which starts the read chain. */
  function WriteHandler(c: Config, h: Handler, k: nat): Handler
    requires k < |h.out.writing|
  {
    var h1 := h.(out := FinishWrite(h.out, k));
    if h.out.writing[k].kind.First? then Read(h1, c.headerSize) else h1
  }

  /** The sweeps of the manager, and a refused accept or connect, report and close the socket. */
  function CloseByManager(h: Handler): Handler {
    CloseSocket(Report(h, ByManager))
  }

  /** The object both handler classes are built on. */
  class TcpHandler {
    const c: Config
    const revMgr: MemGuard
    var isValid: bool
    var started: bool
    var socketOpen: bool
    var pending: seq<nat>
    var delivered: seq<Bytes>
    var stopped: Option<Stop>
    var closeCalls: nat
    var errors: seq<Error>
    var out: Outbox
    ghost var received: Bytes

    ghost predicate Valid()
      reads this, revMgr
    {
      ValidConfig(c) && revMgr.Valid() && revMgr.data.Length == c.capacity
    }

    ghost function State(): Handler
      requires Valid()
      reads this, revMgr, revMgr.data
    {
      Handler(started, isValid, socketOpen, Receiver(revMgr.Contents(), delivered), pending, received,
              stopped, closeCalls, errors, out)
    }

    constructor (config: Config)
      requires ValidConfig(config)
      ensures c == config && Valid() && fresh(revMgr) && fresh(revMgr.data)
      ensures State() == NEW
    {
      c := config;
      revMgr := new MemGuard(config.capacity);
      isValid, started, socketOpen := true, false, true;
      pending, delivered, stopped, closeCalls, errors := [], [], None, 0, [];
      out, received := EMPTY, [];
    }

    method Begin(read: bool)
      requires Valid()
      modifies this`started, this`pending
      ensures Valid()
      ensures State() == var h := old(State()).(started := true); if read then Read(h, c.headerSize) else h
    {
      started := true;
      if read {
        AsyncRead(c.headerSize);
      }
    }

    method CatchError(e: Error)
      requires Valid()
      modifies this`errors
      ensures Valid() && State() == Report(old(State()), e)
    {
      errors := errors + [e];
    }

    method CloseTheSocket()
      requires Valid()
      modifies this`socketOpen
      ensures Valid() && State() == CloseSocket(old(State()))
    {
      socketOpen := false;
    }

    method OnManagerClose()
      modifies this`errors, this`socketOpen
      ensures errors == old(errors) + [ByManager] && !socketOpen
      ensures old(Valid()) ==> Valid() && State() == CloseByManager(old(State()))
    {
      errors := errors + [ByManager];
      socketOpen := false;
    }

    method Completed()
      requires Valid()
      modifies this`isValid, this`closeCalls
      ensures Valid() && State() == CloseCompleted(old(State()))
    {
      isValid := false;
      closeCalls := closeCalls + 1;
    }

    method AsyncRead(size: nat)
      requires Valid()
      modifies this`pending
      ensures Valid() && State() == Read(old(State()), size)
    {
      pending := pending + [size];
    }

    method ShutFor(stop: Stop)
      requires Valid()
      modifies this`stopped, this`errors, this`socketOpen, this`isValid, this`closeCalls
      ensures Valid()
      ensures State() == CloseCompleted(CloseSocket(Report(old(State()).(stopped := Some(stop)), ErrorOf(stop))))
    {
      stopped := Some(stop);
      CatchError(ErrorOf(stop));
      CloseTheSocket();
      Completed();
    }

    method OnRead(k: nat, done: Completion)
      requires Valid() && CanComplete(State(), k, done)
      modifies this, revMgr, revMgr.data
      ensures Valid() && State() == ReadHandler(c, old(State()), k, done)
    {
      var requested := pending[k];
      pending := RemoveAt(pending, k);
      if !isValid {
        return;
      }
      if !done.Arrived? {
        if done.Failed? {
          CatchError(ClosedByPeer);
          CloseTheSocket();
        }
        Completed();
        return;
      }
      var at, transferred := revMgr.Current(), |done.chunk|;
      received := received + done.chunk;
      var r := revMgr.ChangeLength(transferred);
      if r == -1 {
        ShutFor(LengthOverflow);
        return;
      }
      if transferred > 0 {
        revMgr.StoreAt(at.value, done.chunk);
      }
      assert revMgr.Contents() == old(revMgr.Contents()) + done.chunk;
      Dispatch(requested - transferred);
    }

    /** The rest of read_handler: the bytes are in the buffer, `missing` of the request are not. */
    method Dispatch(missing: nat)
      requires Valid()
      modifies this, revMgr, revMgr.data
      ensures Valid()
      ensures var (receiver, next) := AfterAppend(c, old(State()).receiver, missing);
        State() == Continue(old(State()).(receiver := receiver), next)
    {
      if missing > 0 {
        AsyncRead(missing);
      } else if revMgr.length == c.headerSize {
        var verdict := c.hooks.header(delivered, revMgr.Contents());
        if verdict.Reject? {
          ShutFor(HeaderRejected);
          return;
        }
        if !revMgr.CheckBlockRemainSpace(verdict.size) {
          ShutFor(Oversize);
          return;
        }
        AsyncRead(verdict.size);
      } else {
        var package := revMgr.Contents();
        if !c.hooks.body(delivered, package) {
          ShutFor(BodyRejected(package));
          return;
        }
        delivered := delivered + [package];
        revMgr.Clear();
        AsyncRead(c.headerSize);
      }
    }

    method SendDataInThread(data: Bytes)
      requires Valid()
      modifies this`out, this`errors
      ensures Valid() && State() == SendData(c, old(State()), data)
      ensures errors == old(errors) + (if |data| > c.capacity then [SendTooLong] else [])
      ensures out.posts == old(out.posts) +
        [if |data| > c.capacity then ClosePost else SendPost(Packet(old(out.nextId), App, data))]
    {
      if |data| > c.capacity {
        CatchError(SendTooLong);
        SendCloseInThread();
        return;
      }
      var pk := new MemGuard(c.capacity);
      var r := pk.Copy(data);
      out := PostData(out, pk.Contents());
    }

    method SendCloseInThread()
      requires Valid()
      modifies this`out
      ensures Valid() && State() == SendClose(old(State()))
      ensures out.posts == old(out.posts) + [ClosePost]
    {
      out := PostClose(out);
    }

    method ActiveSend(hookAccepts: bool)
      requires Valid() && out.posts != [] && out.posts[0].SendPost?
      modifies this`out, this`errors
      ensures Valid() && State() == RunPost(old(State()), hookAccepts)
      ensures out.posts == old(out.posts)[1..]
      ensures out.wire == old(out.wire) + (if isValid && hookAccepts then [old(out.posts)[0].pk] else [])
      ensures out.freed == old(out.freed) + (if isValid && hookAccepts then [] else [old(out.posts)[0].pk.id])
      ensures errors == old(errors) + (if isValid && !hookAccepts then [ByHook] else [])
    {
      if isValid {
        if !hookAccepts {
          CatchError(ByHook);
          out := TakeAndFree(out, true);
          return;
        }
        out := TakeAndWrite(out);
      } else {
        out := TakeAndFree(out, false);
      }
    }

    method ActiveClose()
      requires Valid() && out.posts != [] && out.posts[0].ClosePost?
      modifies this`out, this`errors, this`socketOpen
      ensures Valid() && State() == RunPost(old(State()), true)
      ensures out.posts == old(out.posts)[1..] && out.wire == old(out.wire)
      ensures errors == old(errors) + (if isValid then [ClosedBySelf] else [])
      ensures socketOpen <==> old(socketOpen) && !isValid
    {
      out := TakeClose(out);
      if isValid {
        CatchError(ClosedBySelf);
        CloseTheSocket();
      }
    }

    method OnWrite(k: nat)
      requires Valid() && k < |out.writing|
      modifies this`out, this`pending
      ensures Valid() && State() == WriteHandler(c, old(State()), k)
      ensures out.freed == old(out.freed) + [old(out.writing)[k].id]
      ensures pending == old(pending) + (if old(out.writing)[k].kind.First? then [c.headerSize] else [])
    {
      var first := out.writing[k].kind.First?;
      out := FinishWrite(out, k);
      if first {
        AsyncRead(c.headerSize);
      }
    }
  }

  // ---- the invariant ----

  /** A started, valid handler has exactly one outstanding read or first-package write; others none. */
  predicate OneChain(h: Handler) {
    && (h.started || h.valid)
    && |h.pending| + Firsts(h.out.writing) == (if h.started && h.valid then 1 else 0)
    && h.closeCalls == (if h.valid then 0 else 1)
  }

  /** The receiver has cut the bytes read so far exactly as the reference parser does. */
  predicate Framed(c: Config, h: Handler)
    requires ValidConfig(c)
  {
    var p := Parse(c, [], h.received);
    && h.receiver.delivered == p.delivered
    && |h.receiver.buffer| <= c.capacity
    && (h.pending != [] ==>
          && Agrees(c, Framer(h.receiver, ReadMore(h.pending[0])), p)
          && |h.receiver.buffer| + h.pending[0] <= c.capacity)
    && (h.pending == [] && h.valid ==> h.receiver == Receiver([], []) && h.received == [])
    && (h.stopped.Some? ==> !h.valid && p.status == Stopped(h.stopped.value))
  }

  ghost predicate Inv(c: Config, h: Handler)
    requires ValidConfig(c)
  {
    OneChain(h) && Framed(c, h) && Conserved(h.out) && InOrder(h.out, h.valid)
  }

  lemma NewInv(c: Config)
    requires ValidConfig(c)
    ensures Inv(c, NEW)
  {}

  lemma OneRead(h: Handler, k: nat)
    requires OneChain(h) && k < |h.pending|
    ensures h.started && h.valid && |h.pending| == 1 && k == 0 && RemoveAt(h.pending, k) == []
    ensures Firsts(h.out.writing) == 0
  {}

  lemma ReadHandlerInv(c: Config, h: Handler, k: nat, done: Completion)
    requires ValidConfig(c) && Inv(c, h) && CanComplete(h, k, done)
    ensures Inv(c, ReadHandler(c, h, k, done))
  {
    OneRead(h, k);
    if done.Arrived? {
      var f := Framer(h.receiver, ReadMore(h.pending[0]));
      FeedAgrees(c, f, h.received, done.chunk);
    }
  }

  lemma SendDataInv(c: Config, h: Handler, data: Bytes)
    requires ValidConfig(c) && Inv(c, h)
    ensures Inv(c, SendData(c, h, data))
  {
    if |data| > c.capacity {
      PostCloseKeeps(h.out, h.valid);
    } else {
      PostDataKeeps(h.out, data, h.valid);
    }
  }

  lemma SendCloseInv(c: Config, h: Handler)
    requires ValidConfig(c) && Inv(c, h)
    ensures Inv(c, SendClose(h))
  {
    PostCloseKeeps(h.out, h.valid);
  }

  lemma RunPostInv(c: Config, h: Handler, hookAccepts: bool)
    requires ValidConfig(c) && Inv(c, h) && h.out.posts != []
    ensures Inv(c, RunPost(h, hookAccepts))
  {
    if h.out.posts[0].ClosePost? {
      TakeCloseKeeps(h.out, h.valid);
    } else if !h.valid || !hookAccepts {
      TakeAndFreeKeeps(h.out, h.valid, h.valid);
    } else {
      TakeAndWriteKeeps(h.out);
    }
  }

  lemma {:induction false} FirstsPositive(ps: seq<Packet>, k: nat)
    requires k < |ps| && ps[k].kind.First?
    ensures Firsts(ps) > 0
  {
    if k == 0 {
    } else {
      FirstsPositive(ps[1..], k - 1);
    }
  }

  lemma WriteHandlerInv(c: Config, h: Handler, k: nat)
    requires ValidConfig(c) && Inv(c, h) && k < |h.out.writing|
    ensures Inv(c, WriteHandler(c, h, k))
  {
    FinishWriteKeeps(h.out, k, h.valid);
    if h.out.writing[k].kind.First? {
      FirstsPositive(h.out.writing, k);
    }
  }
}
