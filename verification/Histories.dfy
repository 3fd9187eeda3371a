/**
 * What a handler must have done, told from the list of what happened to it and nothing else: neither
 * the handler's state nor the logs it keeps are looked at. Every run is shown to follow its history.
 */
module Histories {
  import opened Bytes
  import opened Framing
  import opened Sending
  import opened Handlers

  datatype Happening =
    | Gave(data: Bytes)              // send_data_in_thread was called
    | AskedToClose                   // send_close_in_thread was called
    | PostRan(accepts: bool)         // the io_service ran a post; what the send hook would answer
    | ReadBytes(chunk: Bytes)
    | ReadCanceled
    | ReadFailed
    | ManagerClosed
    | FirstRefused                   // the hook made no first package
    | FirstMade(data: Bytes)
    | Beat(error: bool, data: Bytes) // the heart-jump timer expired, or failed
    | Nothing

  // ---- reading ----

  function BytesRead(hs: seq<Happening>): Bytes {
    if hs == [] then []
    else
      var n := |hs| - 1;
      BytesRead(hs[..n]) + (if hs[n].ReadBytes? then hs[n].chunk else [])
  }

  /** How the reference parser stands after the bytes of `before` and one more chunk. */
  function StatusAfter(c: Config, before: seq<Happening>, chunk: Bytes): Status
    requires ValidConfig(c)
  {
    Parse(c, [], BytesRead(before) + chunk).status
  }

  /** Whether h makes a handler with this past invalid. */
  predicate Ends(c: Config, before: seq<Happening>, h: Happening)
    requires ValidConfig(c)
  {
    h == ReadCanceled || h == ReadFailed || h == FirstRefused ||
    (h.ReadBytes? && StatusAfter(c, before, h.chunk).Stopped?)
  }

  predicate StillValid(c: Config, hs: seq<Happening>)
    requires ValidConfig(c)
  {
    hs == [] ||
    var n := |hs| - 1;
    StillValid(c, hs[..n]) && !Ends(c, hs[..n], hs[n])
  }

  // ---- sending ----

  /** What waits in the io_service queue. */
  datatype Item = DataItem(data: Bytes) | CloseItem

  /** Everything ever posted: data that fits, and a close for data that does not. */
  function PostedBy(c: Config, hs: seq<Happening>): seq<Item> {
    if hs == [] then []
    else
      var n := |hs| - 1;
      PostedBy(c, hs[..n]) +
      match hs[n]
      case Gave(data) => [if |data| <= c.capacity then DataItem(data) else CloseItem]
      case AskedToClose => [CloseItem]
      case _ => []
  }

  /** The data that fits, in the order given. */
  function SendsOf(c: Config, hs: seq<Happening>): seq<Bytes> {
    if hs == [] then []
    else
      var n := |hs| - 1;
      SendsOf(c, hs[..n]) + (if hs[n].Gave? && |hs[n].data| <= c.capacity then [hs[n].data] else [])
  }

  /** How many posts have run. */
  function Ran(hs: seq<Happening>): nat {
    if hs == [] then 0
    else
      var n := |hs| - 1;
      Ran(hs[..n]) + (if hs[n].PostRan? then 1 else 0)
  }

  /** The post that runs next is the oldest that has not run. */
  function NextItem(c: Config, hs: seq<Happening>): Option<Item> {
    if Ran(hs) < |PostedBy(c, hs)| then Some(PostedBy(c, hs)[Ran(hs)]) else None
  }

  /** What the running of a post does to a data item: late, refused by the hook, or written. */
  function FateAt(c: Config, before: seq<Happening>, h: Happening): seq<Fate>
    requires ValidConfig(c)
  {
    match (h, NextItem(c, before))
    case (PostRan(accepts), Some(DataItem(_))) =>
      [if !StillValid(c, before) then TooLate else if accepts then Written else Refused]
    case _ => []
  }

  function FatesOf(c: Config, hs: seq<Happening>): seq<Fate>
    requires ValidConfig(c)
  {
    if hs == [] then []
    else
      var n := |hs| - 1;
      FatesOf(c, hs[..n]) + FateAt(c, hs[..n], hs[n])
  }

  /** Something written to the socket. */
  datatype Write = Write(kind: Kind, data: Bytes)

  /** What h writes: accepted data of a valid handler, a non-empty first package, or a heart-jump. */
  function WriteAt(c: Config, before: seq<Happening>, h: Happening): seq<Write>
    requires ValidConfig(c)
  {
    match h
    case PostRan(true) =>
      (match NextItem(c, before)
       case Some(DataItem(data)) => if StillValid(c, before) then [Write(App, data)] else []
       case _ => [])
    case FirstMade(data) => if data == [] then [] else [Write(First, data)]
    case Beat(false, data) => if |data| <= c.capacity then [Write(Heart, data)] else []
    case _ => []
  }

  function WritesOf(c: Config, hs: seq<Happening>): seq<Write>
    requires ValidConfig(c)
  {
    if hs == [] then []
    else
      var n := |hs| - 1;
      WritesOf(c, hs[..n]) + WriteAt(c, hs[..n], hs[n])
  }

  function DataOf(ws: seq<Write>): seq<Bytes> {
    seq(|ws|, i requires 0 <= i < |ws| => ws[i].data)
  }

  // ---- errors and the socket ----

  /** What catch_error_func is told because of h. */
  function ErrorsAt(c: Config, before: seq<Happening>, h: Happening): seq<Error>
    requires ValidConfig(c)
  {
    match h
    case Gave(data) => if |data| > c.capacity then [SendTooLong] else []
    case PostRan(accepts) =>
      if !StillValid(c, before) then []
      else
        (match NextItem(c, before)
         case Some(CloseItem) => [ClosedBySelf]
         case Some(DataItem(_)) => if accepts then [] else [ByHook]
         case None => [])
    case ReadBytes(chunk) =>
      (match StatusAfter(c, before, chunk)
       case Stopped(Oversize) => [ReceiveTooLong]
       case Stopped(_) => [ByHook]
       case _ => [])
    case ReadFailed => [ClosedByPeer]
    case ManagerClosed => [ByManager]
    case FirstRefused => [ByHook]
    case _ => []
  }

  function ErrorsOf(c: Config, hs: seq<Happening>): seq<Error>
    requires ValidConfig(c)
  {
    if hs == [] then []
    else
      var n := |hs| - 1;
      ErrorsOf(c, hs[..n]) + ErrorsAt(c, hs[..n], hs[n])
  }

  /** Whether h closes the socket. */
  predicate ClosesSocket(c: Config, before: seq<Happening>, h: Happening)
    requires ValidConfig(c)
  {
    match h
    case PostRan(_) => StillValid(c, before) && NextItem(c, before) == Some(CloseItem)
    case ReadBytes(chunk) => StatusAfter(c, before, chunk).Stopped?
    case ReadFailed => true
    case ManagerClosed => true
    case FirstRefused => true
    case _ => false
  }

  predicate SocketClosed(c: Config, hs: seq<Happening>)
    requires ValidConfig(c)
  {
    exists i :: 0 <= i < |hs| && ClosesSocket(c, hs[..i], hs[i])
  }

  // ---- following a history ----

  function ItemsOf(posts: seq<Post>): seq<Item> {
    seq(|posts|, i requires 0 <= i < |posts| =>
      if posts[i].ClosePost? then CloseItem else DataItem(posts[i].pk.data))
  }

  function OnWire(wire: seq<Packet>): seq<Write> {
    seq(|wire|, i requires 0 <= i < |wire| => Write(wire[i].kind, wire[i].data))
  }

  predicate FollowsReads(c: Config, past: seq<Happening>, h: Handler)
    requires ValidConfig(c)
  {
    h.received == BytesRead(past) && h.valid == StillValid(c, past)
  }

  predicate FollowsPosts(c: Config, past: seq<Happening>, o: Outbox) {
    && o.given == SendsOf(c, past)
    && Ran(past) <= |PostedBy(c, past)|
    && ItemsOf(o.posts) == PostedBy(c, past)[Ran(past)..]
  }

  predicate FollowsWrites(c: Config, past: seq<Happening>, o: Outbox)
    requires ValidConfig(c)
  {
    && o.fates == FatesOf(c, past)
    && OnWire(o.wire) == WritesOf(c, past)
    && (forall pk :: pk in o.writing ==> pk in o.wire)
  }

  predicate FollowsErrors(c: Config, past: seq<Happening>, h: Handler)
    requires ValidConfig(c)
  {
    h.errors == ErrorsOf(c, past) && (h.socketOpen <==> !SocketClosed(c, past))
  }

  predicate Follows(c: Config, past: seq<Happening>, h: Handler)
    requires ValidConfig(c)
  {
    && FollowsReads(c, past, h) && FollowsPosts(c, past, h.out)
    && FollowsWrites(c, past, h.out) && FollowsErrors(c, past, h)
  }

  lemma NewFollows(c: Config)
    requires ValidConfig(c)
    ensures Follows(c, [], NEW)
  {}

  /** One more happening. */
  lemma Snoc(c: Config, past: seq<Happening>, h: Happening)
    requires ValidConfig(c)
    ensures BytesRead(past + [h]) == BytesRead(past) + (if h.ReadBytes? then h.chunk else [])
    ensures StillValid(c, past + [h]) <==> StillValid(c, past) && !Ends(c, past, h)
    ensures Ran(past + [h]) == Ran(past) + (if h.PostRan? then 1 else 0)
    ensures SendsOf(c, past + [h]) ==
      SendsOf(c, past) + (if h.Gave? && |h.data| <= c.capacity then [h.data] else [])
    ensures FatesOf(c, past + [h]) == FatesOf(c, past) + FateAt(c, past, h)
    ensures WritesOf(c, past + [h]) == WritesOf(c, past) + WriteAt(c, past, h)
    ensures ErrorsOf(c, past + [h]) == ErrorsOf(c, past) + ErrorsAt(c, past, h)
  {
    assert (past + [h])[..|past|] == past;
  }

  lemma SnocPosted(c: Config, past: seq<Happening>, h: Happening)
    ensures PostedBy(c, past + [h]) == PostedBy(c, past) +
      match h
      case Gave(data) => [if |data| <= c.capacity then DataItem(data) else CloseItem]
      case AskedToClose => [CloseItem]
      case _ => []
  {
    assert (past + [h])[..|past|] == past;
  }

  lemma SnocClosed(c: Config, past: seq<Happening>, h: Happening)
    requires ValidConfig(c)
    ensures SocketClosed(c, past + [h]) <==> SocketClosed(c, past) || ClosesSocket(c, past, h)
  {
    var hs, n := past + [h], |past|;
    assert hs[..n] == past && hs[n] == h;
    assert forall i :: 0 <= i < n ==> hs[..i] == past[..i] && hs[i] == past[i];
  }

  /** The part of a step that neither the posts nor the wire see. */
  predicate SameOutbox(o: Outbox, o': Outbox) {
    && o'.given == o.given && o'.posts == o.posts && o'.fates == o.fates && o'.wire == o.wire
    && (forall pk :: pk in o'.writing ==> pk in o.writing)
  }

  lemma OutboxUntouched(c: Config, past: seq<Happening>, e: Happening, h: Handler, h': Handler)
    requires ValidConfig(c) && Follows(c, past, h) && SameOutbox(h.out, h'.out)
    requires !e.Gave? && !e.AskedToClose? && !e.PostRan? && !e.FirstMade? && !e.Beat?
    ensures FollowsPosts(c, past + [e], h'.out) && FollowsWrites(c, past + [e], h'.out)
  {
    Snoc(c, past, e);
    SnocPosted(c, past, e);
  }

  function Completed(done: Completion): Happening {
    match done
    case Arrived(chunk) => ReadBytes(chunk)
    case Canceled => ReadCanceled
    case Failed => ReadFailed
  }

  /** A handler with a read outstanding takes in the bytes and shuts exactly when the parser stops. */
  lemma ShutsWhenStopped(c: Config, h: Handler, chunk: Bytes)
    requires ValidConfig(c) && Inv(c, h) && CanComplete(h, 0, Arrived(chunk)) && |h.pending| == 1 && h.valid
    ensures var h', status := ReadHandler(c, h, 0, Arrived(chunk)), Parse(c, [], h.received + chunk).status;
      && h'.received == h.received + chunk
      && (h'.valid <==> !status.Stopped?)
      && h'.socketOpen == (h.socketOpen && !status.Stopped?)
      && h'.errors == h.errors + (if status.Stopped? then [ErrorOf(status.stop)] else [])
  {
    FeedAgrees(c, Framer(h.receiver, ReadMore(h.pending[0])), h.received, chunk);
  }

  lemma ReadFollowsReads(c: Config, past: seq<Happening>, h: Handler, done: Completion)
    requires ValidConfig(c) && Inv(c, h) && FollowsReads(c, past, h) && CanComplete(h, 0, done)
    requires |h.pending| == 1 && h.valid
    ensures FollowsReads(c, past + [Completed(done)], ReadHandler(c, h, 0, done))
  {
    Snoc(c, past, Completed(done));
    if done.Arrived? {
      ShutsWhenStopped(c, h, done.chunk);
    }
  }

  lemma ReadFollowsErrors(c: Config, past: seq<Happening>, h: Handler, done: Completion)
    requires ValidConfig(c) && Inv(c, h) && FollowsReads(c, past, h) && FollowsErrors(c, past, h)
    requires CanComplete(h, 0, done) && |h.pending| == 1 && h.valid
    ensures FollowsErrors(c, past + [Completed(done)], ReadHandler(c, h, 0, done))
  {
    Snoc(c, past, Completed(done));
    SnocClosed(c, past, Completed(done));
    if done.Arrived? {
      ShutsWhenStopped(c, h, done.chunk);
      NeverOverflows(c, BytesRead(past) + done.chunk);
    }
  }

  lemma ReadFollows(c: Config, past: seq<Happening>, h: Handler, k: nat, done: Completion)
    requires ValidConfig(c) && Inv(c, h) && Follows(c, past, h) && CanComplete(h, k, done)
    ensures Follows(c, past + [Completed(done)], ReadHandler(c, h, k, done))
  {
    OneRead(h, k);
    OutboxUntouched(c, past, Completed(done), h, ReadHandler(c, h, k, done));
    ReadFollowsReads(c, past, h, done);
    ReadFollowsErrors(c, past, h, done);
  }

  lemma NeverOverflows(c: Config, s: Bytes)
    requires ValidConfig(c)
    ensures Parse(c, [], s).status != Stopped(LengthOverflow)
  {
    RestIsPending(c, [], s);
  }

  lemma SendFollowsPosts(c: Config, past: seq<Happening>, h: Handler, data: Bytes)
    requires ValidConfig(c) && FollowsPosts(c, past, h.out)
    ensures FollowsPosts(c, past + [Gave(data)], SendData(c, h, data).out)
  {
    Snoc(c, past, Gave(data));
    SnocPosted(c, past, Gave(data));
    var item := if |data| <= c.capacity then DataItem(data) else CloseItem;
    PostAppends(h.out.posts, SendData(c, h, data).out.posts[|h.out.posts|]);
    OneMoreItem(PostedBy(c, past), Ran(past), item);
  }

  lemma PostAppends(posts: seq<Post>, post: Post)
    ensures ItemsOf(posts + [post]) ==
      ItemsOf(posts) + [if post.ClosePost? then CloseItem else DataItem(post.pk.data)]
  {}

  lemma OneMoreItem(posted: seq<Item>, ran: nat, item: Item)
    requires ran <= |posted|
    ensures (posted + [item])[ran..] == posted[ran..] + [item]
  {}

  lemma SendFollows(c: Config, past: seq<Happening>, h: Handler, data: Bytes)
    requires ValidConfig(c) && Follows(c, past, h)
    ensures Follows(c, past + [Gave(data)], SendData(c, h, data))
  {
    SendFollowsPosts(c, past, h, data);
    Snoc(c, past, Gave(data));
    SnocClosed(c, past, Gave(data));
  }

  lemma CloseFollows(c: Config, past: seq<Happening>, h: Handler)
    requires ValidConfig(c) && Follows(c, past, h)
    ensures Follows(c, past + [AskedToClose], SendClose(h))
  {
    Snoc(c, past, AskedToClose);
    SnocPosted(c, past, AskedToClose);
    SnocClosed(c, past, AskedToClose);
  }

  lemma NextIsOldest(c: Config, past: seq<Happening>, o: Outbox)
    requires FollowsPosts(c, past, o) && o.posts != []
    ensures NextItem(c, past) == Some(if o.posts[0].ClosePost? then CloseItem else DataItem(o.posts[0].pk.data))
    ensures ItemsOf(o.posts[1..]) == PostedBy(c, past)[Ran(past) + 1..]
  {
    assert ItemsOf(o.posts)[0] == PostedBy(c, past)[Ran(past)..][0];
    assert ItemsOf(o.posts[1..]) == ItemsOf(o.posts)[1..];
  }

  lemma RunPostWrites(c: Config, past: seq<Happening>, h: Handler, accepts: bool)
    requires ValidConfig(c) && Follows(c, past, h) && PostsAreApp(h.out) && h.out.posts != []
    ensures FollowsWrites(c, past + [PostRan(accepts)], RunPost(h, accepts).out)
  {
    NextIsOldest(c, past, h.out);
    Snoc(c, past, PostRan(accepts));
    var o, o' := h.out, RunPost(h, accepts).out;
    if o'.wire != o.wire {
      var pk := o.posts[0].pk;
      assert OnWire(o'.wire) == OnWire(o.wire) + [Write(App, pk.data)];
    }
  }

  lemma PostFollows(c: Config, past: seq<Happening>, h: Handler, accepts: bool)
    requires ValidConfig(c) && Follows(c, past, h) && PostsAreApp(h.out) && h.out.posts != []
    ensures Follows(c, past + [PostRan(accepts)], RunPost(h, accepts))
  {
    var e := PostRan(accepts);
    RunPostWrites(c, past, h, accepts);
    NextIsOldest(c, past, h.out);
    Snoc(c, past, e);
    SnocPosted(c, past, e);
    SnocClosed(c, past, e);
  }

  lemma QuietFollows(c: Config, past: seq<Happening>, h: Handler, h': Handler)
    requires ValidConfig(c) && Follows(c, past, h) && SameOutbox(h.out, h'.out)
    requires h'.received == h.received && h'.valid == h.valid
    requires h'.errors == h.errors && h'.socketOpen == h.socketOpen
    ensures Follows(c, past + [Nothing], h')
  {
    OutboxUntouched(c, past, Nothing, h, h');
    Snoc(c, past, Nothing);
    SnocClosed(c, past, Nothing);
  }

  lemma ManagerFollows(c: Config, past: seq<Happening>, h: Handler)
    requires ValidConfig(c) && Follows(c, past, h)
    ensures Follows(c, past + [ManagerClosed], CloseByManager(h))
  {
    OutboxUntouched(c, past, ManagerClosed, h, CloseByManager(h));
    Snoc(c, past, ManagerClosed);
    SnocClosed(c, past, ManagerClosed);
  }

  /** A first package or a heart-jump, written at once unless it is empty or does not fit. */
  predicate WritesNow(c: Config, past: seq<Happening>, e: Happening, kind: Kind, o: Outbox, o': Outbox)
    requires ValidConfig(c)
  {
    && (e.FirstMade? || e.Beat?)
    && if WriteAt(c, past, e) == [] then SameOutbox(o, o')
       else WriteAt(c, past, e) == [Write(kind, e.data)] && o' == WriteNew(o, kind, e.data)
  }

  lemma WriteFollowsWrites(c: Config, past: seq<Happening>, e: Happening, kind: Kind, o: Outbox, o': Outbox)
    requires ValidConfig(c) && FollowsWrites(c, past, o) && WritesNow(c, past, e, kind, o, o')
    ensures FollowsWrites(c, past + [e], o')
  {
    Snoc(c, past, e);
    if WriteAt(c, past, e) != [] {
      assert OnWire(o'.wire) == OnWire(o.wire) + [Write(kind, e.data)];
    }
  }

  lemma WriteFollows(c: Config, past: seq<Happening>, h: Handler, h': Handler, e: Happening, kind: Kind)
    requires ValidConfig(c) && Follows(c, past, h) && WritesNow(c, past, e, kind, h.out, h'.out)
    requires h'.received == h.received && h'.valid == h.valid
    requires h'.errors == h.errors && h'.socketOpen == h.socketOpen
    ensures Follows(c, past + [e], h')
  {
    WriteFollowsWrites(c, past, e, kind, h.out, h'.out);
    Snoc(c, past, e);
    SnocPosted(c, past, e);
    SnocClosed(c, past, e);
  }

  // ---- consequences ----

  lemma {:induction false} NotWriting(writing: seq<Packet>, wire: seq<Packet>, id: nat)
    requires forall pk :: pk in writing ==> pk in wire
    requires forall pk :: pk in wire ==> pk.id != id
    ensures InWrites(writing, id) == 0
  {
    if writing == [] {
    } else {
      assert writing[0] in writing && forall pk :: pk in writing[1..] ==> pk in writing;
      NotWriting(writing[1..], wire, id);
    }
  }

  /** If the hook never refused, no fate is a refusal. */
  lemma {:induction false} NobodyRefused(c: Config, hs: seq<Happening>)
    requires ValidConfig(c) && PostRan(false) !in hs
    ensures Refused !in FatesOf(c, hs)
  {
    if hs == [] {
    } else {
      var n := |hs| - 1;
      assert hs[n] in hs && forall h :: h in hs[..n] ==> h in hs;
      NobodyRefused(c, hs[..n]);
    }
  }
}
