/**
 * Header-then-body framing: a reference parser that cuts a whole byte stream into packages, the
 * incremental receiver that sees the stream in arbitrary pieces, and the proof that they agree.
 */
module Framing {
  import opened Bytes

  /** What the header hook answers: refuse, or how many more bytes the package has. */
  datatype Verdict = Reject | Remain(size: nat)

  /** The user hooks; both also see the packages already delivered, so they may be stateful. */
  datatype Hooks = Hooks(
    header: (seq<Bytes>, Bytes) -> Verdict,
    body: (seq<Bytes>, Bytes) -> bool)

  datatype Config = Config(headerSize: nat, capacity: nat, hooks: Hooks)

  /** A header has at least one byte and fits the receive buffer. */
  predicate ValidConfig(c: Config) {
    1 <= c.headerSize <= c.capacity
  }

  datatype Stop = HeaderRejected | Oversize | BodyRejected(package: Bytes) | LengthOverflow

  // ---- the reference parser ----

  /** How a parse ends: short of bytes, at a header that announces nothing, or refused. */
  datatype Status = Need(size: nat) | Stalled | Stopped(stop: Stop)

  datatype Parsed = Parsed(delivered: seq<Bytes>, rest: Bytes, status: Status)

  function Parse(c: Config, delivered: seq<Bytes>, stream: Bytes): Parsed
    requires ValidConfig(c)
    decreases |stream|
  {
    if |stream| < c.headerSize then
      Parsed(delivered, stream, Need(c.headerSize - |stream|))
    else
      match c.hooks.header(delivered, stream[..c.headerSize])
      case Reject => Parsed(delivered, stream, Stopped(HeaderRejected))
      case Remain(n) =>
        var size := c.headerSize + n;
        if n == 0 then Parsed(delivered, stream, Stalled)
        else if size > c.capacity then Parsed(delivered, stream, Stopped(Oversize))
        else if |stream| < size then Parsed(delivered, stream, Need(size - |stream|))
        else
          var package := stream[..size];
          if c.hooks.body(delivered, package)
          then Parse(c, delivered + [package], stream[size..])
          else Parsed(delivered, stream, Stopped(BodyRejected(package)))
  }

  // ---- the incremental receiver ----

  /** The receive buffer's contents and the packages handed over so far. */
  datatype Receiver = Receiver(buffer: Bytes, delivered: seq<Bytes>)

  datatype Reaction = ReadMore(size: nat) | Shut(stop: Stop)

  /** The new bytes are in the buffer; `missing` of those requested have not come. */
  function AfterAppend(c: Config, r: Receiver, missing: nat): (Receiver, Reaction) {
    if missing > 0 then
      (r, ReadMore(missing))
    else if |r.buffer| == c.headerSize then
      match c.hooks.header(r.delivered, r.buffer)
      case Reject => (r, Shut(HeaderRejected))
      case Remain(n) =>
        if |r.buffer| + n > c.capacity then (r, Shut(Oversize)) else (r, ReadMore(n))
    else if c.hooks.body(r.delivered, r.buffer) then
      (Receiver([], r.delivered + [r.buffer]), ReadMore(c.headerSize))
    else
      (r, Shut(BodyRejected(r.buffer)))
  }

  /** One successful read completion of `chunk` for a request of `requested` bytes. */
  function OnBytes(c: Config, r: Receiver, requested: nat, chunk: Bytes): (Receiver, Reaction)
    requires |chunk| <= requested
  {
    if |r.buffer| + |chunk| > c.capacity then (r, Shut(LengthOverflow))
    else AfterAppend(c, r.(buffer := r.buffer + chunk), requested - |chunk|)
  }

  /** The receiver together with its outstanding request, or the reason it shut. */
  datatype Framer = Framer(receiver: Receiver, next: Reaction)

  function Fresh(c: Config): Framer {
    Framer(Receiver([], []), ReadMore(c.headerSize))
  }

  /** A read may return anything from nothing to what was asked for. */
  predicate CanFeed(f: Framer, chunk: Bytes) {
    f.next.ReadMore? && |chunk| <= f.next.size
  }

  function Feed(c: Config, f: Framer, chunk: Bytes): Framer
    requires CanFeed(f, chunk)
  {
    var (receiver, next) := OnBytes(c, f.receiver, f.next.size, chunk);
    Framer(receiver, next)
  }

  predicate CanFeedAll(c: Config, f: Framer, chunks: seq<Bytes>)
    decreases |chunks|
  {
    chunks == [] || (CanFeed(f, chunks[0]) && CanFeedAll(c, Feed(c, f, chunks[0]), chunks[1..]))
  }

  function FeedAll(c: Config, f: Framer, chunks: seq<Bytes>): Framer
    requires CanFeedAll(c, f, chunks)
    decreases |chunks|
  {
    if chunks == [] then f else FeedAll(c, Feed(c, f, chunks[0]), chunks[1..])
  }

  // ---- agreement ----

  /** The receiver is exactly where the reference parser is after the same bytes. */
  predicate Agrees(c: Config, f: Framer, p: Parsed) {
    && f.receiver.delivered == p.delivered
    && f.receiver.buffer == p.rest
    && match p.status
       case Need(n) => f.next == ReadMore(n)
       case Stalled => f.next == ReadMore(0) && |p.rest| == c.headerSize
       case Stopped(stop) => f.next == Shut(stop)
  }

  /** Parsing more bytes resumes from where parsing the first bytes got to. */
  lemma {:induction false} ParseResumes(c: Config, delivered: seq<Bytes>, s: Bytes, t: Bytes)
    requires ValidConfig(c)
    ensures var p := Parse(c, delivered, s); var q := Parse(c, delivered, s + t);
      if p.status.Need? then q == Parse(c, p.delivered, p.rest + t)
      else q == p.(rest := p.rest + t)
    decreases |s|
  {
    if |s| >= c.headerSize {
      assert (s + t)[..c.headerSize] == s[..c.headerSize];
      var verdict := c.hooks.header(delivered, s[..c.headerSize]);
      if verdict.Remain? && verdict.size > 0 {
        var size := c.headerSize + verdict.size;
        if size <= c.capacity && size <= |s| {
          assert (s + t)[..size] == s[..size];
          assert (s + t)[size..] == s[size..] + t;
          if c.hooks.body(delivered, s[..size]) {
            ParseResumes(c, delivered + [s[..size]], s[size..], t);
          }
        }
      }
    }
  }

  /** The left-over of a parse holds no complete package that the hooks accept. */
  predicate Pending(c: Config, delivered: seq<Bytes>, rest: Bytes, status: Status)
    requires ValidConfig(c)
  {
    if |rest| < c.headerSize then status == Need(c.headerSize - |rest|)
    else
      match c.hooks.header(delivered, rest[..c.headerSize])
      case Reject => status == Stopped(HeaderRejected)
      case Remain(n) =>
        var size := c.headerSize + n;
        if n == 0 then status == Stalled
        else if size > c.capacity then status == Stopped(Oversize)
        else if |rest| < size then status == Need(size - |rest|)
        else status == Stopped(BodyRejected(rest[..size])) && !c.hooks.body(delivered, rest[..size])
  }

  lemma {:induction false} RestIsPending(c: Config, delivered: seq<Bytes>, s: Bytes)
    requires ValidConfig(c)
    ensures var p := Parse(c, delivered, s); Pending(c, p.delivered, p.rest, p.status)
    decreases |s|
  {
    if |s| >= c.headerSize {
      var verdict := c.hooks.header(delivered, s[..c.headerSize]);
      if verdict.Remain? && verdict.size > 0 {
        var size := c.headerSize + verdict.size;
        if size <= c.capacity && size <= |s| && c.hooks.body(delivered, s[..size]) {
          RestIsPending(c, delivered + [s[..size]], s[size..]);
        }
      }
    }
  }

  /** A read that leaves the package, or its header, unfinished. */
  lemma FeedShort(c: Config, f: Framer, chunk: Bytes)
    requires ValidConfig(c) && CanFeed(f, chunk) && |chunk| < f.next.size
    requires Pending(c, f.receiver.delivered, f.receiver.buffer, Need(f.next.size))
    ensures Agrees(c, Feed(c, f, chunk), Parse(c, f.receiver.delivered, f.receiver.buffer + chunk))
  {
    var rest, buffer := f.receiver.buffer, f.receiver.buffer + chunk;
    if |rest| >= c.headerSize {
      assert buffer[..c.headerSize] == rest[..c.headerSize];
    }
  }

  /** A read that completes the header, or finds it complete and announcing nothing. */
  lemma FeedHeader(c: Config, f: Framer, chunk: Bytes)
    requires ValidConfig(c) && CanFeed(f, chunk) && |chunk| == f.next.size
    requires |f.receiver.buffer| + |chunk| == c.headerSize
    ensures Agrees(c, Feed(c, f, chunk), Parse(c, f.receiver.delivered, f.receiver.buffer + chunk))
  {
    var buffer := f.receiver.buffer + chunk;
    assert buffer[..c.headerSize] == buffer;
  }

  /** A read that completes a package. */
  lemma FeedPackage(c: Config, f: Framer, chunk: Bytes)
    requires ValidConfig(c) && CanFeed(f, chunk) && |chunk| == f.next.size
    requires Pending(c, f.receiver.delivered, f.receiver.buffer, Need(f.next.size))
    requires |f.receiver.buffer| >= c.headerSize
    ensures Agrees(c, Feed(c, f, chunk), Parse(c, f.receiver.delivered, f.receiver.buffer + chunk))
  {
    var d, rest, buffer := f.receiver.delivered, f.receiver.buffer, f.receiver.buffer + chunk;
    assert buffer[..c.headerSize] == rest[..c.headerSize];
    assert buffer[..|buffer|] == buffer && buffer[|buffer|..] == [];
    if c.hooks.body(d, buffer) {
      assert Parse(c, d, buffer) == Parse(c, d + [buffer], []);
    }
  }

  /** One read keeps the agreement. */
  lemma FeedAgrees(c: Config, f: Framer, s: Bytes, chunk: Bytes)
    requires ValidConfig(c) && Agrees(c, f, Parse(c, [], s)) && CanFeed(f, chunk)
    ensures Agrees(c, Feed(c, f, chunk), Parse(c, [], s + chunk))
  {
    RestIsPending(c, [], s);
    ParseResumes(c, [], s, chunk);
    var p := Parse(c, [], s);
    if p.status.Stalled? {
      assert s + [] == s && p.rest + [] == p.rest;
      FeedHeader(c, f, chunk);
    } else if |chunk| < f.next.size {
      FeedShort(c, f, chunk);
    } else if |p.rest| < c.headerSize {
      FeedHeader(c, f, chunk);
    } else {
      FeedPackage(c, f, chunk);
    }
  }

  lemma FlattenCons(s: Bytes, chunks: seq<Bytes>)
    requires chunks != []
    ensures s + chunks[0] + Flatten(chunks[1..]) == s + Flatten(chunks)
  {}

  /**
   * Framing does not depend on how the bytes arrive: after any sequence of reads the receiver has
   * handed over the packages, and stopped for the reason, that the parser finds in the bytes read.
   */
  lemma {:induction false} ChunkingDoesNotMatter(c: Config, s: Bytes, f: Framer, chunks: seq<Bytes>)
    requires ValidConfig(c) && Agrees(c, f, Parse(c, [], s)) && CanFeedAll(c, f, chunks)
    ensures Agrees(c, FeedAll(c, f, chunks), Parse(c, [], s + Flatten(chunks)))
    decreases |chunks|
  {
    if chunks == [] {
      assert s + [] == s;
    } else {
      FeedAgrees(c, f, s, chunks[0]);
      ChunkingDoesNotMatter(c, s + chunks[0], Feed(c, f, chunks[0]), chunks[1..]);
      FlattenCons(s, chunks);
    }
  }

  lemma FramingIsParsing(c: Config, chunks: seq<Bytes>)
    requires ValidConfig(c) && CanFeedAll(c, Fresh(c), chunks)
    ensures Agrees(c, FeedAll(c, Fresh(c), chunks), Parse(c, [], Flatten(chunks)))
  {
    ChunkingDoesNotMatter(c, [], Fresh(c), chunks);
    assert [] + Flatten(chunks) == Flatten(chunks);
  }

  /** The same bytes cut in two ways give the same packages, left-over and stop. */
  lemma TwoChunkingsAgree(c: Config, x: seq<Bytes>, y: seq<Bytes>)
    requires ValidConfig(c) && CanFeedAll(c, Fresh(c), x) && CanFeedAll(c, Fresh(c), y)
    requires Flatten(x) == Flatten(y)
    ensures FeedAll(c, Fresh(c), x) == FeedAll(c, Fresh(c), y)
  {
    FramingIsParsing(c, x);
    FramingIsParsing(c, y);
  }

  /** Reading a longer stream only adds packages, and never changes a stop once it is reached. */
  lemma {:induction false} ParseMonotone(c: Config, delivered: seq<Bytes>, s: Bytes, t: Bytes)
    requires ValidConfig(c)
    ensures Parse(c, delivered, s).delivered <= Parse(c, delivered, s + t).delivered
    ensures Parse(c, delivered, s).status.Stopped? ==>
      Parse(c, delivered, s + t).status == Parse(c, delivered, s).status
    ensures delivered <= Parse(c, delivered, s).delivered
    decreases |s| + |t|
  {
    DeliveredGrows(c, delivered, s);
    ParseResumes(c, delivered, s, t);
    var p := Parse(c, delivered, s);
    DeliveredGrows(c, p.delivered, p.rest + t);
  }

  lemma {:induction false} DeliveredGrows(c: Config, delivered: seq<Bytes>, s: Bytes)
    requires ValidConfig(c)
    ensures delivered <= Parse(c, delivered, s).delivered
    decreases |s|
  {
    if |s| >= c.headerSize {
      var verdict := c.hooks.header(delivered, s[..c.headerSize]);
      if verdict.Remain? && verdict.size > 0 {
        var size := c.headerSize + verdict.size;
        if size <= c.capacity && size <= |s| {
          DeliveredGrows(c, delivered + [s[..size]], s[size..]);
        }
      }
    }
  }

  /**
   * Against the whole stream a peer sends: whatever part has been read, the packages handed over
   * are a prefix of those in the stream, and a receiver that shut did so for the parser's reason.
   */
  lemma ReceiverFollowsStream(c: Config, chunks: seq<Bytes>, stream: Bytes)
    requires ValidConfig(c) && CanFeedAll(c, Fresh(c), chunks) && Flatten(chunks) <= stream
    ensures var f := FeedAll(c, Fresh(c), chunks); var p := Parse(c, [], stream);
      && f.receiver.delivered <= p.delivered
      && (f.next.Shut? ==> p.status == Stopped(f.next.stop) && f.receiver.delivered == p.delivered)
      && (Flatten(chunks) == stream ==> f.receiver.delivered == p.delivered)
  {
    FramingIsParsing(c, chunks);
    var read := Flatten(chunks);
    assert stream == read + stream[|read|..];
    ParseMonotone(c, [], read, stream[|read|..]);
    ParseResumes(c, [], read, stream[|read|..]);
  }

  /**
   * A header that announces no further bytes is never got past: the next completion runs the
   * header branch again, and the package is not handed over.
   */
  lemma {:induction false} ZeroRemainStalls(c: Config, f: Framer, chunks: seq<Bytes>)
    requires ValidConfig(c) && |f.receiver.buffer| == c.headerSize && f.next == ReadMore(0)
    requires c.hooks.header(f.receiver.delivered, f.receiver.buffer) == Remain(0)
    requires CanFeedAll(c, f, chunks)
    ensures FeedAll(c, f, chunks) == f
    decreases |chunks|
  {
    if chunks == [] {
    } else {
      assert f.receiver.buffer + chunks[0] == f.receiver.buffer;
      ZeroRemainStalls(c, f, chunks[1..]);
    }
  }

  /**
   * A complete header whose hook announces n further bytes is got past, at any place in any run, if
   * and only if n is at least 1 and the package fits the buffer.
   */
  lemma HeaderIsPassedIff(c: Config, chunks: seq<Bytes>, n: nat)
    requires ValidConfig(c) && CanFeedAll(c, Fresh(c), chunks)
    requires var r := FeedAll(c, Fresh(c), chunks).receiver;
      |r.buffer| == c.headerSize && c.hooks.header(r.delivered, r.buffer) == Remain(n)
    ensures var f := FeedAll(c, Fresh(c), chunks);
      (exists more :: CanFeedAll(c, f, more) && FeedAll(c, f, more).receiver != f.receiver)
      <==> n >= 1 && c.headerSize + n <= c.capacity
  {
    FramingIsParsing(c, chunks);
    RestIsPending(c, [], Flatten(chunks));
    var f := FeedAll(c, Fresh(c), chunks);
    assert f.receiver.buffer[..c.headerSize] == f.receiver.buffer;
    forall more | CanFeedAll(c, f, more)
      ensures n == 0 || c.headerSize + n > c.capacity ==> FeedAll(c, f, more).receiver == f.receiver
    {
      if n == 0 {
        ZeroRemainStalls(c, f, more);
      } else if c.headerSize + n > c.capacity {
        assert more == [];
      }
    }
    if n >= 1 && c.headerSize + n <= c.capacity {
      var body: Bytes := seq(n, _ => 0);
      var more := [body];
      assert more[1..] == [];
      assert CanFeed(f, body) && FeedAll(c, f, more) == Feed(c, f, body);
      assert FeedAll(c, f, more).receiver != f.receiver;
    }
  }

  /** The receive-buffer invariant: what is outstanding fits behind what has been read. */
  predicate Fits(c: Config, f: Framer) {
    && |f.receiver.buffer| <= c.capacity
    && (f.next.ReadMore? ==> |f.receiver.buffer| + f.next.size <= c.capacity)
    && f.next != Shut(LengthOverflow)
  }

  lemma {:induction false} BufferAlwaysFits(c: Config, f: Framer, chunks: seq<Bytes>)
    requires ValidConfig(c) && Fits(c, f) && CanFeedAll(c, f, chunks)
    ensures Fits(c, FeedAll(c, f, chunks))
    decreases |chunks|
  {
    if chunks == [] {
    } else {
      BufferAlwaysFits(c, Feed(c, f, chunks[0]), chunks[1..]);
    }
  }

  // ---- packages written one after another are cut apart again ----

  /** Each package is one the hooks accept at its place in the sequence. */
  predicate WellFormed(c: Config, delivered: seq<Bytes>, packages: seq<Bytes>)
    decreases |packages|
  {
    packages == [] ||
    var p := packages[0];
    && c.headerSize < |p| <= c.capacity
    && c.hooks.header(delivered, p[..c.headerSize]) == Remain(|p| - c.headerSize)
    && c.hooks.body(delivered, p)
    && WellFormed(c, delivered + [p], packages[1..])
  }

  lemma {:induction false} ParseOfFlatten(c: Config, delivered: seq<Bytes>, packages: seq<Bytes>)
    requires ValidConfig(c) && WellFormed(c, delivered, packages)
    ensures Parse(c, delivered, Flatten(packages)) == Parsed(delivered + packages, [], Need(c.headerSize))
    decreases |packages|
  {
    if packages == [] {
      assert delivered + [] == delivered;
    } else {
      var p, s := packages[0], Flatten(packages);
      assert s[..c.headerSize] == p[..c.headerSize];
      assert s[..|p|] == p && s[|p|..] == Flatten(packages[1..]);
      ParseOfFlatten(c, delivered + [p], packages[1..]);
      assert delivered + [p] + packages[1..] == delivered + packages;
    }
  }

  /** Well-formed packages in front are cut off first. */
  lemma {:induction false} ParseBehind(c: Config, delivered: seq<Bytes>, packages: seq<Bytes>, rest: Bytes)
    requires ValidConfig(c) && WellFormed(c, delivered, packages)
    ensures Parse(c, delivered, Flatten(packages) + rest) == Parse(c, delivered + packages, rest)
  {
    ParseOfFlatten(c, delivered, packages);
    ParseResumes(c, delivered, Flatten(packages), rest);
    assert [] + rest == rest;
  }

  lemma CutInFront(c: Config, delivered: seq<Bytes>, p: Bytes, more: seq<Bytes>, rest: Bytes)
    requires c.headerSize < |p| <= c.capacity
    requires c.hooks.header(delivered, p[..c.headerSize]) == Remain(|p| - c.headerSize) && c.hooks.body(delivered, p)
    requires WellFormed(c, delivered + [p], more)
    ensures WellFormed(c, delivered, [p] + more)
    ensures Flatten([p] + more) + rest == p + (Flatten(more) + rest)
    ensures delivered + ([p] + more) == delivered + [p] + more
  {
    assert ([p] + more)[1..] == more;
  }

  lemma {:induction false} ParseCuts(c: Config, delivered: seq<Bytes>, s: Bytes) returns (packages: seq<Bytes>)
    requires ValidConfig(c)
    ensures WellFormed(c, delivered, packages)
    ensures Parse(c, delivered, s).delivered == delivered + packages
    ensures s == Flatten(packages) + Parse(c, delivered, s).rest
    decreases |s|
  {
    packages := [];
    assert delivered + [] == delivered && [] + s == s;
    if |s| >= c.headerSize {
      var verdict := c.hooks.header(delivered, s[..c.headerSize]);
      if verdict.Remain? && verdict.size > 0 {
        var size := c.headerSize + verdict.size;
        if size <= c.capacity && size <= |s| && c.hooks.body(delivered, s[..size]) {
          var p, tail := s[..size], s[size..];
          assert p[..c.headerSize] == s[..c.headerSize] && s == p + tail;
          assert Parse(c, delivered, s) == Parse(c, delivered + [p], tail);
          var more := ParseCuts(c, delivered + [p], tail);
          CutInFront(c, delivered, p, more, Parse(c, delivered + [p], tail).rest);
          packages := [p] + more;
        }
      }
    }
  }

  /**
   * The parser is the only way to cut a stream: into packages the hooks accept one by one, and a rest
   * whose first header or package is incomplete, announces nothing, is too large or is refused.
   */
  lemma TheOnlyCut(c: Config, s: Bytes, packages: seq<Bytes>, rest: Bytes, status: Status)
    requires ValidConfig(c)
    ensures Parse(c, [], s) == Parsed(packages, rest, status) <==>
      s == Flatten(packages) + rest && WellFormed(c, [], packages) && Pending(c, packages, rest, status)
  {
    if Parse(c, [], s) == Parsed(packages, rest, status) {
      var cut := ParseCuts(c, [], s);
      assert [] + cut == cut;
      RestIsPending(c, [], s);
    }
    if s == Flatten(packages) + rest && WellFormed(c, [], packages) && Pending(c, packages, rest, status) {
      ParseBehind(c, [], packages, rest);
      assert [] + packages == packages;
    }
  }
}
