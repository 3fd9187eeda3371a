/** From send_data on one side to the package callback on the other. */
module EndToEnd {
  import opened Bytes
  import opened Framing
  import opened Sending
  import opened Handlers
  import opened Histories
  import S = SvrHandler
  import C = CetHandler

  /** A peer that has read part of a stream of well-formed packages has cut off a prefix of them. */
  lemma PartOfAStream(c: Config, packages: seq<Bytes>, read: Bytes)
    requires ValidConfig(c) && WellFormed(c, [], packages) && read <= Flatten(packages)
    ensures Parse(c, [], read).delivered <= packages
    ensures Parse(c, [], read).status.Need?
    ensures read == Flatten(packages) ==> Parse(c, [], read).delivered == packages
  {
    var stream := Flatten(packages);
    assert stream == read + stream[|read|..];
    ParseOfFlatten(c, [], packages);
    assert [] + packages == packages;
    ParseMonotone(c, [], read, stream[|read|..]);
    ParseResumes(c, [], read, stream[|read|..]);
  }

  lemma {:induction false} PrefixWellFormed(c: Config, delivered: seq<Bytes>, a: seq<Bytes>, b: seq<Bytes>)
    requires WellFormed(c, delivered, b) && a <= b
    ensures WellFormed(c, delivered, a)
    decreases |a|
  {
    if a == [] {
    } else {
      PrefixWellFormed(c, delivered + [a[0]], a[1..], b[1..]);
    }
  }

  /** In this run the server writes these packages: the accepted data in the order given, from its events. */
  predicate ServerWrites(c: Config, es: seq<S.Event>, packages: seq<Bytes>) {
    ValidConfig(c) && S.CanRun(c, NEW, es) && packages == DataOf(WritesOf(c, S.History(es)))
  }

  /** In this run the client writes these: first package, heart-jumps and accepted data, in event order. */
  predicate ClientWrites(s: C.Settings, fs: seq<C.Event>, packages: seq<Bytes>) {
    ValidConfig(s.config) && C.CanRun(s, C.NEW_CLIENT, fs) &&
    packages == DataOf(WritesOf(s.config, C.History(s, fs)))
  }

  /** In this run the client has read this many bytes of the stream. */
  predicate ClientReads(s: C.Settings, fs: seq<C.Event>, stream: Bytes, count: nat) {
    ValidConfig(s.config) && C.CanRun(s, C.NEW_CLIENT, fs) &&
    count <= |stream| && BytesRead(C.History(s, fs)) == stream[..count]
  }

  predicate ServerReads(c: Config, es: seq<S.Event>, stream: Bytes, count: nat) {
    ValidConfig(c) && S.CanRun(c, NEW, es) &&
    count <= |stream| && BytesRead(S.History(es)) == stream[..count]
  }

  lemma DataOnWire(wire: seq<Packet>)
    ensures AllData(wire) == DataOf(OnWire(wire))
  {}

  /**
   * What the server's hook accepts is well-formed for the client. Whatever the interleavings on both
   * sides, the client, having read any part of the server's bytes, has handed over a prefix of exactly
   * the accepted packages, in the order given and byte for byte, its framing never gives up, and once
   * all bytes are read it has handed over everything written.
   */
  lemma ServerToClient(c: Config, es: seq<S.Event>, s: C.Settings, fs: seq<C.Event>, packages: seq<Bytes>, count: nat)
    requires ServerWrites(c, es, packages)
    requires ClientReads(s, fs, Flatten(packages), count)
    requires WellFormed(s.config, [], packages)
    ensures AllData(S.Exec(c, NEW, es).out.wire) == packages
    ensures var h := C.Exec(s, C.NEW_CLIENT, fs).h;
      && h.receiver.delivered <= packages
      && h.stopped.None?
      && (count == |Flatten(packages)| ==> h.receiver.delivered == packages)
  {
    S.FollowsHistory(c, es);
    DataOnWire(S.Exec(c, NEW, es).out.wire);
    C.FollowsHistory(s, fs);
    C.ReceivesWhatTheParserCuts(s, fs);
    PartOfAStream(s.config, packages, BytesRead(C.History(s, fs)));
  }

  /** If the hook refuses nothing it is enough that the given packages are well-formed. */
  lemma NothingRefused(c: Config, es: seq<S.Event>, s: C.Settings, fs: seq<C.Event>, packages: seq<Bytes>, count: nat)
    requires ServerWrites(c, es, packages) && S.RunPosted(false) !in es
    requires ClientReads(s, fs, Flatten(packages), count)
    requires WellFormed(s.config, [], SendsOf(c, S.History(es)))
    ensures packages <= SendsOf(c, S.History(es))
    ensures var h := C.Exec(s, C.NEW_CLIENT, fs).h;
      && h.receiver.delivered <= packages
      && h.stopped.None?
      && (count == |Flatten(packages)| ==> h.receiver.delivered == packages)
  {
    UnrefusedWrites(c, es, packages);
    PrefixWellFormed(s.config, [], packages, SendsOf(c, S.History(es)));
    ServerToClient(c, es, s, fs, packages, count);
  }

  lemma UnrefusedWrites(c: Config, es: seq<S.Event>, packages: seq<Bytes>)
    requires ServerWrites(c, es, packages) && S.RunPosted(false) !in es
    ensures packages <= SendsOf(c, S.History(es))
  {
    S.WritesInOrder(c, es);
    S.FollowsHistory(c, es);
    DataOnWire(S.Exec(c, NEW, es).out.wire);
  }

  /**
   * The other way the wire also carries the first package and heart-jumps: if all of it is
   * well-formed for the server, the server hands over a prefix of it, in writing order.
   */
  lemma ClientToServer(s: C.Settings, fs: seq<C.Event>, c: Config, es: seq<S.Event>, packages: seq<Bytes>, count: nat)
    requires ClientWrites(s, fs, packages)
    requires ServerReads(c, es, Flatten(packages), count)
    requires WellFormed(c, [], packages)
    ensures AllData(C.Exec(s, C.NEW_CLIENT, fs).h.out.wire) == packages
    ensures var h := S.Exec(c, NEW, es);
      && h.receiver.delivered <= packages
      && h.stopped.None?
      && (count == |Flatten(packages)| ==> h.receiver.delivered == packages)
  {
    C.FollowsHistory(s, fs);
    DataOnWire(C.Exec(s, C.NEW_CLIENT, fs).h.out.wire);
    S.FollowsHistory(c, es);
    S.ReceivesWhatTheParserCuts(c, es);
    PartOfAStream(c, packages, BytesRead(S.History(es)));
  }
}
