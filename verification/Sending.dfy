/**
 * Outgoing packages: heap-allocated, posted to the io_service, written to the socket, freed. The
 * outbox is everything of this that lives outside the handler object.
 */
module Sending {
  import opened Bytes

  /** Application data, the client's first package, or a client heart-jump. */
  datatype Kind = App | First | Heart

  /** An allocated package; ids stand for addresses and are never reused. */
  datatype Packet = Packet(id: nat, kind: Kind, data: Bytes)

  /** A callback waiting in the io_service queue. */
  datatype Post = SendPost(pk: Packet) | ClosePost

  /** What the posted callback did: wrote, was told not to by the user hook, or found the handler invalid. */
  datatype Fate = Written | Refused | TooLate

  datatype Outbox = Outbox(
    nextId: nat,              // ids below this one have been allocated
    posts: seq<Post>,
    writing: seq<Packet>,     // async_write under way
    freed: seq<nat>,
    wire: seq<Packet>,        // every async_write, in call order
    given: seq<Bytes>,        // application data accepted for sending, in order
    processed: seq<Bytes>,    // application data whose posted callback has run, in order
    fates: seq<Fate>)         // what became of each of those

  const EMPTY := Outbox(0, [], [], [], [], [], [], [])

  function RemoveAt<T>(s: seq<T>, k: nat): (r: seq<T>)
    requires k < |s|
  {
    s[..k] + s[k + 1..]
  }

  /** Allocates a package for application data and posts it. */
  function PostData(o: Outbox, data: Bytes): Outbox {
    o.(nextId := o.nextId + 1, posts := o.posts + [SendPost(Packet(o.nextId, App, data))], given := o.given + [data])
  }

  /** Allocates a package and writes it at once. */
  function WriteNew(o: Outbox, kind: Kind, data: Bytes): Outbox {
    var pk := Packet(o.nextId, kind, data);
    o.(nextId := o.nextId + 1, writing := o.writing + [pk], wire := o.wire + [pk])
  }

  /** Allocates a package and frees it at once. */
  function AllocateAndFree(o: Outbox): Outbox {
    o.(nextId := o.nextId + 1, freed := o.freed + [o.nextId])
  }

  function PostClose(o: Outbox): Outbox {
    o.(posts := o.posts + [ClosePost])
  }

  /** The io_service takes the oldest post, a package, and writes it. */
  function TakeAndWrite(o: Outbox): Outbox
    requires o.posts != [] && o.posts[0].SendPost?
  {
    var pk := o.posts[0].pk;
    o.(posts := o.posts[1..], processed := o.processed + [pk.data], fates := o.fates + [Written],
       writing := o.writing + [pk], wire := o.wire + [pk])
  }

  /** The io_service takes the oldest post, a package, and it is freed unwritten. */
  function TakeAndFree(o: Outbox, refused: bool): Outbox
    requires o.posts != [] && o.posts[0].SendPost?
  {
    var pk := o.posts[0].pk;
    o.(posts := o.posts[1..], processed := o.processed + [pk.data], freed := o.freed + [pk.id],
       fates := o.fates + [if refused then Refused else TooLate])
  }

  function TakeClose(o: Outbox): Outbox
    requires o.posts != [] && o.posts[0].ClosePost?
  {
    o.(posts := o.posts[1..])
  }

  /** A write completes and its package is freed. */
  function FinishWrite(o: Outbox, k: nat): Outbox
    requires k < |o.writing|
  {
    o.(writing := RemoveAt(o.writing, k), freed := o.freed + [o.writing[k].id])
  }

  // ---- conservation ----

  function InPosts(posts: seq<Post>, id: nat): nat {
    if posts == [] then 0
    else (if posts[0].SendPost? && posts[0].pk.id == id then 1 else 0) + InPosts(posts[1..], id)
  }

  function InWrites(ps: seq<Packet>, id: nat): nat {
    if ps == [] then 0 else (if ps[0].id == id then 1 else 0) + InWrites(ps[1..], id)
  }

  function InFreed(ids: seq<nat>, id: nat): nat {
    if ids == [] then 0 else (if ids[0] == id then 1 else 0) + InFreed(ids[1..], id)
  }

  /** How many of the writes under way carry a first package. */
  function Firsts(ps: seq<Packet>): nat {
    if ps == [] then 0 else (if ps[0].kind.First? then 1 else 0) + Firsts(ps[1..])
  }

  lemma {:induction false} PostsAppend(posts: seq<Post>, p: Post, id: nat)
    ensures InPosts(posts + [p], id) == InPosts(posts, id) + (if p.SendPost? && p.pk.id == id then 1 else 0)
    ensures PostedData(posts + [p]) == PostedData(posts) + (if p.SendPost? then [p.pk.data] else [])
  {
    if posts == [] {
    } else {
      assert (posts + [p])[1..] == posts[1..] + [p];
      PostsAppend(posts[1..], p, id);
    }
  }

  lemma {:induction false} WritesAppend(ps: seq<Packet>, p: Packet, id: nat)
    ensures InWrites(ps + [p], id) == InWrites(ps, id) + (if p.id == id then 1 else 0)
    ensures Firsts(ps + [p]) == Firsts(ps) + (if p.kind.First? then 1 else 0)
  {
    if ps == [] {
    } else {
      assert (ps + [p])[1..] == ps[1..] + [p];
      WritesAppend(ps[1..], p, id);
    }
  }

  lemma {:induction false} WritesRemove(ps: seq<Packet>, k: nat, id: nat)
    requires k < |ps|
    ensures InWrites(ps, id) == InWrites(RemoveAt(ps, k), id) + (if ps[k].id == id then 1 else 0)
    ensures Firsts(ps) == Firsts(RemoveAt(ps, k)) + (if ps[k].kind.First? then 1 else 0)
  {
    if k == 0 {
      assert RemoveAt(ps, k) == ps[1..];
    } else {
      assert RemoveAt(ps, k)[0] == ps[0] && RemoveAt(ps, k)[1..] == RemoveAt(ps[1..], k - 1);
      WritesRemove(ps[1..], k - 1, id);
    }
  }

  lemma {:induction false} FreedAppend(ids: seq<nat>, x: nat, id: nat)
    ensures InFreed(ids + [x], id) == InFreed(ids, id) + (if x == id then 1 else 0)
  {
    if ids == [] {
    } else {
      assert (ids + [x])[1..] == ids[1..] + [x];
      FreedAppend(ids[1..], x, id);
    }
  }

  /** In how many places a package is. */
  function Places(o: Outbox, id: nat): nat {
    InPosts(o.posts, id) + InWrites(o.writing, id) + InFreed(o.freed, id)
  }

  /** Every allocated package is posted, being written or freed: one of the three, once. */
  ghost predicate Conserved(o: Outbox) {
    forall id: nat :: Places(o, id) == if id < o.nextId then 1 else 0
  }

  /** Application data of a list of posts, and of packages, in order. */
  function PostedData(posts: seq<Post>): seq<Bytes> {
    if posts == [] then []
    else (if posts[0].SendPost? then [posts[0].pk.data] else []) + PostedData(posts[1..])
  }

  function AppData(ps: seq<Packet>): seq<Bytes> {
    if ps == [] then []
    else
      var last := ps[|ps| - 1];
      AppData(ps[..|ps| - 1]) + (if last.kind.App? then [last.data] else [])
  }

  function AllData(ps: seq<Packet>): seq<Bytes> {
    seq(|ps|, i requires 0 <= i < |ps| => ps[i].data)
  }

  /** Only application data is ever posted. */
  predicate PostsAreApp(o: Outbox) {
    forall i :: 0 <= i < |o.posts| && o.posts[i].SendPost? ==> o.posts[i].pk.kind == App
  }

  /** The data that was written, in order. */
  function Selected(data: seq<Bytes>, fates: seq<Fate>): seq<Bytes>
    requires |data| == |fates|
  {
    if data == [] then []
    else
      var n := |data| - 1;
      Selected(data[..n], fates[..n]) + (if fates[n] == Written then [data[n]] else [])
  }

  /** Once a package came too late, all later ones did. */
  predicate LateComeLast(fates: seq<Fate>) {
    fates == [] ||
    var n := |fates| - 1;
    LateComeLast(fates[..n]) && (TooLate in fates[..n] ==> fates[n] == TooLate)
  }

  /** Data is processed in the order given, and the wire has what was written of it, in that order. */
  predicate InOrder(o: Outbox, valid: bool) {
    && PostsAreApp(o)
    && o.given == o.processed + PostedData(o.posts)
    && |o.fates| == |o.processed|
    && AppData(o.wire) == Selected(o.processed, o.fates)
    && LateComeLast(o.fates)
    && (valid ==> TooLate !in o.fates)
  }

  lemma SelectedAppend(data: seq<Bytes>, fates: seq<Fate>, d: Bytes, f: Fate)
    requires |data| == |fates|
    ensures Selected(data + [d], fates + [f]) == Selected(data, fates) + (if f == Written then [d] else [])
    ensures LateComeLast(fates) && (f == TooLate || TooLate !in fates) ==> LateComeLast(fates + [f])
  {
    assert (data + [d])[..|data|] == data && (fates + [f])[..|fates|] == fates;
  }

  lemma {:induction false} AllSelected(data: seq<Bytes>, fates: seq<Fate>)
    requires |data| == |fates| && Refused !in fates && TooLate !in fates
    ensures Selected(data, fates) == data
  {
    if data == [] {
    } else {
      var n := |data| - 1;
      assert data == data[..n] + [data[n]] && fates[n] in fates;
      assert forall f :: f in fates[..n] ==> f in fates;
      AllSelected(data[..n], fates[..n]);
    }
  }

  /** If the hook refuses nothing, what is written comes first in what is processed. */
  lemma {:induction false} SelectedIsPrefix(data: seq<Bytes>, fates: seq<Fate>)
    requires |data| == |fates| && LateComeLast(fates) && Refused !in fates
    ensures Selected(data, fates) <= data
  {
    if TooLate !in fates {
      AllSelected(data, fates);
    } else {
      var n := |data| - 1;
      var front := fates[..n];
      assert fates == front + [fates[n]] && fates[n] == TooLate;
      assert forall f :: f in front ==> f in fates;
      SelectedIsPrefix(data[..n], front);
    }
  }

  lemma UnrefusedIsPrefix(o: Outbox, valid: bool)
    requires InOrder(o, valid) && Refused !in o.fates
    ensures AppData(o.wire) <= o.processed <= o.given
  {
    SelectedIsPrefix(o.processed, o.fates);
  }

  lemma {:induction false} OnlyAppData(ps: seq<Packet>)
    requires forall i :: 0 <= i < |ps| ==> ps[i].kind == App
    ensures AppData(ps) == AllData(ps)
  {
    if ps == [] {
    } else {
      var front := ps[..|ps| - 1];
      OnlyAppData(front);
      assert AllData(ps) == AllData(front) + [ps[|ps| - 1].data];
    }
  }

  lemma AppDataAppend(ps: seq<Packet>, p: Packet)
    ensures AppData(ps + [p]) == AppData(ps) + (if p.kind.App? then [p.data] else [])
  {
    assert (ps + [p])[..|ps|] == ps;
  }

  lemma PostDataKeeps(o: Outbox, data: Bytes, valid: bool)
    requires Conserved(o) && InOrder(o, valid)
    ensures Conserved(PostData(o, data)) && InOrder(PostData(o, data), valid)
    ensures PostData(o, data).writing == o.writing
  {
    var p := SendPost(Packet(o.nextId, App, data));
    PostsAppend(o.posts, p, 0);
    assert o.given + [data] == o.processed + (PostedData(o.posts) + [data]);
    forall id: nat
      ensures Places(PostData(o, data), id) == Places(o, id) + (if id == o.nextId then 1 else 0)
    {
      PostsAppend(o.posts, p, id);
    }
  }

  lemma WriteNewKeeps(o: Outbox, kind: Kind, data: Bytes, valid: bool)
    requires Conserved(o) && InOrder(o, valid) && !kind.App?
    ensures Conserved(WriteNew(o, kind, data)) && InOrder(WriteNew(o, kind, data), valid)
    ensures Firsts(WriteNew(o, kind, data).writing) == Firsts(o.writing) + (if kind.First? then 1 else 0)
  {
    var pk := Packet(o.nextId, kind, data);
    AppDataAppend(o.wire, pk);
    WritesAppend(o.writing, pk, 0);
    forall id: nat
      ensures Places(WriteNew(o, kind, data), id) == Places(o, id) + (if id == o.nextId then 1 else 0)
    {
      WritesAppend(o.writing, pk, id);
    }
  }

  lemma AllocateAndFreeKeeps(o: Outbox, valid: bool)
    requires Conserved(o) && InOrder(o, valid)
    ensures Conserved(AllocateAndFree(o)) && InOrder(AllocateAndFree(o), valid)
  {
    forall id: nat
      ensures Places(AllocateAndFree(o), id) == Places(o, id) + (if id == o.nextId then 1 else 0)
    {
      FreedAppend(o.freed, o.nextId, id);
    }
  }

  lemma PostCloseKeeps(o: Outbox, valid: bool)
    requires Conserved(o) && InOrder(o, valid)
    ensures Conserved(PostClose(o)) && InOrder(PostClose(o), valid)
  {
    PostsAppend(o.posts, ClosePost, 0);
    forall id: nat
      ensures Places(PostClose(o), id) == Places(o, id)
    {
      PostsAppend(o.posts, ClosePost, id);
    }
  }

  lemma TakeAndWriteKeeps(o: Outbox)
    requires Conserved(o) && InOrder(o, true) && o.posts != [] && o.posts[0].SendPost?
    ensures Conserved(TakeAndWrite(o)) && InOrder(TakeAndWrite(o), true)
    ensures Firsts(TakeAndWrite(o).writing) == Firsts(o.writing)
  {
    var pk := o.posts[0].pk;
    WritesAppend(o.writing, pk, 0);
    AppDataAppend(o.wire, pk);
    SelectedAppend(o.processed, o.fates, pk.data, Written);
    assert o.given == o.processed + [pk.data] + PostedData(o.posts[1..]);
    forall id: nat
      ensures Places(TakeAndWrite(o), id) == Places(o, id)
    {
      WritesAppend(o.writing, pk, id);
    }
  }

  lemma TakeAndFreeKeeps(o: Outbox, refused: bool, valid: bool)
    requires Conserved(o) && InOrder(o, valid) && o.posts != [] && o.posts[0].SendPost?
    requires refused <==> valid
    ensures Conserved(TakeAndFree(o, refused)) && InOrder(TakeAndFree(o, refused), valid)
    ensures TakeAndFree(o, refused).writing == o.writing
  {
    var pk := o.posts[0].pk;
    SelectedAppend(o.processed, o.fates, pk.data, if refused then Refused else TooLate);
    assert o.given == o.processed + [pk.data] + PostedData(o.posts[1..]);
    forall id: nat
      ensures Places(TakeAndFree(o, refused), id) == Places(o, id)
    {
      FreedAppend(o.freed, pk.id, id);
    }
  }

  lemma TakeCloseKeeps(o: Outbox, valid: bool)
    requires Conserved(o) && InOrder(o, valid) && o.posts != [] && o.posts[0].ClosePost?
    ensures Conserved(TakeClose(o)) && InOrder(TakeClose(o), valid)
  {
    assert PostedData(o.posts) == PostedData(o.posts[1..]);
    forall id: nat
      ensures Places(TakeClose(o), id) == Places(o, id)
    {}
  }

  lemma FinishWriteKeeps(o: Outbox, k: nat, valid: bool)
    requires Conserved(o) && InOrder(o, valid) && k < |o.writing|
    ensures Conserved(FinishWrite(o, k)) && InOrder(FinishWrite(o, k), valid)
    ensures Firsts(FinishWrite(o, k).writing) == Firsts(o.writing) - (if o.writing[k].kind.First? then 1 else 0)
  {
    WritesRemove(o.writing, k, 0);
    forall id: nat
      ensures Places(FinishWrite(o, k), id) == Places(o, id)
    {
      WritesRemove(o.writing, k, id);
      FreedAppend(o.freed, o.writing[k].id, id);
    }
  }
}
