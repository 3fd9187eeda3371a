/** The messages that travel through the worker queues, and functions over message logs. */
module Messages {

  /** A queued pointer: a data message, known by its address, or an exit message. */
  datatype Message = Data(address: nat) | ExitToken

  /** The data messages of a log, in order. */
  function DataOf(log: seq<Message>): seq<Message> {
    if log == [] then []
    else
      var last := log[|log| - 1];
      DataOf(log[..|log| - 1]) + (if last.Data? then [last] else [])
  }

  /** The number of exit messages in a log. */
  function Tokens(log: seq<Message>): nat {
    if log == [] then 0
    else Tokens(log[..|log| - 1]) + (if log[|log| - 1].ExitToken? then 1 else 0)
  }

  /** How often a message occurs in a log. */
  function Count(log: seq<Message>, m: Message): nat {
    if log == [] then 0
    else Count(log[..|log| - 1], m) + (if log[|log| - 1] == m then 1 else 0)
  }

  /** The shortest prefix of a log that holds n exit messages (the whole log if it has fewer). */
  function CutAtToken(log: seq<Message>, n: nat): seq<Message> {
    if n == 0 || log == [] then []
    else [log[0]] + CutAtToken(log[1..], if log[0].ExitToken? then n - 1 else n)
  }

  lemma AppendOne(log: seq<Message>, m: Message)
    ensures DataOf(log + [m]) == DataOf(log) + (if m.Data? then [m] else [])
    ensures Tokens(log + [m]) == Tokens(log) + (if m.ExitToken? then 1 else 0)
  {
    assert (log + [m])[..|log|] == log;
  }

  lemma CountAppend(log: seq<Message>, x: Message, m: Message)
    ensures Count(log + [x], m) == Count(log, m) + (if x == m then 1 else 0)
  {
    assert (log + [x])[..|log|] == log;
  }

  lemma {:induction false} CountIsMultiplicity(log: seq<Message>, m: Message)
    ensures Count(log, m) == multiset(log)[m]
  {
    if log == [] {
    } else {
      CountIsMultiplicity(log[..|log| - 1], m);
      assert log == log[..|log| - 1] + [log[|log| - 1]];
    }
  }

  lemma {:induction false} CountInDataOf(log: seq<Message>, m: Message)
    ensures Count(DataOf(log), m) == if m.Data? then Count(log, m) else 0
  {
    if log == [] {
    } else {
      var front, last := log[..|log| - 1], log[|log| - 1];
      CountInDataOf(front, m);
      CountAppend(DataOf(front), last, m);
      assert DataOf(front) + [] == DataOf(front);
    }
  }

  lemma {:induction false} TokensConcat(a: seq<Message>, b: seq<Message>)
    ensures Tokens(a + b) == Tokens(a) + Tokens(b)
    decreases |b|
  {
    if b == [] {
      assert a + b == a;
    } else {
      var front, last := b[..|b| - 1], b[|b| - 1];
      assert a + b == (a + front) + [last];
      assert b == front + [last];
      AppendOne(a + front, last);
      TokensConcat(a, front);
    }
  }

  /** A prefix with n exit messages that ends in one is the cut at the n-th exit message. */
  lemma {:induction false} CutIsUnique(head: seq<Message>, tail: seq<Message>, n: nat)
    requires Tokens(head) == n
    requires head != [] ==> head[|head| - 1].ExitToken?
    ensures CutAtToken(head + tail, n) == head
    decreases |head|
  {
    if head == [] {
    } else {
      var log := head + tail;
      assert head == [head[0]] + head[1..];
      TokensConcat([head[0]], head[1..]);
      AppendOne([], head[0]);
      assert [] + [head[0]] == [head[0]];
      assert log[1..] == head[1..] + tail;
      if |head| > 1 {
        assert head[1..][|head| - 2] == head[|head| - 1];
        TokensAtLeastOne(head[1..]);
      }
      CutIsUnique(head[1..], tail, if head[0].ExitToken? then n - 1 else n);
    }
  }

  lemma TokensAtLeastOne(log: seq<Message>)
    requires log != [] && log[|log| - 1].ExitToken?
    ensures Tokens(log) >= 1
  {}
}
