/** The fixed-size block with a length that receive and send buffers are made of. */
module MemGuards {
  import opened Bytes

  class MemGuard {
    const data: array<byte>
    var length: nat

    ghost predicate Valid()
      reads this
    {
      length <= data.Length
    }

    /** The bytes in use. */
    function Contents(): Bytes
      requires Valid()
      reads this, data
    {
      data[..length]
    }

    constructor (size: nat)
      ensures Valid() && fresh(data) && data.Length == size
      ensures Contents() == [] && data[..] == seq(size, _ => 0)
    {
      data := new byte[size](_ => 0);
      length := 0;
    }

    method Clear()
      requires Valid()
      modifies this, data
      ensures Valid() && Contents() == [] && data[..] == seq(data.Length, _ => 0)
    {
      forall i | 0 <= i < data.Length {
        data[i] := 0;
      }
      length := 0;
    }

    /** Where the next byte goes; None stands for the null pointer of a full block. */
    function Current(): (at: Option<nat>)
      reads this
      ensures at.None? <==> length == data.Length
      ensures at.Some? ==> at.value == length
    {
      if length == data.Length then None else Some(length)
    }

    /** Replaces the contents; bytes behind the new length keep their old values. */
    method Copy(source: Bytes) returns (r: int)
      requires Valid()
      modifies this, data
      ensures Valid()
      ensures r == if |source| > data.Length then -1 else 0
      ensures r == 0 ==> Contents() == source && data[..] == source + old(data[..])[|source|..]
      ensures r == -1 ==> length == old(length) && data[..] == old(data[..])
    {
      if |source| > data.Length {
        return -1;
      }
      forall i | 0 <= i < |source| {
        data[i] := source[i];
      }
      length := |source|;
      return 0;
    }

    method Append(source: Bytes) returns (r: int)
      requires Valid()
      modifies this, data
      ensures Valid()
      ensures r == if old(length) + |source| > data.Length then -1 else 0
      ensures r == 0 ==> Contents() == old(Contents()) + source
      ensures r == -1 ==> length == old(length) && data[..] == old(data[..])
    {
      if length + |source| > data.Length {
        return -1;
      }
      forall i | 0 <= i < |source| {
        data[length + i] := source[i];
      }
      length := length + |source|;
      return 0;
    }

    predicate CheckBlockRemainSpace(size: nat): (fits: bool)
      reads this
      ensures fits <==> length + size <= data.Length
    {
      !(length + size > data.Length)
    }

    method ChangeLength(len: nat) returns (r: int)
      requires Valid()
      modifies this`length
      ensures Valid()
      ensures r == if old(length) + len > data.Length then -1 else 0
      ensures length == if r == 0 then old(length) + len else old(length)
    {
      if length + len > data.Length {
        return -1;
      }
      length := length + len;
      return 0;
    }

    /** The bytes a completed socket read has put at position `at`. */
    method StoreAt(at: nat, chunk: Bytes)
      requires at + |chunk| <= data.Length
      modifies data
      ensures data[..] == old(data[..])[..at] + chunk + old(data[..])[at + |chunk|..]
    {
      forall i | 0 <= i < |chunk| {
        data[at + i] := chunk[i];
      }
    }
  }
}
