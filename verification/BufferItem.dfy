/** The byte buffer of jni/libdevmgr/comm/BufferItem.cpp: one allocation split into headroom, content
    and tailroom. */
module Buffers {
  import opened Basics

  type byte = b: int | 0 <= b < 256

  type dword = n: int | 0 <= n < 0x1_0000_0000

  // The build is for x86: host order is little-endian.

  function Le16(s: seq<byte>, at: nat): nat
    requires at + 2 <= |s|
  {
    0x100 * s[at + 1] as int + s[at]
  }

  function Le32(s: seq<byte>, at: nat): dword
    requires at + 4 <= |s|
  {
    0x1_000000 * s[at + 3] as int + 0x1_0000 * s[at + 2] as int + 0x100 * s[at + 1] as int + s[at]
  }

  class BufferItem {
    var head: array?<byte>     // null until the first allocation
    var data: nat              // start of the content, from head
    var tail: nat              // end of the content, from head
    var dataLen: nat

    ghost predicate Valid()
      reads this
    {
      tail == data + dataLen && tail <= Room()
    }

    function Room(): nat
      reads this
    {
      if head == null then 0 else head.Length
    }

    ghost function Contents(): seq<byte>
      requires Valid()
      reads this, head
    {
      if head == null then [] else head[data..tail]
    }

    function DataSize(): nat
      reads this
    {
      dataLen
    }

    function HeadSize(): nat
      reads this
    {
      data
    }

    function TailSize(): nat
      requires Valid()
      reads this
    {
      Room() - tail
    }

    constructor ()
      ensures Valid() && head == null && Contents() == []
    {
      head := null;
      data, tail, dataLen := 0, 0, 0;
    }

    method Alloc(size: nat)
      requires Valid()
      modifies this
      ensures Valid() && (head == old(head) || fresh(head))
      ensures Room() == Max(old(Room()), size) && HeadSize() == 0 && Contents() == []
      ensures size <= old(Room()) ==> head == old(head)
    {
      if Room() < size {
        head := new byte[size];
      }
      data, tail, dataLen := 0, 0, 0;
    }

    method Reset(len: nat)
      requires Valid() && len <= Room()
      modifies this`data, this`tail, this`dataLen
      ensures Valid() && HeadSize() == len && Contents() == []
    {
      data := len;
      tail := data;
      dataLen := 0;
    }

    method Expand(len: nat)
      requires Valid()
      modifies this
      ensures Valid() && fresh(head) && Room() == old(Room()) + len
      ensures HeadSize() == old(HeadSize()) && Contents() == old(Contents())
      ensures forall i | 0 <= i < old(Room()) :: head[i] == old(head[i])
    {
      var size := Room() + len;
      var p := new byte[size];
      forall i | 0 <= i < Room() {
        p[i] := head[i];
      }
      tail := data + dataLen;
      head := p;
    }

    method Reserve(len: nat)
      requires Valid() && DataSize() == 0 && tail + len <= Room()
      modifies this`data, this`tail
      ensures Valid() && HeadSize() == old(HeadSize()) + len && Contents() == []
    {
      data := data + len;
      tail := data;
    }

    /** Makes room for `len` bytes behind the content; they hold what was there before. */
    method Put(len: nat) returns (p: nat)
      requires Valid() && head != null && tail + len <= Room()
      modifies this`tail, this`dataLen
      ensures Valid() && p == old(tail) && HeadSize() == old(HeadSize())
      ensures tail == old(tail) + len && Contents() == old(Contents()) + head[p..p + len]
    {
      p := tail;
      tail := tail + len;
      dataLen := dataLen + len;
    }

    method Push(len: nat) returns (p: nat)
      requires Valid() && head != null && len <= HeadSize()
      modifies this`data, this`dataLen
      ensures Valid() && p == data == old(data) - len && tail == old(tail)
      ensures Contents() == head[p..p + len] + old(Contents())
    {
      data := data - len;
      dataLen := dataLen + len;
      p := data;
    }

    method Pull(len: nat) returns (p: nat)
      requires Valid() && head != null && len <= DataSize()
      modifies this`data, this`dataLen
      ensures Valid() && p == data == old(data) + len && tail == old(tail)
      ensures Contents() == old(Contents())[len..]
    {
      data := data + len;
      dataLen := dataLen - len;
      p := data;
    }

    /** memcpy into the allocation. */
    method Store(at: nat, bytes: seq<byte>)
      requires Valid() && head != null && at + |bytes| <= Room()
      modifies head
      ensures head[at..at + |bytes|] == bytes
      ensures forall i | 0 <= i < Room() && !(at <= i < at + |bytes|) :: head[i] == old(head[i])
    {
      var i := 0;
      while i < |bytes|
        invariant 0 <= i <= |bytes| && head[at..at + i] == bytes[..i]
        invariant forall k | 0 <= k < Room() && !(at <= k < at + i) :: head[k] == old(head[k])
      {
        head[at + i] := bytes[i];
        i := i + 1;
      }
    }

    /** memcpy(Put(n), bytes, n). */
    method PutBytes(bytes: seq<byte>)
      requires Valid() && head != null && tail + |bytes| <= Room()
      modifies this`tail, this`dataLen, head
      ensures Valid() && HeadSize() == old(HeadSize()) && tail == old(tail) + |bytes|
      ensures Contents() == old(Contents()) + bytes
    {
      var p := Put(|bytes|);
      Store(p, bytes);
    }
  }
}
