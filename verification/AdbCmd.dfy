/** Collecting a child's output in jni/libdevmgr/dev/AdbCmd.cpp. */
module AdbCmd {
  import opened Basics
  import opened Buffers
  import opened MiscUtils

  const BUF_SIZE := 500

  /** What a parser reads in the collected output, `before` being what it read in the allocation. */
  function Seen(before: seq<byte>, chunks: seq<seq<byte>>): seq<byte> {
    if chunks == [] then before else CStr(Concat(chunks))
  }

  /** `chunks` is what `read` delivers until it fails or the pipe is closed; a read asks for one byte less
      than the buffer. The output is collected with a NUL behind it, unless there was none at all: then
      the allocation keeps whatever it held. An allocation made for an empty output is uninitialised. */
  method ProcessChildOutput(output: BufferItem, chunks: seq<seq<byte>>)
    requires output.Valid()
    requires forall i | 0 <= i < |chunks| :: 1 <= |chunks[i]| < BUF_SIZE
    modifies output, output.head
    ensures output.Valid() && output.head != null && output.HeadSize() == 0 && output.Room() >= BUF_SIZE
    ensures output.head == old(output.head) || fresh(output.head)
    ensures chunks != [] ==> output.Contents() == Concat(chunks) + [0]
    ensures chunks == [] ==> output.Contents() == [output.head[0]]
    ensures chunks == [] && old(output.head != null && output.Room() >= BUF_SIZE) ==>
      output.head == old(output.head) && output.head[..] == old(output.head[..])
    ensures chunks != [] ==> CStr(output.head[..]) == CStr(Concat(chunks))
    ensures old(output.head != null && output.Room() >= BUF_SIZE) ==>
      CStr(output.head[..]) == Seen(old(CStr(output.head[..])), chunks)
    ensures old(output.head != null && output.Room() >= BUF_SIZE) ==>
      (CStr(output.head[..]) == CStr(Concat(chunks)) <==> chunks != [] || old(output.head[0]) == 0)
    ensures CStr(output.head[..]) == CStr(Concat(chunks)) <==> chunks != [] || output.head[0] == 0
  {
    output.Alloc(BUF_SIZE);
    Collect(output, chunks);
    var p := output.Put(1);
    assert output.head[p..p + 1] == [output.head[p]];
    if chunks != [] {
      OutputIsAString(chunks, output.head[output.tail..]);
      assert output.head[..] == output.Contents() + output.head[output.tail..];
    }
  }

  /** The reading loop. */
  method Collect(output: BufferItem, chunks: seq<seq<byte>>)
    requires output.Valid() && output.head != null && output.HeadSize() == 0 && output.tail == 0
    requires output.Room() >= BUF_SIZE && forall i | 0 <= i < |chunks| :: 1 <= |chunks[i]| < BUF_SIZE
    modifies output, output.head
    ensures output.Valid() && output.head != null && output.HeadSize() == 0 && output.Room() >= BUF_SIZE
    ensures output.head == old(output.head) || fresh(output.head)
    ensures output.tail < output.Room() && output.Contents() == Concat(chunks)
    ensures chunks != [] ==> output.head[output.tail] == 0
    ensures chunks == [] ==> output.head == old(output.head) && output.head[..] == old(output.head[..])
  {
    var i := 0;
    while i < |chunks|
      invariant i <= |chunks| && output.Valid() && output.head != null && output.HeadSize() == 0
      invariant output.head == old(output.head) || fresh(output.head)
      invariant BUF_SIZE <= output.Room() && output.tail < output.Room() && output.Contents() == Concat(chunks[..i])
      invariant i > 0 ==> output.head[output.tail] == 0
      invariant i == 0 ==> output.head == old(output.head) && output.head[..] == old(output.head[..])
    {
      assert chunks[..i + 1][..i] == chunks[..i];
      Append(output, chunks[i]);
      i := i + 1;
    }
    assert chunks[..i] == chunks;
  }

  /** The loop body: grow if the chunk and its NUL do not fit, then copy both. */
  method Append(output: BufferItem, chunk: seq<byte>)
    requires output.Valid() && output.head != null && 1 <= |chunk| < BUF_SIZE
    modifies output, output.head
    ensures output.Valid() && output.HeadSize() == old(output.HeadSize())
    ensures output.head != null && (output.head == old(output.head) || fresh(output.head))
    ensures old(output.Room()) <= output.Room() && output.tail < output.Room() && output.head[output.tail] == 0
    ensures output.Contents() == old(output.Contents()) + chunk
  {
    if output.TailSize() <= |chunk| {
      output.Expand(BUF_SIZE);
    }
    CopyWithNul(output, chunk);
  }

  /** memcpy(_biOutput.Put(n), buf, n + 1) */
  method CopyWithNul(output: BufferItem, chunk: seq<byte>)
    requires output.Valid() && output.head != null && output.tail + |chunk| < output.Room()
    modifies output`tail, output`dataLen, output.head
    ensures output.Valid() && output.HeadSize() == old(output.HeadSize())
    ensures output.tail < output.Room() && output.head[output.tail] == 0
    ensures output.Contents() == old(output.Contents()) + chunk
  {
    var buf := chunk + [0];
    var p := output.Put(|chunk|);
    output.Store(p, buf);
    assert output.head[p..p + |buf|][..|chunk|] == chunk && output.head[p..p + |buf|][|chunk|] == 0;
  }

  /** So the parsers, which read up to the NUL, see the output up to its first NUL and stay inside it. */
  lemma OutputIsAString(chunks: seq<seq<byte>>, rest: seq<byte>)
    ensures CStr(Concat(chunks) + [0] + rest) == CStr(Concat(chunks))
  {
    CStrOfPrefix(Concat(chunks), rest);
  }

  lemma {:induction false} CStrOfPrefix(t: seq<byte>, rest: seq<byte>)
    ensures CStr(t + [0] + rest) == CStr(t)
  {
    if t == [] {
    } else {
      assert (t + [0] + rest)[1..] == t[1..] + [0] + rest;
      CStrOfPrefix(t[1..], rest);
    }
  }
}
