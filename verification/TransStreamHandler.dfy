/** The incremental decoder and the encoder of jni/libdevmgr/net/TransStreamHandler.cpp, working in
    place on two buffers, and the two callers that prepare headroom for the encoder. */
module StreamHandler {
  import opened Basics
  import opened Buffers
  import opened PduStream
  import opened MiscUtils

  const DBMSG_CODE: byte := 0
  const DBMSG_SIZE := 68

  // ---------------------------------------------------------------- fields in host order

  /** ntohs on a field in the buffer. */
  method Ntohs(a: array<byte>, at: nat)
    requires at + 2 <= a.Length
    modifies a
    ensures a[at] == old(a[at + 1]) && a[at + 1] == old(a[at])
    ensures forall i | 0 <= i < a.Length && !(at <= i < at + 2) :: a[i] == old(a[i])
  {
    a[at], a[at + 1] := a[at + 1], a[at];
  }

  /** ntohl on a field in the buffer. */
  method Ntohl(a: array<byte>, at: nat)
    requires at + 4 <= a.Length
    modifies a
    ensures a[at] == old(a[at + 3]) && a[at + 1] == old(a[at + 2])
    ensures a[at + 2] == old(a[at + 1]) && a[at + 3] == old(a[at])
    ensures forall i | 0 <= i < a.Length && !(at <= i < at + 4) :: a[i] == old(a[i])
  {
    a[at], a[at + 1], a[at + 2], a[at + 3] := a[at + 3], a[at + 2], a[at + 1], a[at];
  }

  /** With `have` delivered and `rest` to come, the outcome will be `start` followed by `p`. */
  ghost predicate LeadsTo(have: seq<Pdu>, rest: Parsed, start: seq<Pdu>, p: Parsed) {
    have + rest.pdus == start + p.pdus && rest.held == p.held && rest.status == p.status
  }

  lemma OneFurther(have: seq<Pdu>, d: seq<Pdu>, rest: Parsed, start: seq<Pdu>, p: Parsed)
    requires LeadsTo(have, Then(d, rest), start, p)
    ensures LeadsTo(have + d, rest, start, p)
  {
    assert have + (d + rest.pdus) == have + d + rest.pdus;
  }

  lemma HeldIsPartial(h: seq<byte>)
    requires IsHeld(h)
    ensures Partial(h)
  {
  }

  /** strncpy: cut at `n` bytes, or filled up with NUL. */
  function StrNCpy(s: seq<byte>, n: nat): (r: seq<byte>)
    ensures |r| == n && r[..Min(|s|, n)] == s[..Min(|s|, n)]
    ensures forall i | |s| <= i < n :: r[i] == 0
  {
    if |s| >= n then s[..n] else s + seq(n - |s|, i => 0)
  }

  /** PDU_DBMSG_BODY with one device. */
  function DbMsgBody(devId: seq<byte>): seq<byte> { [1, 0, 0, 0] + StrNCpy(devId, MAX_DEV_ID_LEN) }

  /** What a receiver finds in a body: one device, and in the field behind the number its id with a NUL, if it has
      less than 64 bytes, or the first 64 bytes of it and no NUL. */
  ghost predicate TellsDevice(body: seq<byte>, devId: seq<byte>) {
    && |body| == 68 && Le32(body, 0) == 1
    && (0 !in devId && |devId| < 64 ==> CStr(body[4..]) == devId && 0 in body[4..])
    && (|devId| >= 64 ==> body[4..] == devId[..64])
  }

  lemma BodyTellsDevice(devId: seq<byte>)
    ensures TellsDevice(DbMsgBody(devId), devId)
  {
    var body := DbMsgBody(devId);
    var field := body[4..];
    assert field == StrNCpy(devId, MAX_DEV_ID_LEN);
    if |devId| < 64 {
      assert field[|devId|] == 0;
      if 0 !in devId {
        forall i | 0 <= i < |devId| ensures field[i] == devId[i] { assert field[i] == field[..|devId|][i]; }
        CStrSlot(field, devId);
      }
    }
  }

  /** What a run of `Send` has done: `left` is what was not taken from `all`. */
  ghost predicate Taken(before: seq<byte>, wire: seq<byte>, all: seq<byte>, left: seq<byte>) {
    exists t :: all == t + left && wire == before + t
  }

  lemma TakenNothing(before: seq<byte>, all: seq<byte>)
    ensures Taken(before, before, all, all)
  {
    assert all == [] + all && before == before + [];
  }

  lemma TakenMore(before: seq<byte>, wire: seq<byte>, all: seq<byte>, left: seq<byte>, n: nat)
    requires Taken(before, wire, all, left) && n <= |left|
    ensures Taken(before, wire + left[..n], all, left[n..])
  {
    var t :| all == t + left && wire == before + t;
    assert left == left[..n] + left[n..];
    Associative(t, left[..n], left[n..]);
    Associative(before, t, left[..n]);
  }

  /** In other words, a front part of `all` went out. */
  lemma TakenFront(before: seq<byte>, wire: seq<byte>, all: seq<byte>, left: seq<byte>)
    requires Taken(before, wire, all, left)
    ensures |left| <= |all| && wire == before + all[..|all| - |left|] && left == all[|all| - |left|..]
  {
    var t :| all == t + left && wire == before + t;
    assert t == all[..|all| - |left|];
  }

  datatype SendResult = Success | NotConnected | SendFailed

  class TransStreamHandler {
    const recv: BufferItem
    const recvBuf: BufferItem
    var pdus: seq<Pdu>         // the ProcessPDU calls so far
    var ends: nat              // the EndSession calls so far
    var aborted: bool          // an assertion of BufferItem stopped the program
    var wire: seq<byte>        // what Send has put on the wire

    ghost predicate Valid()
      reads this, recv, recvBuf, recv.head, recvBuf.head
    {
      && recv != recvBuf && recv.Valid() && recvBuf.Valid()
      && recv.head != null && recvBuf.head != null && recv.head != recvBuf.head
      && recv.Room() == PDU_MAX_LENGTH + PDU_HEAD_RESERVE
      && recvBuf.Room() == PDU_MAX_LENGTH * 2 + PDU_HEAD_RESERVE
    }

    /** Ready for OnRecvReady: what is held is what the reference parser would hold. */
    ghost predicate Started()
      requires Valid()
      reads this, recv, recvBuf, recv.head, recvBuf.head
    {
      !aborted && recv.HeadSize() == PDU_HEAD_RESERVE && IsHeld(recv.Contents())
    }

    /** The constructor and `Init`. */
    constructor Init()
      ensures Valid() && fresh(recv) && fresh(recvBuf) && fresh(recv.head) && fresh(recvBuf.head)
      ensures pdus == [] && ends == 0 && !aborted && wire == []
    {
      recv := new BufferItem();
      recvBuf := new BufferItem();
      pdus, ends, aborted, wire := [], 0, false, [];
      new;
      recv.Alloc(PDU_MAX_LENGTH + PDU_HEAD_RESERVE);
      recvBuf.Alloc(PDU_MAX_LENGTH * 2 + PDU_HEAD_RESERVE);
    }

    method OnStarted()
      requires Valid() && !aborted
      modifies recv
      ensures Valid() && Started() && recv.Contents() == [] && recv.head == old(recv.head)
    {
      recv.Reset(PDU_HEAD_RESERVE);
    }

    /** One call of OnRecvReady, for whatever `Recv` delivers (None is a failed Recv): exactly the
        calls, the held bytes and the end the reference parser has for held bytes plus chunk. */
    method OnRecvReady(chunk: Option<seq<byte>>)
      requires Valid() && Started()
      requires chunk.Some? ==> |chunk.value| <= recvBuf.Room()
      modifies this, recv, recvBuf, recv.head, recvBuf.head
      ensures Valid() && wire == old(wire) && recv.head == old(recv.head) && recvBuf.head == old(recvBuf.head)
      ensures chunk.None? ==> Started() && pdus == old(pdus) && ends == old(ends) + 1
                              && recv.Contents() == old(recv.Contents())
      ensures chunk.Some? ==>
        var r := Parse(old(recv.Contents()) + chunk.value);
        && pdus == old(pdus) + r.pdus
        && ends == old(ends) + (if r.status.Ended? then 1 else 0)
        && aborted == r.status.Aborted?
        && (!aborted ==> Started() && recv.Contents() == r.held)
        && (r.status.Open? ==> recvBuf.Contents() == [])
    {
      recvBuf.Reset(0);
      if chunk.None? {
        ends := ends + 1;
        return;
      }
      recvBuf.PutBytes(chunk.value);
      HeldIsPartial(recv.Contents());
      Decode();
    }

    /** What both buffers hold, as one stream. */
    ghost function Stream(): seq<byte>
      requires Valid()
      reads this, recv, recvBuf, recv.head, recvBuf.head
    {
      recv.Contents() + recvBuf.Contents()
    }

    ghost predicate Decoding()
      requires Valid()
      reads this, recv, recvBuf, recv.head, recvBuf.head
    {
      !aborted && recv.HeadSize() == PDU_HEAD_RESERVE && Partial(recv.Contents())
    }

    /** The state in which the decoding loop is left, given what the reference parser ends with. */
    ghost predicate Left(status: Status, held: seq<byte>)
      requires Valid()
      reads this, recv, recvBuf, recv.head, recvBuf.head
    {
      && aborted == status.Aborted?
      && (!aborted ==> Started() && recv.Contents() == held)
      && (status.Open? ==> recvBuf.Contents() == [])
    }

    /** The decoding loop. */
    method Decode()
      requires Valid() && Decoding()
      modifies this, recv, recvBuf, recv.head
      ensures Valid() && recv.head == old(recv.head) && recvBuf.head == old(recvBuf.head) && wire == old(wire)
      ensures var p := Parse(old(Stream()));
        pdus == old(pdus) + p.pdus && Left(p.status, p.held) && ends == old(ends) + (if p.status.Ended? then 1 else 0)
    {
      ghost var p := Parse(Stream());
      var go := true;
      while go
        invariant Valid() && recv.head == old(recv.head) && recvBuf.head == old(recvBuf.head)
        invariant wire == old(wire)
        invariant go ==> ends == old(ends) && Decoding() && LeadsTo(pdus, Parse(Stream()), old(pdus), p)
        invariant !go ==> pdus == old(pdus) + p.pdus && Left(p.status, p.held)
                          && ends == old(ends) + (if p.status.Ended? then 1 else 0)
        decreases go, recvBuf.DataSize(), recv.DataSize()
      {
        ghost var before, rest := pdus, Parse(Stream());
        ghost var d;
        go, d := DecodeStep();
        if go {
          OneFurther(before, d, Parse(Stream()), old(pdus), p);
        } else {
          assert pdus == before && before + rest.pdus == before;
        }
      }
    }

    /** One round of the decoding loop; `go` is false where the source leaves the loop. */
    method DecodeStep() returns (go: bool, ghost d: seq<Pdu>)
      requires Valid() && Decoding()
      modifies this, recv, recvBuf, recv.head
      ensures Valid() && recv.head == old(recv.head) && recvBuf.head == old(recvBuf.head)
      ensures wire == old(wire) && pdus == old(pdus) + d
      ensures go ==> ends == old(ends) && Decoding() && Parse(old(Stream())) == Then(d, Parse(Stream()))
      ensures go ==> recvBuf.DataSize() < old(recvBuf.DataSize())
                     || (recvBuf.DataSize() == old(recvBuf.DataSize()) && recv.DataSize() < old(recv.DataSize()))
      ensures !go ==> var p := Parse(old(Stream()));
        d == [] == p.pdus && Left(p.status, p.held) && ends == old(ends) + (if p.status.Ended? then 1 else 0)
    {
      if recv.DataSize() < HDR_SIZE {
        go := FillTo(HDR_SIZE);
        ThenNothing(Parse(Stream()));
        return go, [];
      }
      var hdr := recv.data;
      assert recv.Contents()[..4] == recv.head[hdr..hdr + 4];
      if recv.head[hdr..hdr + 4] != MAGIC {
        StopEnded(recv.Contents(), recvBuf.Contents());
        ends := ends + 1;
        return false, [];
      }
      go, d := DecodeBody();
    }

    /** The round for a complete good header. */
    method DecodeBody() returns (go: bool, ghost d: seq<Pdu>)
      requires Valid() && Decoding() && |recv.Contents()| >= HDR_SIZE && recv.Contents()[..4] == MAGIC
      modifies this`pdus, this`aborted, recv, recvBuf, recv.head
      ensures Valid() && recv.head == old(recv.head) && recvBuf.head == old(recvBuf.head)
      ensures pdus == old(pdus) + d
      ensures go ==> Decoding() && Parse(old(Stream())) == Then(d, Parse(Stream()))
      ensures go ==> recvBuf.DataSize() < old(recvBuf.DataSize())
                     || (recvBuf.DataSize() == old(recvBuf.DataSize()) && recv.DataSize() < old(recv.DataSize()))
      ensures !go ==> var p := Parse(old(Stream()));
        d == [] == p.pdus && !p.status.Ended? && Left(p.status, p.held)
    {
      var hdr := recv.data;
      assert recv.head[hdr + 4] == recv.Contents()[4] && recv.head[hdr + 5] == recv.Contents()[5];
      var wBodySize := Be16(recv.head[hdr + 4], recv.head[hdr + 5]);
      if recv.DataSize() - HDR_SIZE < wBodySize {
        go := FillTo(HDR_SIZE + wBodySize);
        ThenNothing(Parse(Stream()));
        return go, [];
      }
      d := TakeOne();
      return true, d;
    }

    /** Hands the complete frame over; what is left of the stream is in the receive buffer. */
    method TakeOne() returns (ghost d: seq<Pdu>)
      requires Valid() && Decoding()
      requires HasFrame(recv.Contents()) && |recv.Contents()| == HDR_SIZE + BodySize(recv.Contents())
      modifies this`pdus, recv, recv.head
      ensures Valid() && Decoding() && recv.head == old(recv.head) && pdus == old(pdus) + d
      ensures Parse(old(Stream())) == Then(d, Parse(Stream())) && recv.DataSize() < old(recv.DataSize())
    {
      ghost var r, b := recv.Contents(), recvBuf.Contents();
      TakeFrame(r, b);
      Deliver();
      assert Stream() == b;
      d := [Frame(r)];
    }

    /** Takes bytes over from the receive buffer until `size` bytes are held or no more are there. */
    method FillTo(size: nat) returns (go: bool)
      requires Valid() && Decoding() && |recv.Contents()| < size
      requires size == HDR_SIZE || (NeedsBody(recv.Contents()) && size == HDR_SIZE + BodySize(recv.Contents()))
      modifies this`aborted, recv, recvBuf, recv.head
      ensures Valid() && recv.head == old(recv.head) && recvBuf.head == old(recvBuf.head)
      ensures go ==> Decoding() && Stream() == old(Stream()) && recvBuf.DataSize() < old(recvBuf.DataSize())
      ensures !go ==> var p := Parse(old(Stream())); p.pdus == [] && !p.status.Ended? && Left(p.status, p.held)
    {
      ghost var r, b := recv.Contents(), recvBuf.Contents();
      if recvBuf.DataSize() == 0 {
        assert r + b == r;
        StopOpen(r);
        return false;
      }
      var nBytes := Min(size - recv.DataSize(), recvBuf.DataSize());
      if recv.TailSize() < nBytes {          // assert(_tail <= _end) in Put
        StopAborted(r, b);
        aborted := true;
        return false;
      }
      if size == HDR_SIZE {
        MoreHeader(r, b, nBytes);
      } else {
        MoreBody(r, b, nBytes);
      }
      Move(nBytes);
      return true;
    }

    /** memcpy(_biRecv.Put(n), _biRecvBuf.data(), n), then _biRecvBuf.Pull(n). */
    method Move(n: nat)
      requires Valid() && n <= recvBuf.DataSize() && n <= recv.TailSize()
      modifies recv, recvBuf, recv.head
      ensures Valid() && recv.head == old(recv.head) && recvBuf.head == old(recvBuf.head)
      ensures recv.HeadSize() == old(recv.HeadSize())
      ensures recv.Contents() == old(recv.Contents()) + old(recvBuf.Contents())[..n]
      ensures recvBuf.Contents() == old(recvBuf.Contents())[n..]
    {
      var bytes := recvBuf.head[recvBuf.data..recvBuf.data + n];
      assert bytes == recvBuf.Contents()[..n];
      ghost var from := recvBuf.Contents();
      recv.PutBytes(bytes);
      assert recvBuf.Contents() == from;
      var _ := recvBuf.Pull(n);
    }

    /** Header to host order in place, Pull, ProcessPDU, Reset. */
    method Deliver()
      requires Valid() && recv.HeadSize() == PDU_HEAD_RESERVE && |recv.Contents()| >= HDR_SIZE
      requires |recv.Contents()| == HDR_SIZE + BodySize(recv.Contents())
      modifies this`pdus, recv, recv.head
      ensures Valid() && recv.head == old(recv.head)
      ensures recv.HeadSize() == PDU_HEAD_RESERVE && recv.Contents() == []
      ensures pdus == old(pdus) + [Frame(old(recv.Contents()))]
    {
      ghost var frame := recv.Contents();
      var hdr := recv.data;
      Ntohs(recv.head, hdr + 4);
      Ntohl(recv.head, hdr + 8);
      assert Le16(recv.head[..], hdr + 4) == BodySize(frame);
      assert Le32(recv.head[..], hdr + 8) == Be32(frame[8], frame[9], frame[10], frame[11]);
      assert recv.head[hdr + HDR_SIZE..hdr + HDR_SIZE + BodySize(frame)] == frame[HDR_SIZE..];
      var body := recv.Pull(HDR_SIZE);
      ProcessPDU(hdr, body);
      assert recv.head[..][body..body + BodySize(frame)] == frame[HDR_SIZE..];
      assert Frame(frame).body == frame[HDR_SIZE..];
      recv.Reset(PDU_HEAD_RESERVE);
    }

    /** The handler's view of a message: header fields and body as they lie in the frame buffer. */
    method ProcessPDU(hdr: nat, body: nat)
      requires recv.Valid() && recv.head != null && hdr + HDR_SIZE <= recv.Room()
      requires body + Le16(recv.head[..], hdr + 4) <= recv.Room()
      modifies this`pdus
      ensures var s := recv.head[..];
        pdus == old(pdus) + [Pdu(s[hdr + 6], s[hdr + 7] % 2 == 1, s[hdr + 7] / 2 % 2 == 1,
                                 Le32(s, hdr + 8), s[body..body + Le16(s, hdr + 4)])]
    {
      var s := recv.head[..];
      var wBodySize := Le16(s, hdr + 4);
      pdus := pdus + [Pdu(s[hdr + 6], s[hdr + 7] % 2 == 1, s[hdr + 7] / 2 % 2 == 1, Le32(s, hdr + 8),
                          s[body..body + wBodySize])];
    }

    ghost predicate Fed(before: seq<Pdu>, n: nat, p: Parsed)
      requires Valid()
      reads this, recv, recvBuf, recv.head, recvBuf.head
    {
      && pdus == before + p.pdus && ends == n + (if p.status.Ended? then 1 else 0)
      && aborted == p.status.Aborted? && (!aborted ==> Started() && recv.Contents() == p.held)
    }

    /** One chunk out of many. */
    method ReceiveOne(ghost before: seq<Pdu>, chunks: seq<seq<byte>>, i: nat)
      requires Valid() && i < |chunks| && |chunks[i]| <= recvBuf.Room()
      requires Fed(before, ends, FeedAll(chunks[..i])) && FeedAll(chunks[..i]).status.Open?
      modifies this, recv, recvBuf, recv.head, recvBuf.head
      ensures Valid() && wire == old(wire) && recv.head == old(recv.head) && recvBuf.head == old(recvBuf.head)
      ensures Fed(before, old(ends), FeedAll(chunks[..i + 1]))
    {
      assert chunks[..i + 1][..i] == chunks[..i];
      OnRecvReady(Some(chunks[i]));
    }

    /** The mux thread calls OnRecvReady once for every chunk until the session is suspended, which EndSession
        does; a failed assertion ends the program. */
    method ReceiveAll(chunks: seq<seq<byte>>)
      requires Valid() && !aborted
      requires forall i | 0 <= i < |chunks| :: |chunks[i]| <= recvBuf.Room()
      modifies this, recv, recvBuf, recv.head, recvBuf.head
      ensures Valid() && wire == old(wire)
      ensures var p := Parse(Concat(chunks));
        && pdus == old(pdus) + p.pdus && ends == old(ends) + (if p.status.Ended? then 1 else 0)
        && aborted == p.status.Aborted? && (!aborted ==> recv.Contents() == p.held)
    {
      OnStarted();
      var i := 0;
      var n := ends;
      assert chunks[..0] == [];
      while i < |chunks| && !aborted && ends == n
        invariant 0 <= i <= |chunks| && Valid() && wire == old(wire) && n == old(ends)
        invariant recv.head == old(recv.head) && recvBuf.head == old(recvBuf.head)
        invariant Fed(old(pdus), n, FeedAll(chunks[..i]))
      {
        ReceiveOne(old(pdus), chunks, i);
        i := i + 1;
      }
      if aborted || ends != n {
        ClosedIsFinal(chunks, i);
      } else {
        assert chunks[..i] == chunks;
        ChunkingDoesNotMatter(chunks);
      }
    }

    /** send(2): takes some of the bytes, or fails. */
    method SendSome(item: BufferItem) returns (len: int)
      requires item.Valid() && item.head != null
      modifies this`wire, item`data, item`dataLen
      ensures item.Valid() && len <= old(item.DataSize())
      ensures len <= 0 ==> wire == old(wire) && item.Contents() == old(item.Contents())
      ensures len > 0 ==> wire == old(wire) + old(item.Contents())[..len]
      ensures len > 0 ==> item.Contents() == old(item.Contents())[len..]
    {
      len :| len <= item.DataSize();
      if len > 0 {
        assert item.head[item.data..item.data + len] == item.Contents()[..len];
        wire := wire + item.head[item.data..item.data + len];
        var _ := item.Pull(len);
      }
    }

    /** TransSockInst::Send: until no bytes are left or the socket fails. */
    method Send(item: BufferItem) returns (r: SendResult)
      requires item.Valid() && item.head != null
      modifies this`wire, item`data, item`dataLen
      ensures item.Valid() && Taken(old(wire), wire, old(item.Contents()), item.Contents())
      ensures r == if item.Contents() == [] then Success else SendFailed
    {
      ghost var all := item.Contents();
      TakenNothing(wire, all);
      while item.DataSize() > 0
        invariant item.Valid() && item.head == old(item.head)
        invariant Taken(old(wire), wire, all, item.Contents())
        decreases item.DataSize()
      {
        ghost var was, left := wire, item.Contents();
        var len := SendSome(item);
        if len <= 0 {
          return SendFailed;
        }
        TakenMore(old(wire), was, all, left, len);
      }
      return Success;
    }

    /** The header in front of the body; the reserved bits of the flag byte stay as they were. */
    method PushHeader(code: byte, req: bool, err: bool, param: dword, item: BufferItem)
      requires item.Valid() && item.head != null && item.HeadSize() >= HDR_SIZE
      modifies item`data, item`dataLen, item.head
      ensures item.Valid()
      ensures item.Contents()
           == Encode(Pdu(code, req, err, param, old(item.Contents())), old(item.head[item.data - 5]) / 4)
    {
      ghost var body := item.Contents();
      var reserved := item.head[item.data - 5] / 4;
      var p := item.Push(HDR_SIZE);
      var size := (item.DataSize() - HDR_SIZE) % 0x1_0000;
      var bytes := HeaderBytes(size, code, reserved, err, req, param);
      assert bytes == Header(Pdu(code, req, err, param, body), reserved);
      assert item.Contents()[HDR_SIZE..] == body;
      item.Store(p, bytes);
      assert item.head[p + HDR_SIZE..item.tail] == body;
      assert item.Contents() == item.head[p..p + HDR_SIZE] + item.head[p + HDR_SIZE..item.tail];
    }

    /** The encoded message goes out, whole or, if the socket fails, in part; what was not taken stays. */
    method SendPDU(code: byte, req: bool, err: bool, param: dword, item: BufferItem) returns (r: SendResult)
      requires item.Valid() && item.head != null && item.HeadSize() >= HDR_SIZE
      modifies this`wire, item`data, item`dataLen, item.head
      ensures item.Valid()
      ensures Taken(old(wire), wire,
                    Encode(Pdu(code, req, err, param, old(item.Contents())), old(item.head[item.data - 5]) / 4),
                    item.Contents())
      ensures r == if item.Contents() == [] then Success else SendFailed
    {
      PushHeader(code, req, err, param, item);
      r := Send(item);
    }

    /** MsgClient::SendDbMsg: a long-lived buffer, headroom by Reset. Without a connection nothing happens. */
    method SendDbMsg(connected: bool, send: BufferItem, msg: dword, devId: seq<byte>)
      returns (r: SendResult, ghost reserved: byte, ghost body: seq<byte>)
      requires send.Valid() && send.head != null && send.Room() == PDU_MAX_LENGTH + PDU_HEAD_RESERVE
      modifies this`wire, send, send.head
      ensures send.Valid() && reserved < 64
      ensures !connected ==> r == NotConnected && wire == old(wire) && send.Contents() == old(send.Contents())
      ensures TellsDevice(body, devId)
      ensures connected ==>
        && Taken(old(wire), wire, Encode(Pdu(DBMSG_CODE, true, false, msg, body), reserved), send.Contents())
        && r == if send.Contents() == [] then Success else SendFailed
    {
      body := DbMsgBody(devId);
      BodyTellsDevice(devId);
      if !connected {
        return NotConnected, 0, body;
      }
      send.Reset(PDU_HEAD_RESERVE + HDR_SIZE);
      send.PutBytes(DbMsgBody(devId));
      assert send.Contents() == body;
      reserved := send.head[send.data - 5] / 4;
      r := SendPDU(DBMSG_CODE, true, false, msg, send);
    }

    /** MsgServerHandler::Notify: a fresh buffer, headroom by Reserve; the result of the sending is ignored. */
    method Notify(msg: dword, devId: seq<byte>)
      returns (ghost reserved: byte, ghost body: seq<byte>, ghost left: seq<byte>)
      modifies this`wire
      ensures reserved < 64 && TellsDevice(body, devId)
      ensures Taken(old(wire), wire, Encode(Pdu(DBMSG_CODE, false, false, msg, body), reserved), left)
    {
      body := DbMsgBody(devId);
      BodyTellsDevice(devId);
      var send := new BufferItem();
      send.Alloc(PDU_HEAD_RESERVE + HDR_SIZE + DBMSG_SIZE);
      send.Reserve(PDU_HEAD_RESERVE + HDR_SIZE);
      send.PutBytes(DbMsgBody(devId));
      assert send.Contents() == body;
      reserved := send.head[send.data - 5] / 4;
      var _ := SendPDU(DBMSG_CODE, false, false, msg, send);
      left := send.Contents();
    }

    /** Sends one message from a buffer of its own. */
    method SendOne(m: Pdu) returns (r: SendResult, ghost reserved: byte, ghost n: nat)
      modifies this`wire
      ensures reserved < 64 && n <= |Encode(m, reserved)| && wire == old(wire) + Encode(m, reserved)[..n]
      ensures r == if n == |Encode(m, reserved)| then Success else SendFailed
    {
      var item := new BufferItem();
      item.Alloc(PDU_HEAD_RESERVE + HDR_SIZE + |m.body|);
      item.Reserve(PDU_HEAD_RESERVE + HDR_SIZE);
      item.PutBytes(m.body);
      assert item.Contents() == m.body;
      reserved := item.head[item.data - 5] / 4;
      r := SendPDU(m.code, m.req, m.err, m.param, item);
      TakenFront(old(wire), wire, Encode(m, reserved), item.Contents());
      n := |Encode(m, reserved)| - |item.Contents()|;
    }

    /** Sends messages until one fails: `k` went out whole, and `part` of the next one. */
    method SendAll(ms: seq<Pdu>) returns (k: nat, ghost stream: seq<byte>, ghost part: seq<byte>)
      requires forall m | m in ms :: |m.body| <= MAX_BODY
      modifies this`wire
      ensures k <= |ms| && wire == old(wire) + stream && Parse(stream) == Parsed(ms[..k], part, Open)
      ensures k == |ms| ==> part == []
    {
      ghost var sent := [];
      k, part := 0, [];
      while k < |ms|
        invariant k <= |ms| && Fit(sent) && Messages(sent) == ms[..k] && wire == old(wire) + Wire(sent)
      {
        var r;
        ghost var reserved, n;
        r, reserved, n := SendOne(ms[k]);
        ghost var all := Encode(ms[k], reserved);
        Associative(old(wire), Wire(sent), all[..n]);
        if r != Success {
          part := all[..n];
          PartIsOpen(ms[k], reserved, n);
          break;
        }
        assert all[..n] == all;
        WireLast(sent, Sent(ms[k], reserved));
        sent := sent + [Sent(ms[k], reserved)];
        assert ms[..k] + [ms[k]] == ms[..k + 1];
        k := k + 1;
      }
      stream := Wire(sent) + part;
      PartBehind(sent, part);
    }
  }

  /** The network: the bytes arrive in chunks of any size up to `max`. */
  method CutUp(s: seq<byte>, max: nat) returns (chunks: seq<seq<byte>>)
    requires max > 0
    ensures Concat(chunks) == s && forall i | 0 <= i < |chunks| :: |chunks[i]| <= max
  {
    chunks := [];
    var n := 0;
    while n < |s|
      invariant n <= |s| && Concat(chunks) == s[..n]
      invariant forall i | 0 <= i < |chunks| :: |chunks[i]| <= max
      decreases |s| - n
    {
      var len: nat :| 1 <= len <= max && n + len <= |s|;
      assert (chunks + [s[n..n + len]])[..|chunks|] == chunks;
      chunks := chunks + [s[n..n + len]];
      n := n + len;
    }
  }

  /** One handler sends messages that fit, the other one receives them in whatever chunks: those that went
      out whole are delivered unchanged and in order, the part of the next one is held. */
  method Transfer(sender: TransStreamHandler, receiver: TransStreamHandler, ms: seq<Pdu>) returns (k: nat)
    requires sender != receiver && sender.wire == []
    requires receiver.Valid() && !receiver.aborted
    requires forall m | m in ms :: |m.body| <= MAX_BODY
    modifies sender`wire, receiver, receiver.recv, receiver.recvBuf, receiver.recv.head, receiver.recvBuf.head
    ensures k <= |ms| && receiver.Valid() && receiver.pdus == old(receiver.pdus) + ms[..k]
    ensures !receiver.aborted && receiver.ends == old(receiver.ends)
    ensures k == |ms| ==> receiver.recv.Contents() == []
  {
    ghost var stream, part;
    k, stream, part := sender.SendAll(ms);
    assert sender.wire == stream;
    var chunks := CutUp(sender.wire, receiver.recvBuf.Room());
    receiver.ReceiveAll(chunks);
  }

  /** `SendDbMsg` on a connection that carried nothing before: how much of the message went out. */
  method SendFirst(sender: TransStreamHandler, send: BufferItem, msg: dword, devId: seq<byte>)
    returns (r: SendResult, ghost m: Pdu)
    requires sender.wire == []
    requires send.Valid() && send.head != null && send.Room() == PDU_MAX_LENGTH + PDU_HEAD_RESERVE
    modifies sender`wire, send, send.head
    ensures r != NotConnected && TellsDevice(m.body, devId) && m == Pdu(DBMSG_CODE, true, false, msg, m.body)
    ensures Parse(sender.wire) == if r == Success then Parsed([m], [], Open) else Parsed([], sender.wire, Open)
  {
    ghost var reserved, body;
    r, reserved, body := sender.SendDbMsg(true, send, msg, devId);
    m := Pdu(DBMSG_CODE, true, false, msg, body);
    FirstOut(m, reserved, sender.wire, send.Contents());
  }

  /** A message about a device, through `SendDbMsg` of one side and the decoder of the other: if it went out whole,
      the other side's handler is given exactly it, with a body that tells the device; if not, nothing. */
  method TransferDbMsg(sender: TransStreamHandler, receiver: TransStreamHandler, send: BufferItem,
                       msg: dword, devId: seq<byte>)
    returns (r: SendResult, ghost m: Pdu)
    requires sender != receiver && sender.wire == []
    requires send.Valid() && send.head != null && send.Room() == PDU_MAX_LENGTH + PDU_HEAD_RESERVE
    requires receiver.Valid() && !receiver.aborted && send != receiver.recv && send != receiver.recvBuf
    requires send.head != receiver.recv.head && send.head != receiver.recvBuf.head
    modifies sender`wire, send, send.head
    modifies receiver, receiver.recv, receiver.recvBuf, receiver.recv.head, receiver.recvBuf.head
    ensures r != NotConnected && TellsDevice(m.body, devId) && m == Pdu(DBMSG_CODE, true, false, msg, m.body)
    ensures receiver.Valid() && !receiver.aborted && receiver.ends == old(receiver.ends)
    ensures receiver.pdus == old(receiver.pdus) + if r == Success then [m] else []
    ensures r == Success ==> receiver.recv.Contents() == []
  {
    r, m := SendFirst(sender, send, msg, devId);
    var chunks := CutUp(sender.wire, receiver.recvBuf.Room());
    receiver.ReceiveAll(chunks);
  }

  /** What the other side makes of a first message, all but `left` of which went out. */
  lemma FirstOut(m: Pdu, reserved: byte, wire: seq<byte>, left: seq<byte>)
    requires reserved < 64 && |m.body| <= MAX_BODY && Taken([], wire, Encode(m, reserved), left)
    ensures Parse(wire) == if left == [] then Parsed([m], [], Open) else Parsed([], wire, Open)
  {
    var s := Encode(m, reserved);
    TakenFront([], wire, s, left);
    var n := |s| - |left|;
    assert wire == s[..n];
    if left == [] {
      RoundTripOne(m, reserved, []);
      assert wire == s + [];
    } else {
      PartIsOpen(m, reserved, n);
    }
  }
}
