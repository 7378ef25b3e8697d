/** The wire format of jni/libdevmgr/net/TransStreamHandler.cpp as pure functions. */
module PduStream {
  import opened Basics
  import opened Buffers

  // An encoder for one message and a parser for a whole byte stream, which is the reference the incremental
  // decoder is proved against.

  const HDR_SIZE := 12
  const PDU_HEAD_RESERVE := 256
  const PDU_MAX_LENGTH := 1000
  const MAX_BODY := PDU_MAX_LENGTH - HDR_SIZE
  const MAGIC: seq<byte> := [0x55, 0x44, 0x50, 0x5F]

  /** What `ProcessPDU` is given: the header fields in host order and the body. */
  datatype Pdu = Pdu(code: byte, req: bool, err: bool, param: dword, body: seq<byte>)

  function Be16(a: byte, b: byte): nat { a * 0x100 + b }

  function Be32(a: byte, b: byte, c: byte, d: byte): dword { a * 0x1_000000 + b * 0x1_0000 + c * 0x100 + d }

  function Bit(on: bool): byte { if on then 1 else 0 }

  // ---------------------------------------------------------------- encoding

  /** The fields in network order; the six reserved bits of the flag byte are whatever they were. */
  function HeaderBytes(size: nat, code: byte, reserved: byte, err: bool, req: bool, param: dword): seq<byte>
    requires size < 0x1_0000 && reserved < 64
  {
    MAGIC
    + [size / 0x100, size % 0x100, code, reserved * 4 + Bit(err) * 2 + Bit(req)]
    + [param / 0x1_000000, param / 0x1_0000 % 0x100, param / 0x100 % 0x100, param % 0x100]
  }

  /** The size field is 16 bits wide. */
  function Header(m: Pdu, reserved: byte): seq<byte>
    requires reserved < 64
  {
    HeaderBytes(|m.body| % 0x1_0000, m.code, reserved, m.err, m.req, m.param)
  }

  function Encode(m: Pdu, reserved: byte): seq<byte>
    requires reserved < 64
  {
    Header(m, reserved) + m.body
  }

  /** Two messages, byte by byte: magic, size, code, flags with reserved bits, parameter, body. */
  lemma KnownBytes()
    ensures Encode(Pdu(0x12, true, false, 0x01020304, [0xAA, 0xBB]), 5)
         == [0x55, 0x44, 0x50, 0x5F, 0, 2, 0x12, 0x15, 1, 2, 3, 4, 0xAA, 0xBB]
    ensures Encode(Pdu(0, false, true, 0xF0000001, []), 0) == [0x55, 0x44, 0x50, 0x5F, 0, 0, 0, 2, 0xF0, 0, 0, 1]
  {
  }

  // ---------------------------------------------------------------- parsing a whole stream

  /** Open: more bytes may follow. Ended: the stream was given up at a wrong magic. Aborted: a body that
      does not fit the frame buffer was stored, which the source's assertion in `Put` stops. */
  datatype Status = Open | Ended | Aborted

  datatype Parsed = Parsed(pdus: seq<Pdu>, held: seq<byte>, status: Status)

  /** The outcome `p`, with `done` delivered before. */
  function Then(done: seq<Pdu>, p: Parsed): Parsed { Parsed(done + p.pdus, p.held, p.status) }

  lemma ThenNothing(p: Parsed)
    ensures Then([], p) == p
  {
    assert [] + p.pdus == p.pdus;
  }

  lemma ThenThen(a: seq<Pdu>, b: seq<Pdu>, p: Parsed)
    ensures Then(a, Then(b, p)) == Then(a + b, p)
  {
    Associative(a, b, p.pdus);
  }

  function BodySize(s: seq<byte>): nat
    requires |s| >= HDR_SIZE
  {
    Be16(s[4], s[5])
  }

  function Frame(s: seq<byte>): Pdu
    requires |s| >= HDR_SIZE && |s| >= HDR_SIZE + BodySize(s)
  {
    Pdu(s[6], s[7] % 2 == 1, s[7] / 2 % 2 == 1, Be32(s[8], s[9], s[10], s[11]),
        s[HDR_SIZE..HDR_SIZE + BodySize(s)])
  }

  function Parse(s: seq<byte>): Parsed {
    if |s| < HDR_SIZE then Parsed([], s, Open)
    else if s[..4] != MAGIC then Parsed([], s[..HDR_SIZE], Ended)
    else
      var size := BodySize(s);
      if Min(size, |s| - HDR_SIZE) > MAX_BODY then Parsed([], [], Aborted)
      else if |s| - HDR_SIZE < size then Parsed([], s, Open)
      else
        Then([Frame(s)], Parse(s[HDR_SIZE + size..]))
  }

  /** What the frame buffer may hold between two calls: a beginning of a frame, or a bad header. */
  predicate IsHeld(h: seq<byte>) { Parse(h).pdus == [] && Parse(h).held == h && !Parse(h).status.Aborted? }

  lemma {:induction false} HeldIsHeld(s: seq<byte>)
    requires !Parse(s).status.Aborted?
    ensures IsHeld(Parse(s).held) && |Parse(s).held| <= PDU_MAX_LENGTH
    ensures Parse(Parse(s).held).status == Parse(s).status
  {
    if |s| >= HDR_SIZE && s[..4] == MAGIC && |s| - HDR_SIZE >= BodySize(s) {
      HeldIsHeld(s[HDR_SIZE + BodySize(s)..]);
    } else if |s| >= HDR_SIZE && s[..4] != MAGIC {
      assert s[..HDR_SIZE][..4] == s[..4];
    }
  }

  predicate HasFrame(s: seq<byte>) {
    |s| >= HDR_SIZE && s[..4] == MAGIC && BodySize(s) <= Min(|s| - HDR_SIZE, MAX_BODY)
  }

  /** A complete frame in front is parsed whatever follows. */
  lemma FrameInFront(a: seq<byte>, b: seq<byte>)
    requires HasFrame(a)
    ensures Parse(a + b) == Then([Frame(a)], Parse(a[HDR_SIZE + BodySize(a)..] + b))
  {
    var n := HDR_SIZE + BodySize(a);
    assert (a + b)[..4] == a[..4];
    assert (a + b)[n..] == a[n..] + b;
    assert (a + b)[HDR_SIZE..n] == a[HDR_SIZE..n];
    assert Frame(a + b) == Frame(a);
  }

  lemma FrameAlone(a: seq<byte>)
    requires HasFrame(a)
    ensures Parse(a) == Then([Frame(a)], Parse(a[HDR_SIZE + BodySize(a)..]))
  {
  }

  lemma CutWithoutFrame(a: seq<byte>, b: seq<byte>)
    requires !Parse(a).status.Aborted? && !HasFrame(a)
    ensures Parse(a).pdus == [] && Parse(Parse(a).held + b) == Parse(a + b)
  {
    if |a| >= HDR_SIZE && a[..4] != MAGIC {
      var h := a[..HDR_SIZE];
      assert (a + b)[..4] == a[..4] && (a + b)[..HDR_SIZE] == h;
      assert (h + b)[..4] == a[..4] && (h + b)[..HDR_SIZE] == h;
    }
  }

  /** The stream can be cut anywhere: what was held is enough to go on. */
  lemma {:induction false} ParseCut(a: seq<byte>, b: seq<byte>)
    requires !Parse(a).status.Aborted?
    ensures Parse(a + b) == Then(Parse(a).pdus, Parse(Parse(a).held + b))
  {
    if !HasFrame(a) {
      CutWithoutFrame(a, b);
    } else {
      var rest := a[HDR_SIZE + BodySize(a)..];
      var before := Parse(rest);
      FrameAlone(a);
      FrameInFront(a, b);
      ParseCut(rest, b);
      ThenThen([Frame(a)], before.pdus, Parse(before.held + b));
    }
  }

  /** Feeding chunk after chunk, holding over what `held` says and stopping at an abort. */
  function FeedAll(chunks: seq<seq<byte>>): Parsed {
    if chunks == [] then Parsed([], [], Open)
    else
      var before := FeedAll(chunks[..|chunks| - 1]);
      if before.status.Aborted? then before
      else
        Then(before.pdus, Parse(before.held + chunks[|chunks| - 1]))
  }

  lemma {:induction false} AbortIsFinal(a: seq<byte>, b: seq<byte>)
    requires Parse(a).status.Aborted?
    ensures Parse(a + b) == Parse(a)
  {
    if HasFrame(a) {
      FrameAlone(a);
      FrameInFront(a, b);
      AbortIsFinal(a[HDR_SIZE + BodySize(a)..], b);
    } else {
      assert (a + b)[..4] == a[..4];
    }
  }

  lemma {:induction false} EndIsFinal(a: seq<byte>, b: seq<byte>)
    requires Parse(a).status.Ended?
    ensures Parse(a + b) == Parse(a)
  {
    if HasFrame(a) {
      FrameAlone(a);
      FrameInFront(a, b);
      EndIsFinal(a[HDR_SIZE + BodySize(a)..], b);
    } else {
      assert (a + b)[..4] == a[..4] && (a + b)[..HDR_SIZE] == a[..HDR_SIZE];
    }
  }

  /** How the bytes were cut into chunks makes no difference. */
  lemma {:induction false} ChunkingDoesNotMatter(chunks: seq<seq<byte>>)
    ensures FeedAll(chunks) == Parse(Concat(chunks))
  {
    if chunks == [] {
    } else {
      var before := chunks[..|chunks| - 1];
      var last := chunks[|chunks| - 1];
      ChunkingDoesNotMatter(before);
      if Parse(Concat(before)).status.Aborted? {
        AbortIsFinal(Concat(before), last);
      } else {
        ParseCut(Concat(before), last);
      }
    }
  }

  lemma {:induction false} ConcatCut<T>(chunks: seq<seq<T>>, i: nat) returns (rest: seq<T>)
    requires i <= |chunks|
    ensures Concat(chunks) == Concat(chunks[..i]) + rest
  {
    if i == |chunks| {
      rest := [];
      assert chunks[..i] == chunks;
    } else {
      var n := |chunks| - 1;
      assert chunks[..n][..i] == chunks[..i];
      var some := ConcatCut(chunks[..n], i);
      rest := some + chunks[n];
      Associative(Concat(chunks[..i]), some, chunks[n]);
    }
  }

  /** Nothing after a wrong magic or an overlong body makes a difference. */
  lemma {:induction false} ClosedIsFinal(chunks: seq<seq<byte>>, i: nat)
    requires i <= |chunks| && !FeedAll(chunks[..i]).status.Open?
    ensures FeedAll(chunks[..i]) == Parse(Concat(chunks))
  {
    ChunkingDoesNotMatter(chunks[..i]);
    var rest := ConcatCut(chunks, i);
    if FeedAll(chunks[..i]).status.Aborted? {
      AbortIsFinal(Concat(chunks[..i]), rest);
    } else {
      EndIsFinal(Concat(chunks[..i]), rest);
    }
  }

  // ---------------------------------------------------------------- facts for the decoder's loop

  /** What the frame buffer holds while a frame is being collected. */
  predicate Partial(r: seq<byte>) {
    |r| <= HDR_SIZE || (r[..4] == MAGIC && |r| - HDR_SIZE <= Min(BodySize(r), MAX_BODY))
  }

  predicate NeedsBody(r: seq<byte>) { |r| >= HDR_SIZE && r[..4] == MAGIC && |r| - HDR_SIZE < BodySize(r) }

  lemma StopOpen(r: seq<byte>)
    requires Partial(r) && (|r| < HDR_SIZE || NeedsBody(r))
    ensures Parse(r) == Parsed([], r, Open) && IsHeld(r)
  {
  }

  lemma StopEnded(r: seq<byte>, b: seq<byte>)
    requires |r| == HDR_SIZE && r[..4] != MAGIC
    ensures Parse(r + b) == Parsed([], r, Ended) && IsHeld(r)
  {
    assert (r + b)[..4] == r[..4] && (r + b)[..HDR_SIZE] == r && r[..HDR_SIZE] == r;
  }

  lemma StopAborted(r: seq<byte>, b: seq<byte>)
    requires NeedsBody(r) && |r| + Min(BodySize(r) - (|r| - HDR_SIZE), |b|) > PDU_MAX_LENGTH
    ensures Parse(r + b) == Parsed([], [], Aborted)
  {
    assert (r + b)[..4] == r[..4];
  }

  lemma TakeFrame(r: seq<byte>, b: seq<byte>)
    requires HasFrame(r) && |r| == HDR_SIZE + BodySize(r)
    ensures Parse(r + b) == Then([Frame(r)], Parse(b))
  {
    FrameInFront(r, b);
    assert r[HDR_SIZE + BodySize(r)..] + b == b;
  }

  lemma MoreHeader(r: seq<byte>, b: seq<byte>, n: nat)
    requires |r| < HDR_SIZE && n <= |b| && |r| + n <= HDR_SIZE
    ensures Partial(r + b[..n]) && (r + b[..n]) + b[n..] == r + b
  {
  }

  lemma MoreBody(r: seq<byte>, b: seq<byte>, n: nat)
    requires NeedsBody(r) && n <= |b| && n <= BodySize(r) - (|r| - HDR_SIZE) && |r| + n <= PDU_MAX_LENGTH
    ensures Partial(r + b[..n]) && (r + b[..n]) + b[n..] == r + b
  {
    assert (r + b[..n])[..4] == r[..4];
  }

  // ---------------------------------------------------------------- round trip

  lemma Digits16(n: nat)
    requires n < 0x1_0000
    ensures n / 0x100 < 0x100 && Be16(n / 0x100, n % 0x100) == n
  {
  }

  lemma Digits32(n: dword)
    ensures n / 0x1_000000 < 0x100
    ensures Be32(n / 0x1_000000, n / 0x1_0000 % 0x100, n / 0x100 % 0x100, n % 0x100) == n
  {
    var a, b := n / 0x100, n / 0x1_0000;
    assert n == a * 0x100 + n % 0x100;
    assert a / 0x100 == b && a == b * 0x100 + a % 0x100;
    assert b / 0x100 == n / 0x1_000000 && b == n / 0x1_000000 * 0x100 + b % 0x100;
  }

  lemma FlagBits(reserved: byte, err: bool, req: bool)
    requires reserved < 64
    ensures var f := reserved * 4 + Bit(err) * 2 + Bit(req);
      f < 0x100 && f % 2 == Bit(req) && f / 2 % 2 == Bit(err)
  {
    var f := reserved * 4 + Bit(err) * 2 + Bit(req);
    assert f / 2 == reserved * 2 + Bit(err);
  }

  lemma HeaderFields(m: Pdu, reserved: byte)
    requires reserved < 64
    ensures var h := Header(m, reserved);
      && |h| == HDR_SIZE && h[..4] == MAGIC && BodySize(h) == |m.body| % 0x1_0000
      && h[6] == m.code && h[7] % 2 == Bit(m.req) && h[7] / 2 % 2 == Bit(m.err)
      && Be32(h[8], h[9], h[10], h[11]) == m.param
  {
    var size := |m.body| % 0x1_0000;
    var h := Header(m, reserved);
    Digits16(size);
    Digits32(m.param);
    FlagBits(reserved, m.err, m.req);
    assert h[4] == size / 0x100 && h[5] == size % 0x100;
    assert h[7] == reserved * 4 + Bit(m.err) * 2 + Bit(m.req);
    assert h[8] == m.param / 0x1_000000 && h[9] == m.param / 0x1_0000 % 0x100;
    assert h[10] == m.param / 0x100 % 0x100 && h[11] == m.param % 0x100;
    assert h[..4] == MAGIC;
  }

  /** A good header and a body as long as it declares make a frame. */
  lemma FrameOf(h: seq<byte>, body: seq<byte>)
    requires |h| == HDR_SIZE && h[..4] == MAGIC && BodySize(h) == |body| <= MAX_BODY
    ensures var s := h + body;
      && HasFrame(s) && BodySize(s) == |body| && s[HDR_SIZE + BodySize(s)..] == []
      && Frame(s) == Pdu(h[6], h[7] % 2 == 1, h[7] / 2 % 2 == 1, Be32(h[8], h[9], h[10], h[11]), body)
  {
    var s := h + body;
    assert s[..4] == h[..4] && s[HDR_SIZE..] == body;
  }

  lemma EncodedFrame(m: Pdu, reserved: byte)
    requires reserved < 64 && |m.body| <= MAX_BODY
    ensures var s := Encode(m, reserved);
      && HasFrame(s) && BodySize(s) == |m.body| && s[HDR_SIZE + BodySize(s)..] == [] && Frame(s) == m
  {
    HeaderFields(m, reserved);
    FrameOf(Header(m, reserved), m.body);
  }

  /** A message whose body fits the frame comes out first, whatever follows it. */
  lemma RoundTripOne(m: Pdu, reserved: byte, rest: seq<byte>)
    requires reserved < 64 && |m.body| <= MAX_BODY
    ensures Parse(Encode(m, reserved) + rest) == Then([m], Parse(rest))
  {
    var s := Encode(m, reserved);
    EncodedFrame(m, reserved);
    FrameInFront(s, rest);
    assert s[HDR_SIZE + BodySize(s)..] + rest == rest;
  }

  /** A message whose body does not fit is not what comes out first, whatever follows it. */
  lemma TooLongNeverArrives(m: Pdu, reserved: byte, rest: seq<byte>)
    requires reserved < 64 && |m.body| > MAX_BODY
    ensures !([m] <= Parse(Encode(m, reserved) + rest).pdus)
  {
    var s := Encode(m, reserved) + rest;
    HeaderFields(m, reserved);
    assert s[..HDR_SIZE] == Header(m, reserved) && s[..4] == s[..HDR_SIZE][..4];
    assert BodySize(s) == |m.body| % 0x1_0000;
    if HasFrame(s) {
      assert Parse(s).pdus[0] == Frame(s) by {
        FrameInFront(s, []);
        assert s + [] == s;
      }
      assert Frame(s) != m by { assert |Frame(s).body| == BodySize(s); }
    }
  }

  /** So a message arrives if and only if its body fits the frame. */
  lemma ArrivesIff(m: Pdu, reserved: byte, rest: seq<byte>)
    requires reserved < 64
    ensures [m] <= Parse(Encode(m, reserved) + rest).pdus <==> |m.body| <= MAX_BODY
  {
    if |m.body| <= MAX_BODY {
      RoundTripOne(m, reserved, rest);
    } else {
      TooLongNeverArrives(m, reserved, rest);
    }
  }

  /** A message and the reserved bits that happened to be in the buffer. */
  datatype Sent = Sent(pdu: Pdu, reserved: byte)

  /** Messages that fit, with reserved bits that are six bits wide. */
  ghost predicate Fit(sent: seq<Sent>) {
    forall i | 0 <= i < |sent| :: sent[i].reserved < 64 && |sent[i].pdu.body| <= MAX_BODY
  }

  function Wire(sent: seq<Sent>): seq<byte>
    requires forall i | 0 <= i < |sent| :: sent[i].reserved < 64
  {
    if sent == [] then [] else Encode(sent[0].pdu, sent[0].reserved) + Wire(sent[1..])
  }

  function Messages(sent: seq<Sent>): seq<Pdu> {
    if sent == [] then [] else [sent[0].pdu] + Messages(sent[1..])
  }

  /** What comes before the messages that fit does not disturb what follows them. */
  lemma {:induction false} WireThen(sent: seq<Sent>, tail: seq<byte>)
    requires Fit(sent)
    ensures Parse(Wire(sent) + tail) == Then(Messages(sent), Parse(tail))
  {
    if sent == [] {
      assert Wire(sent) + tail == tail;
    } else {
      var m, more := sent[0], sent[1..];
      WireThen(more, tail);
      Associative(Encode(m.pdu, m.reserved), Wire(more), tail);
      RoundTripOne(m.pdu, m.reserved, Wire(more) + tail);
      ThenThen([m.pdu], Messages(more), Parse(tail));
    }
  }

  /** Any list of messages that fit, however it is cut on the way, arrives as it was sent. */
  lemma {:induction false} RoundTrip(sent: seq<Sent>, chunks: seq<seq<byte>>)
    requires Fit(sent)
    requires Concat(chunks) == Wire(sent)
    ensures FeedAll(chunks) == Parsed(Messages(sent), [], Open)
  {
    ChunkingDoesNotMatter(chunks);
    WireThen(sent, []);
    assert Wire(sent) + [] == Wire(sent);
  }

  // ---------------------------------------------------------------- arbitrary streams

  lemma FlagByte(f: byte)
    ensures f / 4 < 64 && f == f / 4 * 4 + Bit(f / 2 % 2 == 1) * 2 + Bit(f % 2 == 1)
  {
  }

  lemma Bytes16(a: byte, b: byte)
    ensures Be16(a, b) / 0x100 == a && Be16(a, b) % 0x100 == b
  {
  }

  lemma Bytes32(a: byte, b: byte, c: byte, d: byte)
    ensures var n := Be32(a, b, c, d);
      n / 0x1_000000 == a && n / 0x1_0000 % 0x100 == b && n / 0x100 % 0x100 == c && n % 0x100 == d
  {
    var n := Be32(a, b, c, d);
    assert n / 0x100 == a * 0x1_0000 + b * 0x100 + c;
    assert n / 0x1_0000 == a * 0x100 + b;
  }

  /** A header is what its own fields are written as. */
  lemma FieldsMakeHeader(h: seq<byte>)
    requires |h| == HDR_SIZE && h[..4] == MAGIC
    ensures h[7] / 4 < 64
    ensures HeaderBytes(BodySize(h), h[6], h[7] / 4, h[7] / 2 % 2 == 1, h[7] % 2 == 1,
                        Be32(h[8], h[9], h[10], h[11])) == h
  {
    Bytes16(h[4], h[5]);
    FlagByte(h[7]);
    Bytes32(h[8], h[9], h[10], h[11]);
    assert h == h[..4] + [h[4], h[5], h[6], h[7]] + [h[8], h[9], h[10], h[11]];
  }

  /** A complete frame is the encoding of the message it delivers. */
  lemma FrameIsEncoded(s: seq<byte>)
    requires HasFrame(s)
    ensures s[7] / 4 < 64 && s[..HDR_SIZE + BodySize(s)] == Encode(Frame(s), s[7] / 4)
  {
    var h, body := s[..HDR_SIZE], s[HDR_SIZE..HDR_SIZE + BodySize(s)];
    assert h[..4] == s[..4] && h[4] == s[4] && h[5] == s[5] && h[6] == s[6] && h[7] == s[7];
    assert h[8] == s[8] && h[9] == s[9] && h[10] == s[10] && h[11] == s[11];
    FieldsMakeHeader(h);
    SmallSize(|body|);
    assert Header(Frame(s), h[7] / 4) == h;
    assert s[..HDR_SIZE + BodySize(s)] == h + body;
  }

  lemma SmallSize(n: nat)
    requires n <= MAX_BODY
    ensures n % 0x1_0000 == n
  {
  }

  /** Every stream is some encoded messages that fit, which are delivered, and a tail without a frame. */
  lemma {:induction false} StreamIsWire(s: seq<byte>) returns (sent: seq<Sent>, tail: seq<byte>)
    ensures Fit(sent) && s == Wire(sent) + tail && !HasFrame(tail)
    ensures Parse(s).pdus == Messages(sent) && Parse(s).status == Parse(tail).status
  {
    if !HasFrame(s) {
      sent, tail := [], s;
    } else {
      var n := HDR_SIZE + BodySize(s);
      var m := Sent(Frame(s), s[7] / 4);
      var behind := s[n..];
      FrameIsEncoded(s);
      assert s == s[..n] + behind;
      RoundTripOne(m.pdu, m.reserved, behind);
      var more;
      more, tail := StreamIsWire(behind);
      sent := [m] + more;
      assert sent[1..] == more;
      Associative(s[..n], Wire(more), tail);
    }
  }

  /** A header that declares more than the frame holds, and more than that has arrived. */
  predicate Overlong(tail: seq<byte>) {
    |tail| > HDR_SIZE + MAX_BODY && tail[..4] == MAGIC && BodySize(tail) > MAX_BODY
  }

  predicate WrongMagic(tail: seq<byte>) { |tail| >= HDR_SIZE && tail[..4] != MAGIC }

  lemma TailStatus(tail: seq<byte>)
    requires !HasFrame(tail)
    ensures Parse(tail).status.Aborted? <==> Overlong(tail)
    ensures Parse(tail).status.Ended? <==> WrongMagic(tail)
  {
  }

  /** A frame in front is neither. */
  lemma NoFrame(tail: seq<byte>)
    requires Overlong(tail) || WrongMagic(tail)
    ensures !HasFrame(tail)
  {
  }

  lemma StatusBehind(sent: seq<Sent>, tail: seq<byte>)
    requires Fit(sent)
    ensures Overlong(tail) ==> Parse(Wire(sent) + tail).status.Aborted?
    ensures WrongMagic(tail) ==> Parse(Wire(sent) + tail).status.Ended?
  {
    WireThen(sent, tail);
    if Overlong(tail) || WrongMagic(tail) {
      NoFrame(tail);
      TailStatus(tail);
    }
  }

  /** A stream is aborted if and only if, after messages that fit, an overlong body has arrived. */
  lemma AbortsIff(s: seq<byte>)
    ensures Parse(s).status.Aborted?
       <==> exists sent, tail :: Fit(sent) && Overlong(tail) && s == Wire(sent) + tail
  {
    var sent, tail := StreamIsWire(s);
    TailStatus(tail);
    forall sent, tail | Fit(sent) && Overlong(tail) && s == Wire(sent) + tail ensures Parse(s).status.Aborted? {
      StatusBehind(sent, tail);
    }
  }

  /** A stream is given up if and only if, after messages that fit, a complete header has the wrong magic. */
  lemma EndsIff(s: seq<byte>)
    ensures Parse(s).status.Ended?
       <==> exists sent, tail :: Fit(sent) && WrongMagic(tail) && s == Wire(sent) + tail
  {
    var sent, tail := StreamIsWire(s);
    TailStatus(tail);
    forall sent, tail | Fit(sent) && WrongMagic(tail) && s == Wire(sent) + tail ensures Parse(s).status.Ended? {
      StatusBehind(sent, tail);
    }
  }

  // ---------------------------------------------------------------- interrupted sending

  lemma {:induction false} WireLast(sent: seq<Sent>, m: Sent)
    requires Fit(sent) && m.reserved < 64 && |m.pdu.body| <= MAX_BODY
    ensures Fit(sent + [m]) && Wire(sent + [m]) == Wire(sent) + Encode(m.pdu, m.reserved)
    ensures Messages(sent + [m]) == Messages(sent) + [m.pdu]
  {
    if sent == [] {
      assert sent + [m] == [m] && [m][1..] == [];
    } else {
      assert (sent + [m])[1..] == sent[1..] + [m];
      WireLast(sent[1..], m);
      Associative(Encode(sent[0].pdu, sent[0].reserved), Wire(sent[1..]), Encode(m.pdu, m.reserved));
    }
  }

  /** Part of a message that fits delivers nothing and closes nothing. */
  lemma PartIsOpen(m: Pdu, reserved: byte, n: nat)
    requires reserved < 64 && |m.body| <= MAX_BODY && n < |Encode(m, reserved)|
    ensures Parse(Encode(m, reserved)[..n]) == Parsed([], Encode(m, reserved)[..n], Open)
  {
    var s := Encode(m, reserved);
    EncodedFrame(m, reserved);
    if n >= HDR_SIZE {
      assert s[..n][..4] == s[..4] && s[..n][4] == s[4] && s[..n][5] == s[5];
    }
  }

  lemma PartBehind(sent: seq<Sent>, part: seq<byte>)
    requires Fit(sent) && Parse(part) == Parsed([], part, Open)
    ensures Parse(Wire(sent) + part) == Parsed(Messages(sent), part, Open)
  {
    WireThen(sent, part);
  }
}
