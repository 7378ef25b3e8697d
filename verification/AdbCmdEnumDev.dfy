/** The parser of `adb devices` in jni/libdevmgr/dev/AdbCmdEnumDev.cpp, writing its result in place. */
module AdbCmdEnumDev {
  import opened Basics
  import opened Buffers
  import opened MiscUtils
  import AdbCmd
  import PduStream

  const MAX_ADB_DEV_CNT := 128
  const HEAD_SIZE := 12                  // RET_COMM_HDR and dwDevNum
  const ERROR_SUCCESS: dword := 0
  const ERROR_NOT_SUPPORTED: dword := 50

  const DEVICE: seq<byte> := [100, 101, 118, 105, 99, 101]                       // "device"
  const TITLE: seq<byte> :=                                                      // "List of devices attached "
    [76, 105, 115, 116, 32, 111, 102, 32] + DEVICE + [115, 32, 97, 116, 116, 97, 99, 104, 101, 100, 32]

  // ---------------------------------------------------------------- what is parsed

  /** The ids found, and how many lines were read for them. */
  datatype Listing = Listing(ids: seq<seq<byte>>, lines: nat)

  /** A line's id as stored, whether it is a device, and where the next line starts. */
  datatype Parsed = NoLine | Line(id: seq<byte>, device: bool, next: nat)

  function ParseLine(t: seq<byte>, p: nat): (r: Parsed)
    requires p <= |t|
    ensures r.Line? ==> p < r.next <= |t| && |r.id| < MAX_DEV_ID_LEN
  {
    var tab := Scan(t, p, Equals(TAB));
    if tab == |t| then NoLine
    else
      var dev := DEVICE <= t[tab + 1..];
      Line(Cut(t[p..tab], MAX_DEV_ID_LEN - 1), dev, NextLine(t, if dev then tab + 1 + |DEVICE| else tab + 1))
  }

  function Next(n: nat, device: bool): nat { if device then n + 1 else n }

  /** Reading stops at a line without a tab, or with the 128th device. */
  function ParseLines(t: seq<byte>, p: nat, n: nat): Listing
    requires p <= |t|
    decreases |t| - p
  {
    var line := ParseLine(t, p);
    if n >= MAX_ADB_DEV_CNT || line.NoLine? then Listing([], 0)
    else
      var rest := ParseLines(t, line.next, Next(n, line.device));
      Listing(if line.device then [line.id] + rest.ids else rest.ids, rest.lines + 1)
  }

  /** The whole output; None where the title does not match. */
  function Parse(t: seq<byte>): Option<Listing> {
    var p := MatchStringBeginning(t, 0, TITLE);
    if p.None? then None else Some(ParseLines(t, NextLine(t, p.value), 0))
  }

  // ---------------------------------------------------------------- the method

  function Bytes32(n: dword): seq<byte> {
    [n % 0x100, n / 0x100 % 0x100, n / 0x1_0000 % 0x100, n / 0x1_000000]
  }

  lemma Bytes32Is(n: dword, s: seq<byte>, at: nat)
    requires at + 4 <= |s| && s[at..at + 4] == Bytes32(n)
    ensures Le32(s, at) == n
  {
    PduStream.Digits32(n);
    assert s[at] == s[at..at + 4][0] && s[at + 1] == s[at..at + 4][1];
    assert s[at + 2] == s[at..at + 4][2] && s[at + 3] == s[at..at + 4][3];
  }

  /** The id in slot `k`. */
  function Slot(s: seq<byte>, k: nat): seq<byte>
    requires HEAD_SIZE + MAX_DEV_ID_LEN * (k + 1) <= |s|
  {
    CStr(s[HEAD_SIZE + MAX_DEV_ID_LEN * k..HEAD_SIZE + MAX_DEV_ID_LEN * (k + 1)])
  }

  ghost predicate Holds(s: seq<byte>, ids: seq<seq<byte>>) {
    && HEAD_SIZE + MAX_DEV_ID_LEN * |ids| <= |s|
    && forall k | 0 <= k < |ids| :: Slot(s, k) == ids[k]
  }

  /** RET_ENUM_DEVICES, filled in; `lines` slots were reserved for the ids. */
  ghost predicate Result(s: seq<byte>, result: dword, ids: seq<seq<byte>>, lines: nat) {
    && |s| == HEAD_SIZE + MAX_DEV_ID_LEN * lines && Holds(s, ids)
    && Le32(s, 0) == |s| && Le32(s, 4) == result && Le32(s, 8) == |ids|
  }

  lemma SlotsBelow(s: seq<byte>, s': seq<byte>, ids: seq<seq<byte>>)
    requires |s| <= |s'| && Holds(s, ids)
    requires forall i | HEAD_SIZE <= i < HEAD_SIZE + MAX_DEV_ID_LEN * |ids| :: s'[i] == s[i]
    ensures Holds(s', ids)
  {
    forall k: nat | k < |ids| ensures Slot(s', k) == ids[k] {
      var lo, hi := HEAD_SIZE + MAX_DEV_ID_LEN * k, HEAD_SIZE + MAX_DEV_ID_LEN * (k + 1);
      assert s[lo..hi] == s'[lo..hi] && Slot(s, k) == ids[k];
    }
  }

  /** Everything up to the next line; the id goes into slot `n` whether or not the line counts. */
  method ReadLine(t: seq<byte>, p: nat, n: nat, a: array<byte>, ghost ids: seq<seq<byte>>) returns (line: Parsed)
    requires p <= |t| && 0 !in t && HEAD_SIZE + MAX_DEV_ID_LEN * (n + 1) <= a.Length
    requires n == |ids| && Holds(a[..], ids)
    modifies a
    ensures line == ParseLine(t, p) && Holds(a[..], ids)
    ensures line.Line? ==> Slot(a[..], n) == line.id
  {
    var found, q := ReadId(t, p, n, a, ids);
    if !found {
      return NoLine;
    }
    line := ParseRest(t, p, q);
  }

  method ReadId(t: seq<byte>, p: nat, n: nat, a: array<byte>, ghost ids: seq<seq<byte>>)
    returns (found: bool, tab: nat)
    requires p <= |t| && 0 !in t && HEAD_SIZE + MAX_DEV_ID_LEN * (n + 1) <= a.Length
    requires n == |ids| && Holds(a[..], ids)
    modifies a
    ensures found <==> Scan(t, p, Equals(TAB)) < |t|
    ensures found ==> tab == Scan(t, p, Equals(TAB))
    ensures Holds(a[..], ids)
    ensures Slot(a[..], n) == Cut(t[p..Scan(t, p, Equals(TAB))], MAX_DEV_ID_LEN - 1)
  {
    var at := HEAD_SIZE + MAX_DEV_ID_LEN * n;
    ghost var was := a[..];
    found, tab := ParseUnquotedString(t, p, TAB, a, at, MAX_DEV_ID_LEN);
    SlotsBelow(was, a[..], ids);
    assert a[..][at..at + MAX_DEV_ID_LEN] == a[at..at + MAX_DEV_ID_LEN];
    CutIs(t[p..Scan(t, p, Equals(TAB))], MAX_DEV_ID_LEN - 1, Slot(a[..], n));
  }

  lemma CutIs(s: seq<byte>, n: nat, t: seq<byte>)
    requires t <= s && |t| == Min(|s|, n)
    ensures t == Cut(s, n)
  {
  }

  method ParseRest(t: seq<byte>, p: nat, tab: nat) returns (line: Parsed)
    requires p <= tab < |t| && tab == Scan(t, p, Equals(TAB))
    ensures line == ParseLine(t, p)
  {
    var m := MatchStringBeginning(t, tab, [TAB]);
    ScanIs(t, p, Equals(TAB), tab);
    assert t[tab..][..1] == [TAB];
    var q := m.value;
    var dev := MatchStringBeginning(t, q, DEVICE);
    if dev.Some? {
      q := dev.value;
    }
    var _, next := SkipCRLFs(t, q, true);
    return Line(Cut(t[p..tab], MAX_DEV_ID_LEN - 1), dev.Some?, next);
  }

  /** What is left to read leads to the same listing as the whole. */
  ghost predicate LeadsTo(ids: seq<seq<byte>>, lines: nat, rest: Listing, all: Listing) {
    ids + rest.ids == all.ids && lines + rest.lines == all.lines
  }

  function With(ids: seq<seq<byte>>, line: Parsed): seq<seq<byte>>
    requires line.Line?
  {
    if line.device then ids + [line.id] else ids
  }

  lemma Appends(ids: seq<seq<byte>>, lines: nat, line: Parsed, rest: Listing, all: Listing)
    requires line.Line?
    requires LeadsTo(ids, lines, Listing(if line.device then [line.id] + rest.ids else rest.ids, rest.lines + 1), all)
    ensures LeadsTo(With(ids, line), lines + 1, rest, all)
  {
    assert ids + ([line.id] + rest.ids) == ids + [line.id] + rest.ids;
  }

  lemma ReadsOne(t: seq<byte>, p: nat, n: nat, line: Parsed, rest: Listing)
    requires p <= |t| && n < MAX_ADB_DEV_CNT && line == ParseLine(t, p) && line.Line?
    requires rest == ParseLines(t, line.next, Next(n, line.device))
    ensures ParseLines(t, p, n) == Listing(if line.device then [line.id] + rest.ids else rest.ids, rest.lines + 1)
  {
  }

  lemma HoldsMore(s: seq<byte>, ids: seq<seq<byte>>, line: Parsed)
    requires Holds(s, ids) && line.Line? && HEAD_SIZE + MAX_DEV_ID_LEN * (|ids| + 1) <= |s|
    requires Slot(s, |ids|) == line.id
    ensures Holds(s, With(ids, line))
  {
    var more := With(ids, line);
    forall k: nat | k < |more| ensures Slot(s, k) == more[k] {
      if k < |ids| {
        assert Slot(s, k) == ids[k];
      }
    }
  }

  ghost predicate Filled(res: BufferItem, ids: seq<seq<byte>>, lines: nat)
    reads res, res.head
  {
    && res.Valid() && res.head != null && res.HeadSize() == 0
    && res.tail == HEAD_SIZE + MAX_DEV_ID_LEN * lines && Holds(res.head[..], ids)
  }

  /** One round of the reading loop; `aborted` where the assertion in Put stops the program. */
  method ReadNext(t: seq<byte>, p: nat, n: nat, res: BufferItem, ghost ids: seq<seq<byte>>, ghost lines: nat)
    returns (line: Parsed, n': nat, aborted: bool)
    requires p <= |t| && 0 !in t && n == |ids| && Filled(res, ids, lines)
    requires HEAD_SIZE + MAX_DEV_ID_LEN * (n + 1) <= res.Room()
    modifies res`tail, res`dataLen, res.head
    ensures line == ParseLine(t, p)
    ensures line.NoLine? ==> Filled(res, ids, lines) && n' == n && !aborted
    ensures line.Line? ==> n' == Next(n, line.device) == |With(ids, line)|
    ensures line.Line? ==> (aborted <==> HEAD_SIZE + MAX_DEV_ID_LEN * (lines + 1) > res.Room())
    ensures line.Line? && !aborted ==> Filled(res, With(ids, line), lines + 1)
  {
    line := ReadLine(t, p, n, res.head, ids);
    n', aborted := n, false;
    if line.Line? {
      HoldsMore(res.head[..], ids, line);
      n' := Next(n, line.device);
      if res.TailSize() < MAX_DEV_ID_LEN {
        aborted := true;
        return;
      }
      var _ := res.Put(MAX_DEV_ID_LEN);
    }
  }

  /** The reading loop. */
  method ReadLines(t: seq<byte>, start: nat, res: BufferItem) returns (n: nat, aborted: bool)
    requires start <= |t| && 0 !in t && Filled(res, [], 0)
    requires res.Room() >= HEAD_SIZE + MAX_DEV_ID_LEN * MAX_ADB_DEV_CNT
    modifies res`tail, res`dataLen, res.head
    ensures aborted <==> ParseLines(t, start, 0).lines > (res.Room() - HEAD_SIZE) / MAX_DEV_ID_LEN
    ensures !aborted ==> var all := ParseLines(t, start, 0);
      n == |all.ids| <= all.lines && Filled(res, all.ids, all.lines)
  {
    ghost var all := ParseLines(t, start, 0);
    ghost var ids, lines, left := [], 0, all;
    var p := start;
    n, aborted := 0, false;
    while n < MAX_ADB_DEV_CNT
      invariant p <= |t| && n == |ids| <= MAX_ADB_DEV_CNT && n <= lines
      invariant Filled(res, ids, lines) && left == ParseLines(t, p, n) && LeadsTo(ids, lines, left, all)
      invariant !aborted
      decreases |t| - p
    {
      var line, n';
      line, n', aborted := ReadNext(t, p, n, res, ids, lines);
      if line.NoLine? {
        break;
      }
      ghost var rest := ParseLines(t, line.next, n');
      ReadsOne(t, p, n, line, rest);
      Appends(ids, lines, line, rest, all);
      if aborted {
        return;
      }
      ids, lines, left, p, n := With(ids, line), lines + 1, rest, line.next, n';
    }
    assert left == Listing([], 0);
  }

  /** A DWORD field of the header. */
  method StoreField(res: BufferItem, at: nat, n: dword, ghost ids: seq<seq<byte>>)
    requires res.Valid() && res.head != null && at + 4 <= HEAD_SIZE <= res.Room() && Holds(res.head[..], ids)
    modifies res.head
    ensures Le32(res.head[..], at) == n && Holds(res.head[..], ids)
    ensures forall i | 0 <= i < res.Room() && !(at <= i < at + 4) :: res.head[i] == old(res.head[i])
  {
    ghost var was := res.head[..];
    res.Store(at, Bytes32(n));
    ghost var now := res.head[..];
    assert now[at..at + 4] == Bytes32(n);
    Bytes32Is(n, now, at);
    SlotsBelow(was, now, ids);
  }

  /** The three header fields, in the order the method writes them last. */
  method Finish(res: BufferItem, n: nat, result: dword, ghost ids: seq<seq<byte>>, ghost lines: nat)
    requires res.Valid() && res.head != null && res.HeadSize() == 0
    requires res.tail == HEAD_SIZE + MAX_DEV_ID_LEN * lines < 0x1_0000_0000
    requires n == |ids| <= lines && Holds(res.head[..], ids)
    modifies res.head
    ensures res.Valid() && Result(res.Contents(), result, ids, lines)
  {
    StoreField(res, 8, n, ids);
    StoreField(res, 4, result, ids);
    StoreField(res, 0, res.DataSize(), ids);
    ghost var s := res.head[..];
    assert res.Contents() == s[..res.tail];
    SlotsBelow(s, s, ids);
    Shorter(s, res.tail, ids);
  }

  lemma Shorter(s: seq<byte>, n: nat, ids: seq<seq<byte>>)
    requires n <= |s| && Holds(s, ids) && HEAD_SIZE + MAX_DEV_ID_LEN * |ids| <= n
    ensures Holds(s[..n], ids)
  {
    forall k: nat | k < |ids| ensures Slot(s[..n], k) == ids[k] {
      var lo, hi := HEAD_SIZE + MAX_DEV_ID_LEN * k, HEAD_SIZE + MAX_DEV_ID_LEN * (k + 1);
      assert s[..n][lo..hi] == s[lo..hi] && Slot(s, k) == ids[k];
    }
  }

  /** The result is what the reference parser finds; the program stops, and only then, when more lines
      had to be read than there are slots. */
  method ProcessResult(t: seq<byte>, res: BufferItem) returns (aborted: bool)
    requires 0 !in t && res.Valid() && res.Room() <= HEAD_SIZE + MAX_DEV_ID_LEN * MAX_ADB_DEV_CNT
    modifies res, res.head
    ensures aborted <==> Parse(t).Some? && Parse(t).value.lines > MAX_ADB_DEV_CNT
    ensures !aborted && Parse(t).Some? ==>
      res.Valid() && Result(res.Contents(), ERROR_SUCCESS, Parse(t).value.ids, Parse(t).value.lines)
    ensures !aborted && Parse(t).None? ==> res.Valid() && Result(res.Contents(), ERROR_NOT_SUPPORTED, [], 0)
  {
    res.Alloc(HEAD_SIZE + MAX_DEV_ID_LEN * MAX_ADB_DEV_CNT);
    var _ := res.Put(HEAD_SIZE);
    var m := MatchStringBeginning(t, 0, TITLE);
    if m.None? {
      Finish(res, 0, ERROR_NOT_SUPPORTED, [], 0);
      return false;
    }
    var _, p := SkipCRLFs(t, m.value, true);
    var n;
    n, aborted := ReadLines(t, p, res);
    if aborted {
      return;
    }
    Finish(res, n, ERROR_SUCCESS, Parse(t).value.ids, Parse(t).value.lines);
  }

  // ---------------------------------------------------------------- printed listings

  /** A line as `adb devices` prints it. */
  datatype Entry = Entry(id: seq<byte>, state: seq<byte>, eol: seq<byte>)

  ghost predicate Plain(s: seq<byte>) { forall b | b in s :: b != 0 && !IsEol(b) }

  ghost predicate LineEnd(s: seq<byte>) { s != [] && forall b | b in s :: IsEol(b) }

  ghost predicate Printable(e: Entry) {
    Plain(e.id) && TAB !in e.id && Plain(e.state) && LineEnd(e.eol)
  }

  function PrintOne(e: Entry): seq<byte> { e.id + [TAB] + e.state + e.eol }

  function Print(es: seq<Entry>): seq<byte> {
    if es == [] then [] else PrintOne(es[0]) + Print(es[1..])
  }

  predicate IsDevice(e: Entry) { DEVICE <= e.state }

  /** The ids whose state begins with "device", in order, as far as they fit a slot. */
  function DeviceIds(es: seq<Entry>): seq<seq<byte>> {
    if es == [] then []
    else if IsDevice(es[0]) then [Cut(es[0].id, MAX_DEV_ID_LEN - 1)] + DeviceIds(es[1..])
    else DeviceIds(es[1..])
  }

  /** What the parser makes of the entries when `n` devices were found before. */
  function Expected(es: seq<Entry>, n: nat): Listing {
    if es == [] || n >= MAX_ADB_DEV_CNT then Listing([], 0)
    else
      var rest := Expected(es[1..], Next(n, IsDevice(es[0])));
      Listing(if IsDevice(es[0]) then [Cut(es[0].id, MAX_DEV_ID_LEN - 1)] + rest.ids else rest.ids, rest.lines + 1)
  }

  /** The entry stands in the text at `p`, and no line end follows it. */
  ghost predicate StandsAt(t: seq<byte>, p: nat, e: Entry) {
    && p + |PrintOne(e)| <= |t| && t[p..p + |PrintOne(e)|] == PrintOne(e)
    && (p + |PrintOne(e)| < |t| ==> !IsEol(t[p + |PrintOne(e)|]))
  }

  /** Where the parts of the entry are. */
  lemma PartsOf(t: seq<byte>, p: nat, e: Entry)
    requires StandsAt(t, p, e)
    ensures var tab := p + |e.id|;
      var stop := tab + 1 + |e.state|;
      && t[p..tab] == e.id && t[tab] == TAB && t[tab + 1..stop] == e.state && t[stop..stop + |e.eol|] == e.eol
      && |PrintOne(e)| == |e.id| + 1 + |e.state| + |e.eol|
  {
    var s := PrintOne(e);
    var tab := |e.id|;
    var stop := tab + 1 + |e.state|;
    assert s[..tab] == e.id && s[tab] == TAB && s[tab + 1..stop] == e.state && s[stop..] == e.eol;
    assert t[p..p + |s|][tab + 1..stop] == t[p + tab + 1..p + stop];
  }

  /** From `q` on, the part that stands at `from` has nothing `f` stops at, and what follows it has. */
  lemma PartEnds(t: seq<byte>, from: nat, part: seq<byte>, q: nat, f: byte -> bool)
    requires from + |part| <= |t| && t[from..from + |part|] == part && from <= q <= from + |part|
    requires (forall b | b in part :: !f(b)) && (from + |part| < |t| ==> f(t[from + |part|]))
    ensures Scan(t, q, f) == from + |part|
  {
    forall i | q <= i < from + |part| ensures !f(t[i]) {
      assert t[i] == t[from..from + |part|][i - from];
    }
    ScanIs(t, q, f, from + |part|);
  }

  lemma TabOf(t: seq<byte>, p: nat, e: Entry)
    requires Printable(e) && StandsAt(t, p, e)
    ensures Scan(t, p, Equals(TAB)) == p + |e.id|
  {
    PartsOf(t, p, e);
    PartEnds(t, p, e.id, p, Equals(TAB));
  }

  /** "device" is found behind the tab exactly if the state begins with it. */
  lemma StateDecides(t: seq<byte>, p: nat, e: Entry)
    requires Printable(e) && StandsAt(t, p, e)
    ensures DEVICE <= t[p + |e.id| + 1..] <==> IsDevice(e)
  {
    PartsOf(t, p, e);
    var from, k := p + |e.id| + 1, |e.state|;
    var s := t[from..];
    assert s[..k] == e.state;
    if k < |DEVICE| {
      assert s[k] == t[from + k..from + k + |e.eol|][0] == e.eol[0] && e.eol[0] in e.eol;
      assert s[k] != DEVICE[k];
    } else {
      assert s[..|DEVICE|] == e.state[..|DEVICE|];
    }
  }

  /** The next line starts right behind the entry, whether or not "device" was skipped over. */
  lemma EntryEnds(t: seq<byte>, p: nat, e: Entry, q: nat)
    requires Printable(e) && StandsAt(t, p, e) && 0 < q - p - |e.id| <= 1 + |e.state|
    ensures NextLine(t, q) == p + |PrintOne(e)|
  {
    PartsOf(t, p, e);
    var from := p + |e.id| + 1;
    var stop := from + |e.state|;
    assert Scan(t, q, IsEol) == stop by {
      assert t[stop] == t[stop..stop + |e.eol|][0] == e.eol[0] && e.eol[0] in e.eol;
      PartEnds(t, from, e.state, q, IsEol);
    }
    assert Scan(t, stop, NotEol) == stop + |e.eol| by {
      PartEnds(t, stop, e.eol, stop, NotEol);
    }
  }

  lemma LineIs(t: seq<byte>, p: nat, tab: nat, dev: bool, next: nat)
    requires p <= tab < |t| && tab == Scan(t, p, Equals(TAB)) && (dev <==> DEVICE <= t[tab + 1..])
    requires next == NextLine(t, if dev then tab + 1 + |DEVICE| else tab + 1)
    ensures ParseLine(t, p) == Line(Cut(t[p..tab], MAX_DEV_ID_LEN - 1), dev, next)
  {
  }

  lemma ParsesEntry(t: seq<byte>, p: nat, e: Entry)
    requires Printable(e) && StandsAt(t, p, e)
    ensures ParseLine(t, p) == Line(Cut(e.id, MAX_DEV_ID_LEN - 1), IsDevice(e), p + |PrintOne(e)|)
  {
    var tab := p + |e.id|;
    PartsOf(t, p, e);
    TabOf(t, p, e);
    StateDecides(t, p, e);
    EntryEnds(t, p, e, if IsDevice(e) then tab + 1 + |DEVICE| else tab + 1);
    LineIs(t, p, tab, IsDevice(e), p + |PrintOne(e)|);
  }

  lemma NoEolFirst(es: seq<Entry>)
    requires forall e | e in es :: Printable(e)
    ensures Print(es) != [] ==> !IsEol(Print(es)[0])
  {
    if es != [] {
      var e := es[0];
      assert Printable(e);
      assert Print(es)[0] == if e.id == [] then TAB else e.id[0];
      assert e.id != [] ==> e.id[0] in e.id;
    }
  }

  lemma FirstStands(t: seq<byte>, p: nat, es: seq<Entry>)
    requires p <= |t| && t[p..] == Print(es) && es != [] && forall e | e in es :: Printable(e)
    ensures var next := p + |PrintOne(es[0])|; next <= |t| && t[next..] == Print(es[1..])
    ensures StandsAt(t, p, es[0]) && Printable(es[0])
  {
    var one, rest := PrintOne(es[0]), Print(es[1..]);
    assert t[p..] == one + rest;
    assert t[p..p + |one|] == t[p..][..|one|] == one && t[p + |one|..] == t[p..][|one|..] == rest;
    NoEolFirst(es[1..]);
  }

  lemma {:induction false} ParsesEntries(t: seq<byte>, p: nat, es: seq<Entry>, n: nat)
    requires p <= |t| && t[p..] == Print(es) && forall e | e in es :: Printable(e)
    ensures ParseLines(t, p, n) == Expected(es, n)
    decreases |es|
  {
    if es == [] || n >= MAX_ADB_DEV_CNT {
    } else {
      var line := ParseLine(t, p);
      assert line.Line? && line.id == Cut(es[0].id, MAX_DEV_ID_LEN - 1) && (line.device <==> IsDevice(es[0]))
             && line.next <= |t| && t[line.next..] == Print(es[1..]) by {
        FirstStands(t, p, es);
        ParsesEntry(t, p, es[0]);
      }
      var rest := ParseLines(t, line.next, Next(n, line.device));
      ReadsOne(t, p, n, line, rest);
      ParsesEntries(t, line.next, es[1..], Next(n, line.device));
    }
  }

  /** The whole output of the command: the title line, then the entries. */
  function Output(trailer: seq<byte>, eol: seq<byte>, es: seq<Entry>): seq<byte> {
    TITLE + trailer + eol + Print(es)
  }

  lemma ParsesOutput(trailer: seq<byte>, eol: seq<byte>, es: seq<Entry>)
    requires Plain(trailer) && LineEnd(eol) && forall e | e in es :: Printable(e)
    ensures Parse(Output(trailer, eol, es)) == Some(Expected(es, 0))
  {
    var pre := TITLE + trailer + eol;
    var t := Output(trailer, eol, es);
    assert t == pre + Print(es) && t[..|TITLE|] == TITLE;
    var stop := |TITLE| + |trailer|;
    assert forall i | |TITLE| <= i < stop :: t[i] == trailer[i - |TITLE|];
    assert forall i | stop <= i < |pre| :: t[i] == eol[i - stop];
    ScanIs(t, |TITLE|, IsEol, stop);
    NoEolFirst(es);
    ScanIs(t, stop, NotEol, |pre|);
    assert t[|pre|..] == Print(es);
    ParsesEntries(t, |pre|, es, 0);
  }

  // ---------------------------------------------------------------- how far the parser reads

  ghost predicate AllDevices(es: seq<Entry>, k: nat) {
    k <= |es| && forall i | 0 <= i < k :: IsDevice(es[i])
  }

  lemma {:induction false} ReadsAllOrEnough(es: seq<Entry>, n: nat)
    requires n <= MAX_ADB_DEV_CNT
    ensures Expected(es, n).lines <= |es|
    ensures Expected(es, n).lines == |es| || Expected(es, n).lines >= MAX_ADB_DEV_CNT - n
    ensures Expected(es, n).lines < MAX_ADB_DEV_CNT - n ==> Expected(es, n).ids == DeviceIds(es)
  {
    if es == [] || n >= MAX_ADB_DEV_CNT {
    } else {
      ReadsAllOrEnough(es[1..], Next(n, IsDevice(es[0])));
    }
  }

  lemma {:induction false} FitsIff(es: seq<Entry>, n: nat)
    requires n <= MAX_ADB_DEV_CNT
    ensures var k := MAX_ADB_DEV_CNT - n;
      Expected(es, n).lines <= k <==> |es| <= k || AllDevices(es, k)
  {
    var k := MAX_ADB_DEV_CNT - n;
    if es == [] || n >= MAX_ADB_DEV_CNT {
    } else {
      var rest := es[1..];
      if IsDevice(es[0]) {
        FitsIff(rest, n + 1);
        assert AllDevices(es, k) <==> AllDevices(rest, k - 1) by {
          assert forall i | 0 <= i < |rest| :: rest[i] == es[i + 1];
        }
      } else {
        ReadsAllOrEnough(rest, n);
      }
    }
  }

  lemma {:induction false} IdsOfShort(es: seq<Entry>, n: nat)
    requires n + |es| <= MAX_ADB_DEV_CNT
    ensures Expected(es, n) == Listing(DeviceIds(es), |es|)
  {
    if es == [] {
    } else {
      IdsOfShort(es[1..], Next(n, IsDevice(es[0])));
    }
  }

  /** Any listing of at most 128 lines: exactly the devices, in order, and room for every slot. */
  lemma {:induction false} ParseOfPrinted(t: seq<byte>, trailer: seq<byte>, eol: seq<byte>, es: seq<Entry>)
    requires Plain(trailer) && LineEnd(eol) && forall e | e in es :: Printable(e)
    requires t == Output(trailer, eol, es) && |es| <= MAX_ADB_DEV_CNT
    ensures Parse(t) == Some(Listing(DeviceIds(es), |es|))
  {
    ParsesOutput(trailer, eol, es);
    IdsOfShort(es, 0);
  }

  /** Listings of any length: the slots suffice if and only if there are at most 128 lines, or the first
      128 are all devices, so that reading stops there. */
  lemma {:induction false} SlotsSufficeIff(t: seq<byte>, trailer: seq<byte>, eol: seq<byte>, es: seq<Entry>)
    requires Plain(trailer) && LineEnd(eol) && forall e | e in es :: Printable(e)
    requires t == Output(trailer, eol, es)
    ensures Parse(t).Some?
    ensures Parse(t).value.lines <= MAX_ADB_DEV_CNT <==> |es| <= MAX_ADB_DEV_CNT || AllDevices(es, MAX_ADB_DEV_CNT)
  {
    ParsesOutput(trailer, eol, es);
    FitsIff(es, 0);
  }

  /** For any text at all, printed or not: never more than 128 ids, none longer than its slot. */
  lemma {:induction false} CountIsBounded(t: seq<byte>, p: nat, n: nat)
    requires p <= |t| && n <= MAX_ADB_DEV_CNT
    ensures var r := ParseLines(t, p, n);
      n + |r.ids| <= MAX_ADB_DEV_CNT && |r.ids| <= r.lines && forall id | id in r.ids :: |id| < MAX_DEV_ID_LEN
    decreases |t| - p
  {
    var line := ParseLine(t, p);
    if n >= MAX_ADB_DEV_CNT || line.NoLine? {
    } else {
      CountIsBounded(t, line.next, Next(n, line.device));
    }
  }

  // ---------------------------------------------------------------- which ids are found

  /** `at` picks out, in order, exactly the elements from `p` on that satisfy `f`. */
  ghost predicate Picks<T>(es: seq<T>, p: nat, f: T -> bool, at: seq<nat>) {
    && (forall k | 0 <= k < |at| :: p <= at[k] < |es| && f(es[at[k]]))
    && (forall k, l | 0 <= k < l < |at| :: at[k] < at[l])
    && forall i: nat | p <= i < |es| && f(es[i]) :: i in at
  }

  /** The lines whose state begins with "device". */
  ghost predicate PicksDevices(es: seq<Entry>, at: seq<nat>) {
    Picks(es, 0, (e: Entry) => DEVICE <= e.state, at)
  }

  /** Their ids, whole if they have at most 63 bytes. */
  ghost predicate AreIds(ids: seq<seq<byte>>, es: seq<Entry>, at: seq<nat>)
    requires forall k | 0 <= k < |at| :: at[k] < |es|
  {
    |ids| == |at| && forall k | 0 <= k < |at| :: IsId(ids[k], es[at[k]])
  }

  ghost predicate IsId(id: seq<byte>, e: Entry) { id <= e.id && |id| == Min(|e.id|, 63) }

  lemma PicksMore<T>(es: seq<T>, p: nat, f: T -> bool, behind: seq<nat>)
    requires p < |es| && Picks(es, p + 1, f, behind)
    ensures Picks(es, p, f, if f(es[p]) then [p] + behind else behind)
  {
    if f(es[p]) {
      var at := [p] + behind;
      assert forall k | 0 < k < |at| :: at[k] == behind[k - 1];
      assert at[0] == p;
      forall i: nat | p <= i < |es| && f(es[i]) ensures i in at {
        assert i > p ==> i in behind;
      }
    } else {
      forall i: nat | p <= i < |es| && f(es[i]) ensures i in behind { assert p + 1 <= i; }
    }
  }

  /** One more line in front. */
  lemma AreMore(ids: seq<seq<byte>>, es: seq<Entry>, p: nat, behind: seq<nat>)
    requires p < |es| && (forall k | 0 <= k < |behind| :: behind[k] < |es|) && AreIds(ids, es, behind)
    ensures AreIds([Cut(es[p].id, MAX_DEV_ID_LEN - 1)] + ids, es, [p] + behind)
  {
  }

  lemma {:induction false} DevicesAre(es: seq<Entry>, p: nat, f: Entry -> bool) returns (at: seq<nat>)
    requires p <= |es| && forall e :: f(e) <==> IsDevice(e)
    ensures Picks(es, p, f, at) && AreIds(DeviceIds(es[p..]), es, at)
    decreases |es| - p
  {
    if p == |es| {
      at := [];
    } else {
      var behind := DevicesAre(es, p + 1, f);
      PicksMore(es, p, f, behind);
      AreMore(DeviceIds(es[p + 1..]), es, p, behind);
      assert es[p..][0] == es[p] && es[p..][1..] == es[p + 1..];
      at := if f(es[p]) then [p] + behind else behind;
    }
  }

  lemma {:induction false} IdsOfLong(es: seq<Entry>, n: nat)
    requires n <= MAX_ADB_DEV_CNT && AllDevices(es, MAX_ADB_DEV_CNT - n)
    ensures var k := MAX_ADB_DEV_CNT - n; Expected(es, n) == Listing(DeviceIds(es[..k]), k)
    decreases |es|
  {
    var k := MAX_ADB_DEV_CNT - n;
    if k > 0 {
      assert AllDevices(es[1..], k - 1) by {
        assert forall i | 0 <= i < k - 1 :: es[1..][i] == es[i + 1];
      }
      IdsOfLong(es[1..], n + 1);
      assert es[..k][1..] == es[1..][..k - 1];
    }
  }

  /** The lines that are read where the slots suffice. */
  function Read(es: seq<Entry>): seq<Entry> { es[..Min(|es|, MAX_ADB_DEV_CNT)] }

  /** Wherever the slots suffice: the ids found are, in order, the ids of exactly those lines read whose state
      begins with "device", as printed if they have at most 63 bytes and their first 63 bytes otherwise. */
  lemma ListsTheDevices(t: seq<byte>, trailer: seq<byte>, eol: seq<byte>, es: seq<Entry>) returns (at: seq<nat>)
    requires Plain(trailer) && LineEnd(eol) && forall e | e in es :: Printable(e)
    requires t == Output(trailer, eol, es) && (|es| <= MAX_ADB_DEV_CNT || AllDevices(es, MAX_ADB_DEV_CNT))
    ensures Parse(t).Some? && Parse(t).value.lines == |Read(es)|
    ensures PicksDevices(Read(es), at) && AreIds(Parse(t).value.ids, Read(es), at)
  {
    ParsesOutput(trailer, eol, es);
    at := DevicesAre(Read(es), 0, (e: Entry) => DEVICE <= e.state);
    assert Read(es)[0..] == Read(es);
    if |es| <= MAX_ADB_DEV_CNT {
      IdsOfShort(es, 0);
      assert Read(es) == es;
    } else {
      IdsOfLong(es, 0);
    }
  }

  /** From the child's output to the result: collecting and parsing leave count and ids in the buffer. */
  method EnumDevices(output: Buffers.BufferItem, res: Buffers.BufferItem, chunks: seq<seq<byte>>,
                     ghost trailer: seq<byte>, ghost eol: seq<byte>, ghost es: seq<Entry>)
    returns (ghost at: seq<nat>)
    requires output.Valid() && forall i | 0 <= i < |chunks| :: 1 <= |chunks[i]| < AdbCmd.BUF_SIZE
    requires output != res && (output.head == null || output.head != res.head)
    requires res.Valid() && res.Room() <= HEAD_SIZE + MAX_DEV_ID_LEN * MAX_ADB_DEV_CNT
    requires Plain(trailer) && LineEnd(eol) && forall e | e in es :: Printable(e)
    requires Concat(chunks) == Output(trailer, eol, es)
    requires |es| <= MAX_ADB_DEV_CNT || AllDevices(es, MAX_ADB_DEV_CNT)
    modifies output, output.head, res, res.head
    ensures res.Valid() && PicksDevices(Read(es), at)
    ensures var s := res.Contents();
      && |s| == HEAD_SIZE + MAX_DEV_ID_LEN * |Read(es)| && |at| <= |Read(es)|
      && Le32(s, 0) == |s| && Le32(s, 4) == ERROR_SUCCESS && Le32(s, 8) == |at|
      && forall k | 0 <= k < |at| :: IsId(Slot(s, k), Read(es)[at[k]])
  {
    assert chunks != [] by { assert |Output(trailer, eol, es)| > 0; }
    AdbCmd.ProcessChildOutput(output, chunks);
    var t := CStr(output.head[..]);
    OutputIsPlain(trailer, eol, es);
    at := ListsTheDevices(t, trailer, eol, es);
    CountIsBounded(t, NextLine(t, |TITLE|), 0);
    var aborted := ProcessResult(t, res);
    assert !aborted;
  }

  // ---------------------------------------------------------------- a silent run after a listing

  lemma {:induction false} CStrWhole(t: seq<byte>)
    requires 0 !in t
    ensures CStr(t) == t
  {
    if t == [] {
    } else {
      CStrWhole(t[1..]);
    }
  }

  lemma {:induction false} PrintHasNoNul(es: seq<Entry>)
    requires forall e | e in es :: Printable(e)
    ensures 0 !in Print(es)
  {
    if es == [] {
    } else {
      assert Printable(es[0]);
      PrintHasNoNul(es[1..]);
    }
  }

  lemma OutputIsPlain(trailer: seq<byte>, eol: seq<byte>, es: seq<Entry>)
    requires Plain(trailer) && LineEnd(eol) && forall e | e in es :: Printable(e)
    ensures CStr(Output(trailer, eol, es)) == Output(trailer, eol, es)
  {
    PrintHasNoNul(es);
    CStrWhole(Output(trailer, eol, es));
  }

  /** A command that prints nothing has no title, so its own output would be refused. */
  lemma NothingIsRefused()
    ensures Parse(CStr(Concat<byte>([]))) == None
  {
  }

  /** After a listing and a run that prints nothing, the parser sees the listing again. */
  lemma {:induction false} SilentRunRepeats(before: seq<byte>, chunks: seq<seq<byte>>,
                                            trailer: seq<byte>, eol: seq<byte>, es: seq<Entry>)
    requires Plain(trailer) && LineEnd(eol) && (forall e | e in es :: Printable(e)) && |es| <= MAX_ADB_DEV_CNT
    requires Concat(chunks) == Output(trailer, eol, es)
    ensures Parse(AdbCmd.Seen(AdbCmd.Seen(before, chunks), [])) == Some(Listing(DeviceIds(es), |es|))
    ensures Parse(CStr(Concat<byte>([]))) == None
  {
    OutputIsPlain(trailer, eol, es);
    ParseOfPrinted(Concat(chunks), trailer, eol, es);
    NothingIsRefused();
    assert chunks != [] by { assert |Output(trailer, eol, es)| > 0; }
  }

  /** The same for the method itself, run twice on one buffer. */
  method CollectTwice(output: Buffers.BufferItem, chunks: seq<seq<byte>>,
                      ghost trailer: seq<byte>, ghost eol: seq<byte>, ghost es: seq<Entry>)
    requires output.Valid() && forall i | 0 <= i < |chunks| :: 1 <= |chunks[i]| < AdbCmd.BUF_SIZE
    requires Plain(trailer) && LineEnd(eol) && (forall e | e in es :: Printable(e)) && |es| <= MAX_ADB_DEV_CNT
    requires Concat(chunks) == Output(trailer, eol, es)
    modifies output, output.head
    ensures output.Valid() && output.head != null
    ensures Parse(CStr(output.head[..])) == Some(Listing(DeviceIds(es), |es|))
  {
    SilentRunRepeats([], chunks, trailer, eol, es);
    assert chunks != [] by { assert |Output(trailer, eol, es)| > 0; }
    AdbCmd.ProcessChildOutput(output, chunks);
    AdbCmd.ProcessChildOutput(output, []);
  }

  /** One such input: one device, "A", listed; then silence. */
  lemma SilentRunRepeatsListing() returns (listing: seq<byte>, chunks: seq<seq<byte>>)
    ensures chunks == [] && AdbCmd.Seen(listing, chunks) != CStr(Concat(chunks))
    ensures Parse(AdbCmd.Seen(listing, chunks)) == Some(Listing([[65]], 1)) && Parse(CStr(Concat(chunks))) == None
  {
    var e := Entry([65], DEVICE, [LF]);
    listing, chunks := Output([], [LF], [e]), [];
    assert Printable(e);
    ParseOfPrinted(listing, [], [LF], [e]);
    assert DeviceIds([e][1..]) == [] && DeviceIds([e]) == [[65]];
    NothingIsRefused();
  }
}
