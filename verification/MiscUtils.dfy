/** The text scanners of jni/libdevmgr/comm/MiscUtils.cpp. A C string is the bytes before its NUL; a
    pointer into it is an index, up to and including the NUL. */
module MiscUtils {
  import opened Basics
  import opened Buffers

  const TAB: byte := 9
  const LF: byte := 10
  const CR: byte := 13

  /** The C string at the start of some memory. */
  function CStr(s: seq<byte>): (t: seq<byte>)
    ensures t <= s && 0 !in t && (|t| < |s| ==> s[|t|] == 0)
  {
    if s == [] || s[0] == 0 then [] else [s[0]] + CStr(s[1..])
  }

  lemma {:induction false} CStrEnds(t: seq<byte>, rest: seq<byte>)
    requires 0 !in t
    ensures CStr(t + [0] + rest) == t
  {
    if t == [] {
    } else {
      assert (t + [0] + rest)[1..] == t[1..] + [0] + rest;
      CStrEnds(t[1..], rest);
    }
  }

  lemma CStrSlot(s: seq<byte>, t: seq<byte>)
    requires 0 !in t && |t| < |s| && s[|t|] == 0 && forall i | 0 <= i < |t| :: s[i] == t[i]
    ensures CStr(s) == t
  {
    CStrEnds(t, s[|t| + 1..]);
    assert s == t + [0] + s[|t| + 1..];
  }

  /** The first index from `p` on whose byte is wanted, or the end of the string. */
  function Scan(t: seq<byte>, p: nat, wanted: byte -> bool): (q: nat)
    requires p <= |t|
    ensures p <= q <= |t|
    decreases |t| - p
  {
    if p == |t| || wanted(t[p]) then p else Scan(t, p + 1, wanted)
  }

  ghost predicate IsFirst(t: seq<byte>, p: nat, wanted: byte -> bool, q: nat) {
    p <= q <= |t| && (q < |t| ==> wanted(t[q])) && forall i | p <= i < q :: !wanted(t[i])
  }

  lemma {:induction false} ScanIs(t: seq<byte>, p: nat, wanted: byte -> bool, q: nat)
    requires p <= |t|
    ensures Scan(t, p, wanted) == q <==> IsFirst(t, p, wanted, q)
    decreases |t| - p
  {
    if p == |t| || wanted(t[p]) {
    } else {
      ScanIs(t, p + 1, wanted, q);
    }
  }

  predicate IsEol(b: byte) { b == CR || b == LF }

  predicate NotEol(b: byte) { !IsEol(b) }

  function Equals(d: byte): byte -> bool { (b: byte) => b == d }

  /** Where SkipCRLFs with fSkipChars ends up: behind the rest of the line and all line ends after it. */
  function NextLine(t: seq<byte>, p: nat): (q: nat)
    requires p <= |t|
    ensures p <= q <= |t|
  {
    Scan(t, Scan(t, p, IsEol), NotEol)
  }

  method SkipCRLFs(t: seq<byte>, p: nat, skipChars: bool) returns (moved: bool, q: nat)
    requires p <= |t|
    ensures q == if skipChars then NextLine(t, p) else Scan(t, p, NotEol)
    ensures moved <==> q != p
  {
    q := p;
    if skipChars {
      while q < |t| && t[q] != CR && t[q] != LF
        invariant p <= q <= |t| && forall i | p <= i < q :: !IsEol(t[i])
      {
        q := q + 1;
      }
      ScanIs(t, p, IsEol, q);
    }
    ghost var from := q;
    while q < |t| && (t[q] == CR || t[q] == LF)
      invariant from <= q <= |t| && forall i | from <= i < q :: IsEol(t[i])
    {
      q := q + 1;
    }
    ScanIs(t, from, NotEol, q);
    moved := q != p;
  }

  /** strstr from `p` on. */
  function StrStr(t: seq<byte>, p: nat, m: seq<byte>): (r: Option<nat>)
    requires p <= |t|
    ensures r.Some? ==> p <= r.value <= |t| && m <= t[r.value..]
    ensures m <= t[p..] ==> r == Some(p)
    decreases |t| - p
  {
    if m <= t[p..] then Some(p) else if p == |t| then None else StrStr(t, p + 1, m)
  }

  /** The search finds the match at the beginning exactly when the string begins with it. */
  function MatchStringBeginning(t: seq<byte>, p: nat, m: seq<byte>): (r: Option<nat>)
    requires p <= |t|
    ensures r == if m <= t[p..] then Some(p + |m|) else None
  {
    var temp := StrStr(t, p, m);
    if temp == Some(p) then Some(p + |m|) else None
  }

  /** The copying loop: `n` bytes and a NUL. */
  method CopyUntil(t: seq<byte>, p: nat, delimiter: byte, a: array<byte>, at: nat, cb: nat) returns (n: nat)
    requires p <= |t| && 0 !in t && 0 < cb && at + cb <= a.Length
    modifies a
    ensures n < cb && p + n <= |t| && forall i | p <= i < p + n :: t[i] != delimiter
    ensures p + n == |t| || t[p + n] == delimiter || n == cb - 1
    ensures CStr(a[at..at + cb]) == t[p..p + n]
    ensures forall i | 0 <= i < a.Length && !(at <= i < at + cb) :: a[i] == old(a[i])
  {
    n := 0;
    while p + n < |t| && t[p + n] != delimiter && n < cb - 1
      invariant n < cb && p + n <= |t| && forall i | p <= i < p + n :: t[i] != delimiter
      invariant forall i | at <= i < at + n :: a[i] == t[i - at + p]
      invariant forall i | 0 <= i < a.Length && !(at <= i < at + cb) :: a[i] == old(a[i])
    {
      a[at + n] := t[p + n];
      n := n + 1;
    }
    a[at + n] := 0;
    ghost var slot, copied := a[at..at + cb], t[p..p + n];
    assert forall i | 0 <= i < n :: slot[i] == copied[i];
    CStrSlot(slot, copied);
  }

  /** Copies up to the delimiter, as much as fits with its NUL, into `cb` bytes of the buffer at `at`. */
  method ParseUnquotedString(t: seq<byte>, p: nat, delimiter: byte, a: array<byte>, at: nat, cb: nat)
    returns (found: bool, q: nat)
    requires p <= |t| && 0 !in t && 0 < cb && at + cb <= a.Length
    modifies a
    ensures found <==> Scan(t, p, Equals(delimiter)) < |t|
    ensures q == if found then Scan(t, p, Equals(delimiter)) else p
    ensures var text, stored := t[p..Scan(t, p, Equals(delimiter))], CStr(a[at..at + cb]);
      stored <= text && |stored| == Min(|text|, cb - 1)
    ensures forall i | 0 <= i < a.Length && !(at <= i < at + cb) :: a[i] == old(a[i])
  {
    var n := CopyUntil(t, p, delimiter, a, at, cb);
    q := p + n;
    if q == |t| || t[q] != delimiter {
      q := StrChr(t, q, delimiter);
    }
    ScanIs(t, p + n, Equals(delimiter), q);
    ScanIs(t, p, Equals(delimiter), q);
    found := q < |t|;
    if !found {
      q := p;
    }
  }

  /** strchr, with the end of the string for NULL. */
  method StrChr(t: seq<byte>, p: nat, c: byte) returns (q: nat)
    requires p <= |t|
    ensures q == Scan(t, p, Equals(c))
  {
    q := p;
    while q < |t| && t[q] != c
      invariant p <= q <= |t| && forall i | p <= i < q :: !Equals(c)(t[i])
    {
      q := q + 1;
    }
    ScanIs(t, p, Equals(c), q);
  }

  /** As much from the front as fits. */
  function Cut(s: seq<byte>, n: nat): (t: seq<byte>)
    ensures t <= s && |t| == Min(|s|, n)
  {
    if |s| <= n then s else s[..n]
  }
}
