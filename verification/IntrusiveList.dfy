/** The circular doubly linked list of jni/include/list.h on the heap, refined to sequences, and the
    delete-while-iterating loop of jni/src/server.c. */
module IntrusiveList {
  import opened Basics

  class ListHead {
    var next: ListHead?        // null stands for the poison values
    var prev: ListHead?
    var freed: bool            // whether `free` was called on the entry around the node

    /** INIT_LIST_HEAD */
    constructor ()
      ensures Ring(this, []) && !freed
    {
      next, prev, freed := this, this, false;
    }
  }

  ghost function Nodes(head: ListHead, s: seq<ListHead>): set<ListHead> {
    {head} + set i | 0 <= i < |s| :: s[i]
  }

  /** The k-th node on the way around: the head, the entries, the head again. */
  ghost function Around(head: ListHead, s: seq<ListHead>, k: nat): ListHead {
    if 1 <= k <= |s| then s[k - 1] else head
  }

  ghost predicate LinkedAt(head: ListHead, s: seq<ListHead>, k: nat)
    reads Around(head, s, k)`next, Around(head, s, k + 1)`prev
  {
    Around(head, s, k).next == Around(head, s, k + 1) && Around(head, s, k + 1).prev == Around(head, s, k)
  }

  /** `head` heads a ring whose entries are `s`, in order, linked in both directions all the way around. */
  ghost predicate Ring(head: ListHead, s: seq<ListHead>)
    reads Nodes(head, s)`next, Nodes(head, s)`prev
  {
    head !in s && NoDup(s) && forall k: nat | k <= |s| :: LinkedAt(head, s, k)
  }

  ghost predicate Apart(h: ListHead, s: seq<ListHead>, g: ListHead, t: seq<ListHead>) {
    Nodes(h, s) !! Nodes(g, t)
  }

  // ---------------------------------------------------------------- facts about rings

  /** The pointers determine the sequence. */
  lemma {:induction false} RingIsFunctional(head: ListHead, s: seq<ListHead>, t: seq<ListHead>)
    requires Ring(head, s) && Ring(head, t)
    ensures s == t
  {
    SamePrefix(head, s, t, if |s| < |t| then |s| else |t|);
  }

  lemma {:induction false} SamePrefix(head: ListHead, s: seq<ListHead>, t: seq<ListHead>, n: nat)
    requires Ring(head, s) && Ring(head, t) && n <= |s| && n <= |t|
    ensures s[..n] == t[..n]
    ensures n == |s| <==> n == |t|
  {
    if n == 0 {
    } else {
      SamePrefix(head, s, t, n - 1);
      assert LinkedAt(head, s, n - 1) && LinkedAt(head, t, n - 1);
    }
    assert LinkedAt(head, s, n) && LinkedAt(head, t, n);
  }

  /** next and prev undo each other on every node of a ring, which they never leave. */
  lemma NextAndPrevAreInverse(head: ListHead, s: seq<ListHead>, n: ListHead)
    requires Ring(head, s) && n in Nodes(head, s)
    ensures n.next != null && n.prev != null && n.next in Nodes(head, s) && n.prev in Nodes(head, s)
    ensures n.next.prev == n && n.prev.next == n
  {
    var k: nat := if n == head then 0 else var i :| 0 <= i < |s| && s[i] == n; i + 1;
    assert LinkedAt(head, s, k) && LinkedAt(head, s, if k == 0 then |s| else k - 1);
  }

  // ---------------------------------------------------------------- insertion

  /** __list_add between the i-th node and its successor. */
  method AddBetween(entry: ListHead, prev: ListHead, next: ListHead,
                    ghost head: ListHead, ghost s: seq<ListHead>, ghost i: nat)
    requires Ring(head, s) && entry !in Nodes(head, s) && i <= |s|
    requires prev == Around(head, s, i) && next == Around(head, s, i + 1)
    modifies entry`next, entry`prev, prev`next, next`prev
    ensures Ring(head, s[..i] + [entry] + s[i..])
  {
    next.prev := entry;
    entry.next := next;
    entry.prev := prev;
    prev.next := entry;
    ghost var r := s[..i] + [entry] + s[i..];
    forall k: nat | k <= |r| ensures LinkedAt(head, r, k) {
      assert old(LinkedAt(head, s, if k <= i then k else k - 1));
    }
  }

  method Add(entry: ListHead, head: ListHead, ghost s: seq<ListHead>)
    requires Ring(head, s) && entry !in Nodes(head, s)
    modifies entry`next, entry`prev, Nodes(head, s)`next, Nodes(head, s)`prev
    ensures Ring(head, [entry] + s)
  {
    assert LinkedAt(head, s, 0);
    AddBetween(entry, head, head.next, head, s, 0);
    assert s[..0] + [entry] + s[0..] == [entry] + s;
  }

  method AddTail(entry: ListHead, head: ListHead, ghost s: seq<ListHead>)
    requires Ring(head, s) && entry !in Nodes(head, s)
    modifies entry`next, entry`prev, Nodes(head, s)`next, Nodes(head, s)`prev
    ensures Ring(head, s + [entry])
  {
    assert LinkedAt(head, s, |s|);
    AddBetween(entry, head.prev, head, head, s, |s|);
    assert s[..|s|] + [entry] + s[|s|..] == s + [entry];
  }

  // ---------------------------------------------------------------- removal

  /** __list_del of the i-th entry; the entry's own fields are left as they were. */
  method Unlink(prev: ListHead, next: ListHead, ghost head: ListHead, ghost s: seq<ListHead>, ghost i: nat)
    requires Ring(head, s) && i < |s| && prev == Around(head, s, i) && next == Around(head, s, i + 2)
    modifies prev`next, next`prev
    ensures Ring(head, Without(s, i))
  {
    next.prev := prev;
    prev.next := next;
    ghost var r := Without(s, i);
    forall k: nat | k <= |r| ensures LinkedAt(head, r, k) {
      assert old(LinkedAt(head, s, if k < i then k else k + 1));
    }
  }

  ghost predicate At(x: ListHead, s: seq<ListHead>, i: nat) { i < |s| && s[i] == x }

  lemma Neighbours(x: ListHead, head: ListHead, s: seq<ListHead>, i: nat)
    requires Ring(head, s) && At(x, s, i)
    ensures x.prev == Around(head, s, i) && x.next == Around(head, s, i + 2)
  {
    assert LinkedAt(head, s, i) && LinkedAt(head, s, i + 1);
  }

  /** list_del */
  method Del(x: ListHead, ghost head: ListHead, ghost s: seq<ListHead>, ghost i: nat)
    requires Ring(head, s) && At(x, s, i)
    modifies Nodes(head, s)`next, Nodes(head, s)`prev
    ensures Ring(head, Without(s, i)) && x.next == null && x.prev == null
  {
    Neighbours(x, head, s, i);
    Unlink(x.prev, x.next, head, s, i);
    x.next, x.prev := null, null;
  }

  /** list_del_init: the entry becomes an empty ring of its own. */
  method DelInit(x: ListHead, ghost head: ListHead, ghost s: seq<ListHead>, ghost i: nat)
    requires Ring(head, s) && At(x, s, i)
    modifies Nodes(head, s)`next, Nodes(head, s)`prev
    ensures Ring(head, Without(s, i)) && Ring(x, [])
  {
    Neighbours(x, head, s, i);
    Unlink(x.prev, x.next, head, s, i);
    x.next, x.prev := x, x;
  }

  // ---------------------------------------------------------------- moving between or within rings

  ghost predicate Target(head: ListHead, t: seq<ListHead>, from: ListHead, s: seq<ListHead>)
    reads Nodes(head, t)`next, Nodes(head, t)`prev
  {
    if head == from then t == s else Ring(head, t) && Apart(head, t, from, s)
  }

  /** An entry that was taken out is outside both rings. */
  lemma OutOfRing(x: ListHead, from: ListHead, s: seq<ListHead>, i: nat)
    requires Ring(from, s) && At(x, s, i)
    ensures x !in Nodes(from, Without(s, i)) && x in Nodes(from, s)
    ensures Nodes(from, Without(s, i)) <= Nodes(from, s)
  {
  }

  /** list_move */
  method Move(x: ListHead, head: ListHead, ghost from: ListHead, ghost s: seq<ListHead>, ghost i: nat,
              ghost t: seq<ListHead>)
    requires Ring(from, s) && At(x, s, i) && Target(head, t, from, s)
    modifies Nodes(from, s)`next, Nodes(from, s)`prev, Nodes(head, t)`next, Nodes(head, t)`prev
    ensures head == from ==> Ring(head, [x] + Without(s, i))
    ensures head != from ==> Ring(from, Without(s, i)) && Ring(head, [x] + t)
  {
    OutOfRing(x, from, s, i);
    Neighbours(x, from, s, i);
    Unlink(x.prev, x.next, from, s, i);
    Add(x, head, if head == from then Without(s, i) else t);
  }

  /** list_move_tail */
  method MoveTail(x: ListHead, head: ListHead, ghost from: ListHead, ghost s: seq<ListHead>, ghost i: nat,
                  ghost t: seq<ListHead>)
    requires Ring(from, s) && At(x, s, i) && Target(head, t, from, s)
    modifies Nodes(from, s)`next, Nodes(from, s)`prev, Nodes(head, t)`next, Nodes(head, t)`prev
    ensures head == from ==> Ring(head, Without(s, i) + [x])
    ensures head != from ==> Ring(from, Without(s, i)) && Ring(head, t + [x])
  {
    OutOfRing(x, from, s, i);
    Neighbours(x, from, s, i);
    Unlink(x.prev, x.next, from, s, i);
    AddTail(x, head, if head == from then Without(s, i) else t);
  }

  // ---------------------------------------------------------------- joining rings

  /** list_empty */
  method Empty(head: ListHead, ghost s: seq<ListHead>) returns (b: bool)
    requires Ring(head, s)
    ensures b <==> s == []
  {
    assert LinkedAt(head, s, 0);
    b := head.next == head;
  }

  /** __list_splice */
  method SpliceNonEmpty(list: ListHead, head: ListHead, ghost s: seq<ListHead>, ghost t: seq<ListHead>)
    requires Ring(list, s) && Ring(head, t) && Apart(list, s, head, t) && s != []
    modifies Nodes(list, s)`next, Nodes(list, s)`prev, Nodes(head, t)`next, Nodes(head, t)`prev
    ensures Ring(head, s + t)
  {
    assert LinkedAt(list, s, 0) && LinkedAt(list, s, |s|) && LinkedAt(head, t, 0);
    var first, last, at := list.next, list.prev, head.next;
    first.prev := head;
    head.next := first;
    last.next := at;
    at.prev := last;
    ghost var r := s + t;
    assert NoDup(r) by {
      assert forall i, j | 0 <= i < |s| && 0 <= j < |t| :: s[i] in Nodes(list, s) && t[j] in Nodes(head, t);
    }
    forall k: nat | k <= |r| ensures LinkedAt(head, r, k) {
      if k <= |s| {
        assert old(LinkedAt(list, s, k));
      } else {
        assert old(LinkedAt(head, t, k - |s|));
      }
    }
  }

  /** list_splice */
  method Splice(list: ListHead, head: ListHead, ghost s: seq<ListHead>, ghost t: seq<ListHead>)
    requires Ring(list, s) && Ring(head, t) && Apart(list, s, head, t)
    modifies Nodes(list, s)`next, Nodes(list, s)`prev, Nodes(head, t)`next, Nodes(head, t)`prev
    ensures Ring(head, s + t)
  {
    var e := Empty(list, s);
    if !e {
      SpliceNonEmpty(list, head, s, t);
    } else {
      assert s + t == t;
    }
  }

  /** list_splice_init */
  method SpliceInit(list: ListHead, head: ListHead, ghost s: seq<ListHead>, ghost t: seq<ListHead>)
    requires Ring(list, s) && Ring(head, t) && Apart(list, s, head, t)
    modifies Nodes(list, s)`next, Nodes(list, s)`prev, Nodes(head, t)`next, Nodes(head, t)`prev
    ensures Ring(head, s + t) && Ring(list, [])
  {
    var e := Empty(list, s);
    if !e {
      SpliceNonEmpty(list, head, s, t);
      list.next, list.prev := list, list;
    } else {
      assert s + t == t;
    }
  }

  // ---------------------------------------------------------------- going around

  /** list_entry_count */
  method EntryCount(head: ListHead?, ghost s: seq<ListHead>) returns (n: nat)
    requires head != null ==> Ring(head, s)
    ensures n == if head == null then 0 else |s|
  {
    if head == null {
      return 0;
    }
    n := 0;
    assert LinkedAt(head, s, 0);
    var next := head.next;
    while next != head
      invariant n <= |s| && next == Around(head, s, n + 1)
      decreases |s| - n
    {
      n := n + 1;
      assert LinkedAt(head, s, n);
      next := next.next;
    }
  }

  /** Reading a node that was freed is what the safe iteration must never do. */
  method NextOf(n: ListHead) returns (r: ListHead?)
    requires !n.freed
    ensures r == n.next
  {
    r := n.next;
  }

  method Free(n: ListHead)
    requires !n.freed
    modifies n`freed
    ensures n.freed
  {
    n.freed := true;
  }

  ghost predicate Live(head: ListHead, s: seq<ListHead>)
    reads Nodes(head, s)`freed
  {
    !head.freed && forall i | 0 <= i < |s| :: !s[i].freed
  }

  /** The first two nodes on the way around a ring. */
  lemma FirstTwo(head: ListHead, s: seq<ListHead>)
    requires Ring(head, s)
    ensures head.next == Around(head, s, 1)
    ensures Around(head, s, 1).next == Around(head, s, 2)
  {
    assert LinkedAt(head, s, 0);
    assert s != [] ==> LinkedAt(head, s, 1);
  }

  lemma RestIsLive(head: ListHead, s: seq<ListHead>)
    requires Ring(head, s) && Live(head, s) && s != []
    ensures Without(s, 0) == s[1..] && Live(head, s[1..]) && s[0] !in Nodes(head, s[1..])
  {
    assert forall i | 0 <= i < |s[1..]| :: s[1..][i] == s[i + 1] && s[i + 1] != s[0];
  }

  /** list_del and free of the first client left. */
  method FreeFirst(c: ListHead, head: ListHead, ghost left: seq<ListHead>)
    requires Ring(head, left) && Live(head, left) && left != [] && c == left[0]
    modifies Nodes(head, left)
    ensures c.freed && Ring(head, left[1..]) && Live(head, left[1..])
  {
    RestIsLive(head, left);
    ghost var rest := left[1..];
    Del(c, head, left, 0);
    assert Ring(head, rest);
    assert Live(head, rest);
    Free(c);
    assert Live(head, rest);
  }

  /** The loop body of close_all_client for the first client left. */
  method CloseFirst(c: ListHead, tmp: ListHead, head: ListHead, ghost left: seq<ListHead>) returns (next: ListHead)
    requires Ring(head, left) && Live(head, left) && left != []
    requires c == Around(head, left, 1) && tmp == Around(head, left, 2)
    modifies Nodes(head, left)
    ensures c.freed && Ring(head, left[1..]) && Live(head, left[1..]) && next == Around(head, left[1..], 2)
  {
    FreeFirst(c, head, left);
    assert tmp == Around(head, left[1..], 1);
    FirstTwo(head, left[1..]);
    next := NextOf(tmp);
  }

  /** close_all_client: unlinks and frees every client, looking ahead one entry. */
  method CloseAllClient(head: ListHead, ghost s: seq<ListHead>) returns (closed: seq<ListHead>)
    requires Ring(head, s) && Live(head, s)
    modifies Nodes(head, s)
    ensures closed == s && Ring(head, []) && !head.freed
    ensures forall i | 0 <= i < |s| :: s[i].freed
  {
    closed := [];
    assert LinkedAt(head, s, 0) && (s != [] ==> LinkedAt(head, s, 1));
    var c := head.next;
    var tmp := NextOf(c);
    while c != head
      invariant |closed| <= |s| && closed == s[..|closed|]
      invariant Ring(head, s[|closed|..]) && Live(head, s[|closed|..])
      invariant c == Around(head, s[|closed|..], 1) && tmp == Around(head, s[|closed|..], 2)
      invariant forall i | 0 <= i < |closed| :: closed[i].freed
      decreases |s| - |closed|
    {
      ghost var left := s[|closed|..];
      assert Nodes(head, left) <= Nodes(head, s);
      assert forall i | 0 <= i < |closed| :: closed[i] !in Nodes(head, left);
      var next := CloseFirst(c, tmp, head, left);
      assert left[1..] == s[|closed| + 1..];
      closed := closed + [c];
      c, tmp := tmp, next;
    }
  }
}
