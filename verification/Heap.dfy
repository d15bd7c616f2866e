/**
 The time event heap as a value (asp3/kernel/time_event.c:157-349): `h[1..last]` holds block
 numbers in heap order, `nd[b]` is the node of block `b`, and one node may be empty while an
 event is on its way to its place.
 */
module Heap {

  type Times = map<nat, int>

  predicate IsChild(p: int, c: int) {
    1 <= p && (c == 2 * p || c == 2 * p + 1)
  }

  /** Nodes 1..last, except the empty node `hole`, hold exactly the blocks of `due`, and every
      such block knows its node. */
  ghost predicate Linked(h: seq<nat>, nd: seq<nat>, last: nat, due: Times, hole: nat) {
    && last < |h|
    && (forall i :: 1 <= i <= last && i != hole ==> h[i] in due && h[i] < |nd| && nd[h[i]] == i)
    && (forall b :: b in due ==> b < |nd| && 1 <= nd[b] <= last && nd[b] != hole && h[nd[b]] == b)
  }

  ghost function Key(h: seq<nat>, due: Times, i: int): int {
    if 0 <= i < |h| && h[i] in due then due[h[i]] else 0
  }

  /** Every node comes no earlier than its parent; across the empty node, than its grandparent. */
  ghost predicate Ordered(h: seq<nat>, last: nat, due: Times, hole: nat) {
    && (forall p, c {:trigger IsChild(p, c)} :: IsChild(p, c) && c <= last && p != hole && c != hole
          ==> Key(h, due, p) <= Key(h, due, c))
    && (forall g, c {:trigger IsChild(g, hole), IsChild(hole, c)} :: IsChild(g, hole) && IsChild(hole, c) && c <= last
          ==> Key(h, due, g) <= Key(h, due, c))
  }

  /** No child of the empty node comes before `t`. */
  ghost predicate BeforeChildren(h: seq<nat>, last: nat, due: Times, hole: nat, t: int) {
    forall c {:trigger IsChild(hole, c)} :: IsChild(hole, c) && c <= last ==> t <= Key(h, due, c)
  }

  ghost predicate AfterParent(h: seq<nat>, last: nat, due: Times, hole: nat, t: int) {
    forall p {:trigger IsChild(p, hole)} :: IsChild(p, hole) && hole <= last ==> Key(h, due, p) <= t
  }

  lemma MoveLinked(h: seq<nat>, nd: seq<nat>, last: nat, due: Times, hole: nat, from: nat)
    requires Linked(h, nd, last, due, hole)
    requires 1 <= hole <= last && 1 <= from <= last && from != hole
    ensures h[from] < |nd|
    ensures Linked(h[hole := h[from]], nd[h[from] := hole], last, due, from)
    ensures Key(h[hole := h[from]], due, hole) == Key(h, due, from)
    ensures forall i :: 1 <= i <= last && i != hole ==> Key(h[hole := h[from]], due, i) == Key(h, due, i)
  {
  }

  lemma MoveParent(h: seq<nat>, nd: seq<nat>, last: nat, due: Times, hole: nat, parent: nat, t: int)
    requires Linked(h, nd, last, due, hole) && Ordered(h, last, due, hole)
    requires IsChild(parent, hole) && hole <= last
    requires BeforeChildren(h, last, due, hole, t) && t < Key(h, due, parent)
    ensures var h' := h[hole := h[parent]];
            Ordered(h', last, due, parent) && BeforeChildren(h', last, due, parent, t)
  {
    MoveLinked(h, nd, last, due, hole, parent);
  }

  lemma MoveChild(h: seq<nat>, nd: seq<nat>, last: nat, due: Times, hole: nat, child: nat, t: int)
    requires Linked(h, nd, last, due, hole) && Ordered(h, last, due, hole)
    requires IsChild(hole, child) && child <= last
    requires BeforeChildren(h, last, due, hole, Key(h, due, child))
    requires Key(h, due, child) < t
    ensures var h' := h[hole := h[child]];
            Ordered(h', last, due, child) && AfterParent(h', last, due, child, t)
  {
    MoveLinked(h, nd, last, due, hole, child);
  }

  /** Filling the empty node with an event that fits there restores the heap. */
  lemma Place(h: seq<nat>, nd: seq<nat>, last: nat, due: Times, hole: nat, b: nat, t: int)
    requires Linked(h, nd, last, due, hole) && Ordered(h, last, due, hole)
    requires 1 <= hole <= last && b !in due && b < |nd|
    requires BeforeChildren(h, last, due, hole, t) && AfterParent(h, last, due, hole, t)
    ensures Linked(h[hole := b], nd[b := hole], last, due[b := t], 0)
    ensures Ordered(h[hole := b], last, due[b := t], 0)
  {
    var h', due' := h[hole := b], due[b := t];
    forall i | 1 <= i <= last
      ensures Key(h', due', i) == if i == hole then t else Key(h, due, i)
    {
    }
  }

  /** Taking block `b` out, with the last block waiting to be put back. */
  lemma TakeOut(h: seq<nat>, nd: seq<nat>, last: nat, due: Times, b: nat)
    requires Linked(h, nd, last, due, 0) && Ordered(h, last, due, 0)
    requires b in due
    ensures 1 <= nd[b] <= last && h[last] in due
    ensures Linked(h, nd, last - 1, due - {b} - {h[last]}, nd[b])
    ensures Ordered(h, last - 1, due - {b} - {h[last]}, nd[b])
    ensures nd[b] == last <==> h[last] == b
    ensures nd[b] == last ==> forall g {:trigger IsChild(g, last)} :: IsChild(g, last) ==>
              Key(h, due - {b} - {h[last]}, g) <= due[b]
    ensures h[last] !in due - {b} - {h[last]}
    ensures h[last] != b ==> (due - {b} - {h[last]})[h[last] := due[h[last]]] == due - {b}
    ensures h[last] == b ==> due - {b} - {h[last]} == due - {b}
  {
    var rest, p := due - {b} - {h[last]}, nd[b];
    forall i | 1 <= i < last && i != p
      ensures h[i] in rest && Key(h, rest, i) == Key(h, due, i)
    {
    }
    forall g, c | IsChild(g, p) && IsChild(p, c) && c < last
      ensures Key(h, rest, g) <= Key(h, rest, c)
    {
      assert Key(h, due, g) <= Key(h, due, p) <= Key(h, due, c);
    }
  }

  /** The root is due first. */
  lemma {:induction false} RootIsFirst(h: seq<nat>, nd: seq<nat>, last: nat, due: Times, i: nat)
    requires Linked(h, nd, last, due, 0) && Ordered(h, last, due, 0)
    requires 1 <= i <= last
    ensures Key(h, due, 1) <= Key(h, due, i)
    decreases i
  {
    if i > 1 {
      RootIsFirst(h, nd, last, due, i / 2);
      assert IsChild(i / 2, i);
    }
  }

  lemma RootIsMinimum(h: seq<nat>, nd: seq<nat>, last: nat, due: Times)
    requires Linked(h, nd, last, due, 0) && Ordered(h, last, due, 0) && last > 0
    ensures h[1] in due && forall b :: b in due ==> due[h[1]] <= due[b]
  {
    forall b | b in due
      ensures due[h[1]] <= due[b]
    {
      RootIsFirst(h, nd, last, due, nd[b]);
    }
  }

  lemma {:induction false} Occupancy(h: seq<nat>, nd: seq<nat>, last: nat, due: Times)
    requires Linked(h, nd, last, due, 0)
    ensures |due.Keys| == last
    decreases last
  {
    if last == 0 {
      assert due.Keys == {};
    } else {
      var rest := due - {h[last]};
      Occupancy(h, nd, last - 1, rest);
      assert due.Keys == rest.Keys + {h[last]};
    }
  }

  lemma {:induction false} BelowBound(s: set<nat>, n: nat)
    requires forall b :: b in s ==> b < n
    ensures |s| <= n
    decreases n
  {
    if n == 0 {
      assert s == {};
    } else {
      BelowBound(s - {n - 1}, n - 1);
      assert s <= s - {n - 1} + {n - 1};
    }
  }

  /** While some block is unregistered there is a free node. */
  lemma RoomForOne(h: seq<nat>, nd: seq<nat>, last: nat, due: Times, b: nat)
    requires Linked(h, nd, last, due, 0)
    requires b !in due && b < |nd|
    ensures last < |nd|
  {
    Occupancy(h, nd, last, due);
    BelowBound(due.Keys + {b}, |nd|);
  }

  /** A fresh last node, still empty, has no children. */
  lemma OpenLast(h: seq<nat>, nd: seq<nat>, last: nat, due: Times, t: int)
    requires Linked(h, nd, last, due, 0) && Ordered(h, last, due, 0)
    requires last + 1 < |h|
    ensures Linked(h, nd, last + 1, due, last + 1) && Ordered(h, last + 1, due, last + 1)
    ensures BeforeChildren(h, last + 1, due, last + 1, t)
  {
  }

  /** Children of the empty node come after anything that comes before its parent. */
  lemma BeforeParent(h: seq<nat>, last: nat, due: Times, hole: nat, parent: nat, t: int)
    requires Ordered(h, last, due, hole) && IsChild(parent, hole) && t < Key(h, due, parent)
    ensures BeforeChildren(h, last, due, hole, t)
  {
  }
}
