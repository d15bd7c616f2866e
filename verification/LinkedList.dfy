/**
 Singly linked lists in a table of blocks: the chain of the mutexes a task holds and the lists of
 management blocks (asp3/kernel/mutex.c, pridataq.c).
 */
module LinkedList {
  import opened Options
  import opened Precedence

  /** `ms` is what a walk from `first` along `prev` finds. */
  ghost predicate Chain(prev: seq<Option<nat>>, first: Option<nat>, ms: seq<nat>)
    decreases |ms|
  {
    if ms == [] then first == None
    else first == Some(ms[0]) && ms[0] < |prev| && Chain(prev, prev[ms[0]], ms[1..])
  }

  lemma {:induction false} ChainFrame(prev: seq<Option<nat>>, m: nat, v: Option<nat>, first: Option<nat>, ms: seq<nat>)
    requires Chain(prev, first, ms) && m < |prev| && m !in ms
    ensures Chain(prev[m := v], first, ms)
    decreases |ms|
  {
    if ms != [] {
      ChainFrame(prev, m, v, prev[ms[0]], ms[1..]);
    }
  }

  lemma {:induction false} ChainAt(prev: seq<Option<nat>>, first: Option<nat>, ms: seq<nat>, k: nat)
    requires Chain(prev, first, ms) && k < |ms|
    ensures ms[k] < |prev| && prev[ms[k]] == (if k + 1 < |ms| then Some(ms[k + 1]) else None)
    ensures Chain(prev, prev[ms[k]], ms[k + 1..])
    decreases k
  {
    if k > 0 {
      ChainAt(prev, prev[ms[0]], ms[1..], k - 1);
    }
  }

  /** Taking an entry from the middle of a chain. */
  lemma {:induction false} ChainUnlink(prev: seq<Option<nat>>, first: Option<nat>, ms: seq<nat>, k: nat)
    requires Chain(prev, first, ms) && NoDuplicates(ms) && 0 < k < |ms|
    ensures ms[k] < |prev| && ms[k - 1] < |prev|
    ensures Chain(prev[ms[k - 1] := prev[ms[k]]], first, ms[..k] + ms[k + 1..])
    decreases k
  {
    ChainAt(prev, first, ms, k);
    ChainAt(prev, first, ms, k - 1);
    var prev' := prev[ms[k - 1] := prev[ms[k]]];
    var ms' := ms[..k] + ms[k + 1..];
    if k == 1 {
      assert ms'[1..] == ms[2..];
      ChainFrame(prev, ms[0], prev[ms[1]], prev[ms[1]], ms[2..]);
    } else {
      ChainUnlink(prev, prev[ms[0]], ms[1..], k - 1);
      assert ms'[1..] == ms[1..][..k - 1] + ms[1..][k..];
    }
  }

  /** Where a chain goes on after its first `k` entries. */
  ghost function Link(ms: seq<nat>, k: nat): Option<nat>
    requires k <= |ms|
  {
    if k < |ms| then Some(ms[k]) else None
  }

  /** Putting entry `b` into a chain, behind its first `k` > 0 entries. */
  lemma {:induction false} ChainInsert(prev: seq<Option<nat>>, first: Option<nat>, ms: seq<nat>, k: nat, b: nat)
    requires Chain(prev, first, ms) && NoDuplicates(ms) && 0 < k <= |ms| && b < |prev| && b !in ms
    ensures ms[k - 1] < |prev|
    ensures Chain(prev[b := Link(ms, k)][ms[k - 1] := Some(b)], first, ms[..k] + [b] + ms[k..])
    decreases k
  {
    ChainAt(prev, first, ms, k - 1);
    var prev' := prev[b := Link(ms, k)][ms[k - 1] := Some(b)];
    var ms' := ms[..k] + [b] + ms[k..];
    if k == 1 {
      ChainFrame(prev, b, Link(ms, 1), prev[ms[0]], ms[1..]);
      ChainFrame(prev[b := Link(ms, 1)], ms[0], Some(b), prev[ms[0]], ms[1..]);
      assert ms'[1..] == [b] + ms[1..];
      assert ([b] + ms[1..])[1..] == ms[1..];
    } else {
      ChainInsert(prev, prev[ms[0]], ms[1..], k - 1, b);
      assert ms[1..][k - 2] == ms[k - 1] && Link(ms[1..], k - 1) == Link(ms, k);
      assert ms'[1..] == ms[1..][..k - 1] + [b] + ms[1..][k - 1..];
    }
  }

  lemma ChainPush(prev: seq<Option<nat>>, first: Option<nat>, ms: seq<nat>, b: nat)
    requires Chain(prev, first, ms) && b < |prev| && b !in ms
    ensures Chain(prev[b := first], Some(b), [b] + ms)
  {
    ChainFrame(prev, b, first, first, ms);
    assert ([b] + ms)[1..] == ms;
  }
}
