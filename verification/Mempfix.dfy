/**
 Fixed-sized memory pools (asp3/kernel/mempfix.c).

 Blocks are numbered.  The blocks from `unused` on were never handed out; of the others each is
 either handed out, its entry then being INDEX_ALLOC, or on the free list.
 */
module Mempfix {
  import opened Counting
  import opened Precedence
  import opened WaitQueue

  const INDEX_NULL: nat := 0xffffffff
  const INDEX_ALLOC: nat := 0xfffffffe

  /** `free` is what a walk along the free list finds. */
  ghost predicate FreeChain(next: seq<nat>, first: nat, free: seq<nat>)
    decreases |free|
  {
    if free == [] then first == INDEX_NULL
    else first == free[0] && free[0] < |next| && FreeChain(next, next[free[0]], free[1..])
  }

  /** The blocks used so far are on the free list or marked as handed out, never both. */
  ghost predicate Partition(next: seq<nat>, unused: nat, free: seq<nat>) {
    && unused <= |next| < INDEX_ALLOC && NoDuplicates(free)
    && (forall i: nat :: i in free ==> i < unused)
    && (forall i: nat :: i < unused ==> (next[i] == INDEX_ALLOC <==> i !in free))
  }

  /** The blocks handed out. */
  function Taken(next: seq<nat>, unused: nat): set<nat>
    requires unused <= |next|
  {
    set i: nat | i < unused && next[i] == INDEX_ALLOC
  }

  lemma {:induction false} Unchanged(next: seq<nat>, first: nat, free: seq<nat>, b: nat, v: nat)
    requires FreeChain(next, first, free) && b < |next| && b !in free
    ensures FreeChain(next[b := v], first, free)
    decreases |free|
  {
    if free != [] {
      Unchanged(next, next[free[0]], free[1..], b, v);
    }
  }

  // ---------- Counting ----------

  /** The count of free blocks that the pool keeps is right. */
  lemma FreeAndTaken(next: seq<nat>, unused: nat, free: seq<nat>)
    requires Partition(next, unused, free)
    ensures |next| - unused + |free| == |next| - |Taken(next, unused)|
  {
    BeforeCount(unused);
    Members(free);
    var s := set i: nat | i in free;
    assert Before(unused) == Taken(next, unused) + s;
    assert Taken(next, unused) !! s;
  }

  // ---------- Handing out ----------

  /** From the free list. */
  lemma TakeListed(next: seq<nat>, unused: nat, first: nat, free: seq<nat>)
    requires Partition(next, unused, free) && FreeChain(next, first, free) && free != []
    ensures first == free[0] && first < unused && first !in Taken(next, unused)
    ensures var next' := next[first := INDEX_ALLOC];
            Partition(next', unused, free[1..]) && FreeChain(next', next[first], free[1..]) &&
            Taken(next', unused) == Taken(next, unused) + {first}
  {
    TailContents(free);
    assert free[0] in free;
    Unchanged(next, next[first], free[1..], first, INDEX_ALLOC);
  }

  /** The first block never used, when the free list is empty. */
  lemma TakeUnused(next: seq<nat>, unused: nat, first: nat, free: seq<nat>)
    requires Partition(next, unused, free) && FreeChain(next, first, free) && unused < |next| && free == []
    ensures unused !in Taken(next, unused)
    ensures var next' := next[unused := INDEX_ALLOC];
            Partition(next', unused + 1, free) && FreeChain(next', first, free) &&
            Taken(next', unused + 1) == Taken(next, unused) + {unused}
  {
  }

  /** Taking a block back. */
  lemma PutBack(next: seq<nat>, unused: nat, first: nat, free: seq<nat>, b: nat)
    requires Partition(next, unused, free) && FreeChain(next, first, free) && b in Taken(next, unused)
    ensures var next' := next[b := first];
            Partition(next', unused, [b] + free) && FreeChain(next', b, [b] + free) &&
            Taken(next', unused) == Taken(next, unused) - {b}
  {
    Unchanged(next, first, free, b, first);
    assert ([b] + free)[1..] == free;
    assert first != INDEX_ALLOC;
    assert forall j :: 0 < j < |[b] + free| ==> ([b] + free)[j] == free[j - 1];
  }

  // ---------- Addresses ----------

  function Address(mpf: nat, blksz: nat, i: nat): nat {
    mpf + blksz * i
  }

  /** The checks of rel_mpf. */
  predicate Accepted(mpf: nat, blksz: nat, next: seq<nat>, unused: nat, blk: nat)
    requires blksz > 0 && unused <= |next|
  {
    && mpf <= blk && (blk - mpf) % blksz == 0 && (blk - mpf) / blksz < unused
    && next[(blk - mpf) / blksz] == INDEX_ALLOC
  }

  lemma AddressTellsBlock(mpf: nat, blksz: nat, i: nat)
    requires blksz > 0
    ensures (Address(mpf, blksz, i) - mpf) % blksz == 0 && (Address(mpf, blksz, i) - mpf) / blksz == i
  {
    var x := Address(mpf, blksz, i) - mpf;
    assert x == blksz * i;
    Quotient(x, blksz, i);
  }

  lemma Multiple(d: int, k: int)
    requires d > 0
    ensures (k >= 1 ==> d * k >= d) && (k <= -1 ==> d * k <= -d)
  {
  }

  lemma Quotient(x: nat, d: nat, i: nat)
    requires d > 0 && x == d * i
    ensures x / d == i && x % d == 0
  {
    assert x == d * (x / d) + x % d;
    assert d * (i - x / d) == x % d;
    Multiple(d, i - x / d);
  }

  /** rel_mpf accepts exactly the addresses of the blocks handed out. */
  lemma AcceptsExactlyTaken(mpf: nat, blksz: nat, next: seq<nat>, unused: nat, blk: nat)
    requires blksz > 0 && unused <= |next|
    ensures Accepted(mpf, blksz, next, unused, blk) <==>
            exists i: nat :: i in Taken(next, unused) && blk == Address(mpf, blksz, i)
  {
    if Accepted(mpf, blksz, next, unused, blk) {
      var i := (blk - mpf) / blksz;
      assert blk - mpf == blksz * i;
      assert i in Taken(next, unused) && blk == Address(mpf, blksz, i);
    }
    if i: nat :| i in Taken(next, unused) && blk == Address(mpf, blksz, i) {
      AddressTellsBlock(mpf, blksz, i);
    }
  }

  // ---------- The pool ----------

  class MemoryPool {
    const mpf: nat
    const blksz: nat
    const tpri: bool
    const mpfmb: array<nat>
    var fblkcnt: nat
    var unused: nat
    var freelist: nat
    var wait: seq<Waiter<()>>
    ghost var free: seq<nat>
    ghost var owner: map<nat, nat>   // which task has which block

    ghost predicate BlocksOk()
      reads `fblkcnt, `unused, `freelist, `free, `owner, mpfmb
    {
      && blksz > 0 && mpfmb.Length > 0
      && Partition(mpfmb[..], unused, free) && FreeChain(mpfmb[..], freelist, free)
      && fblkcnt == mpfmb.Length - unused + |free|
      && owner.Keys == Taken(mpfmb[..], unused)
    }

    /** Nobody waits while a block is free. */
    ghost predicate Valid()
      reads this, mpfmb
    {
      BlocksOk() && Ordered(tpri, wait) && (wait != [] ==> fblkcnt == 0)
    }

    /** `fblkcnt` counts the blocks that no task has. */
    lemma FreeCountIsRight()
      requires Valid()
      ensures fblkcnt == mpfmb.Length - |owner.Keys|
    {
      FreeAndTaken(mpfmb[..], unused, free);
    }

    // initialize_mempfix
    constructor (mpf: nat, blksz: nat, blkcnt: nat, tpri: bool)
      requires blksz > 0 && 0 < blkcnt < INDEX_ALLOC
      ensures Valid() && fresh(mpfmb) && owner == map[] && wait == [] && fblkcnt == mpfmb.Length == blkcnt
    {
      this.mpf, this.blksz, this.tpri := mpf, blksz, tpri;
      mpfmb := new nat[blkcnt];
      fblkcnt, unused, freelist := blkcnt, 0, INDEX_NULL;
      wait, free, owner := [], [], map[];
    }

    // get_mpf_block, for task `task`
    method GetMpfBlock(ghost task: nat) returns (blk: nat)
      requires BlocksOk() && fblkcnt > 0
      modifies `fblkcnt, `unused, `freelist, `free, `owner, mpfmb
      ensures BlocksOk() && fblkcnt == old(fblkcnt) - 1
      ensures exists b: nat :: b < mpfmb.Length && b !in old(owner) && blk == Address(mpf, blksz, b) &&
                               owner == old(owner)[b := task]
    {
      var blkidx;
      if freelist != INDEX_NULL {
        blkidx := freelist;
        TakeListed(mpfmb[..], unused, freelist, free);
        freelist := mpfmb[blkidx];
        free := free[1..];
      } else {
        blkidx := unused;
        TakeUnused(mpfmb[..], unused, freelist, free);
        unused := unused + 1;
      }
      blk := mpf + blksz * blkidx;
      fblkcnt := fblkcnt - 1;
      ghost var was := mpfmb[..];
      mpfmb[blkidx] := INDEX_ALLOC;
      assert mpfmb[..] == was[blkidx := INDEX_ALLOC];
      owner := owner[blkidx := task];
      assert blk == Address(mpf, blksz, blkidx);
    }

    // get_mpf and tget_mpf; without a free block the task waits.  `raster` tells whether the
    // termination of the caller is requested, `polling` that the time limit is TMO_POL.
    method GetMpf(task: nat, pri: nat, raster: bool, polling: bool) returns (ercd: Ercd, blk: nat)
      requires Valid() && !Queued(wait, task)
      modifies this, mpfmb
      ensures Valid()
      ensures ercd == if raster then E_RASTER else if old(fblkcnt) > 0 then E_OK
                      else if polling then E_TMOUT else Waits
      ensures ercd == E_OK ==> exists b: nat :: b < mpfmb.Length && b !in old(owner) &&
                                                blk == Address(mpf, blksz, b) && owner == old(owner)[b := task]
      ensures ercd != E_OK ==> owner == old(owner)
      ensures wait == if ercd == Waits then Join(tpri, old(wait), Waiter(task, pri, ())) else old(wait)
    {
      ercd := if raster then E_RASTER else if fblkcnt > 0 then E_OK else if polling then E_TMOUT else Waits;
      blk := 0;
      if ercd == E_OK {
        blk := GetMpfBlock(task);
      } else if ercd == Waits {
        JoinKeepsOrder(tpri, wait, Waiter(task, pri, ()));
        if tpri {
          wait := InsertTpri(wait, Waiter(task, pri, ()));
        } else {
          wait := wait + [Waiter(task, pri, ())];
        }
      }
    }

    // pget_mpf
    method PgetMpf(ghost task: nat) returns (got: bool, blk: nat)
      requires Valid()
      modifies this, mpfmb
      ensures Valid() && wait == old(wait) && got == (old(fblkcnt) > 0)
      ensures got ==> exists b: nat :: b < mpfmb.Length && b !in old(owner) &&
                                       blk == Address(mpf, blksz, b) && owner == old(owner)[b := task]
      ensures !got ==> owner == old(owner)
    {
      got, blk := fblkcnt > 0, 0;
      if got {
        blk := GetMpfBlock(task);
      }
    }

    // rel_mpf: the block goes to the first waiting task, or to the free list
    method RelMpf(blk: nat) returns (ercd: Ercd)
      requires Valid()
      modifies this, mpfmb
      ensures Valid()
      ensures ercd == E_OK <==> exists b: nat :: b in old(owner) && blk == Address(mpf, blksz, b)
      ensures ercd == E_OK || ercd == E_PAR
      ensures ercd == E_PAR ==> owner == old(owner) && wait == old(wait) && fblkcnt == old(fblkcnt)
      ensures forall b: nat :: b in old(owner) && blk == Address(mpf, blksz, b) ==>
                if old(wait) != [] then owner == old(owner)[b := old(wait)[0].task] && wait == old(wait)[1..] &&
                                        fblkcnt == old(fblkcnt)
                else owner == old(owner) - {b} && wait == [] && fblkcnt == old(fblkcnt) + 1
    {
      AcceptsExactlyTaken(mpf, blksz, mpfmb[..], unused, blk);
      if mpf <= blk && (blk - mpf) % blksz == 0 && (blk - mpf) / blksz < unused
         && mpfmb[(blk - mpf) / blksz] == INDEX_ALLOC {
        var blkidx := (blk - mpf) / blksz;
        forall b: nat | blk == Address(mpf, blksz, b)
          ensures b == blkidx
        {
          AddressTellsBlock(mpf, blksz, b);
        }
        if wait != [] {
          owner := owner[blkidx := wait[0].task];
          wait := wait[1..];
        } else {
          FreeBlock(blkidx);
        }
        ercd := E_OK;
      } else {
        ercd := E_PAR;
      }
    }

    method FreeBlock(blkidx: nat)
      requires BlocksOk() && blkidx in owner
      modifies `fblkcnt, `freelist, `free, `owner, mpfmb
      ensures BlocksOk() && fblkcnt == old(fblkcnt) + 1 && owner == old(owner) - {blkidx}
    {
      PutBack(mpfmb[..], unused, freelist, free, blkidx);
      fblkcnt := fblkcnt + 1;
      ghost var was := mpfmb[..];
      mpfmb[blkidx] := freelist;
      assert mpfmb[..] == was[blkidx := freelist];
      freelist := blkidx;
      free := [blkidx] + free;
      owner := owner - {blkidx};
    }

    // the wait of a task ends early
    method EndWait(task: nat)
      requires Valid()
      modifies `wait
      ensures Valid() && wait == Leave(old(wait), task) && !Queued(wait, task)
    {
      LeaveKeepsOrder(tpri, wait, task);
      wait := Leave(wait, task);
    }

    // wobj_change_priority
    method ChgPri(task: nat, pri: nat)
      requires Valid()
      modifies `wait
      ensures Valid() && wait == Reprioritized(tpri, old(wait), task, pri)
    {
      ReprioritizedKeepsOrder(tpri, wait, task, pri);
      if tpri && Queued(wait, task) {
        wait := InsertTpri(Leave(wait, task), WaiterOf(wait, task).(pri := pri));
      }
    }

    // ini_mpf: all blocks are free again
    method IniMpf()
      requires Valid()
      modifies `fblkcnt, `unused, `freelist, `wait, `free, `owner
      ensures Valid() && owner == map[] && wait == [] && fblkcnt == mpfmb.Length
    {
      wait := [];
      fblkcnt := mpfmb.Length;
      unused := 0;
      freelist := INDEX_NULL;
      free, owner := [], map[];
    }
  }
}
