/** Sequences that come from another by leaving elements out, the others keeping their order. */
module Subsequence {
  import Precedence

  ghost predicate Sub<T>(a: seq<T>, b: seq<T>)
    decreases |b|
  {
    a == [] || (b != [] && ((a[0] == b[0] && Sub(a[1..], b[1..])) || Sub(a, b[1..])))
  }

  lemma {:induction false} SubSelf<T>(a: seq<T>)
    ensures Sub(a, a)
  {
    if a != [] {
      SubSelf(a[1..]);
    }
  }

  /** What is kept of `b` can be kept of `x + b`. */
  lemma {:induction false} SubBehind<T>(x: seq<T>, a: seq<T>, b: seq<T>)
    requires Sub(a, b)
    ensures Sub(a, x + b) && Sub(x + a, x + b)
    decreases |x|
  {
    if x == [] {
      assert x + b == b && x + a == a;
    } else {
      SubBehind(x[1..], a, b);
      assert (x + b)[1..] == x[1..] + b && (x + a)[1..] == x[1..] + a;
    }
  }

  lemma {:induction false} SubBefore<T>(a: seq<T>, b: seq<T>, y: seq<T>)
    requires Sub(a, b)
    ensures Sub(a + y, b + y)
    decreases |b|
  {
    if a == [] {
      SubSelf(y);
      SubBehind(b, y, y);
      assert a + y == y;
    } else {
      assert (a + y)[1..] == a[1..] + y && (b + y)[1..] == b[1..] + y;
      if a[0] == b[0] && Sub(a[1..], b[1..]) {
        SubBefore(a[1..], b[1..], y);
      } else {
        SubBefore(a, b[1..], y);
      }
    }
  }

  lemma {:induction false} SubTrans<T>(a: seq<T>, b: seq<T>, c: seq<T>)
    requires Sub(a, b) && Sub(b, c)
    ensures Sub(a, c)
    decreases |c|
  {
    if a != [] {
      if b[0] == c[0] && Sub(b[1..], c[1..]) {
        if a[0] == b[0] && Sub(a[1..], b[1..]) {
          SubTrans(a[1..], b[1..], c[1..]);
        } else {
          SubTrans(a, b[1..], c[1..]);
        }
      } else {
        SubTrans(a, b, c[1..]);
      }
    }
  }

  lemma {:induction false} SubWithout(q: seq<nat>, t: nat)
    ensures Sub(Precedence.Without(q, t), q)
  {
    if q != [] {
      if q[0] == t {
        SubSelf(q[1..]);
      } else {
        SubWithout(q[1..], t);
      }
    }
  }

  /** The task that leaves is gone, and the order of the others stays. */
  lemma WithoutTask(q: seq<nat>, task: nat)
    requires Precedence.NoDuplicates(q)
    ensures var r := Precedence.Without(q, task);
            task !in r && Sub(r, q) && Precedence.NoDuplicates(r) && (task !in q ==> r == q) &&
            forall t :: t in r <==> t in q && t != task
  {
    SubWithout(q, task);
    if task in q {
      Precedence.WithoutContents(q, task);
    } else {
      Precedence.WithoutAbsent(q, task);
    }
  }

  // ---------- First in, first out ----------

  /** What has come out and can still come out is, in this order, part of what was there and was
      put in; all of it if nothing was discarded. */
  ghost predicate Fifo<T>(contents: seq<T>, sent: seq<T>, out: seq<T>, contents': seq<T>, gone: seq<T>) {
    && Sub(out + contents', contents + sent)
    && (gone == [] ==> out + contents' == contents + sent)
  }

  lemma FifoInFull<T>(c: seq<T>, sent: seq<T>, out: seq<T>, c1: seq<T>, gone: seq<T>)
    requires out + c1 == c + sent
    ensures Fifo(c, sent, out, c1, gone)
  {
    SubSelf(c + sent);
  }

  /** Nothing sent, nothing out. */
  lemma FifoWithout<T>(c: seq<T>, c1: seq<T>, gone: seq<T>)
    requires (Sub(c1, c) || c1 == c) && (gone == [] ==> c1 == c)
    ensures Fifo(c, [], [], c1, gone)
  {
    SubSelf(c);
    assert c + [] == c && [] + c1 == c1;
  }

  /** One step of a queue: nothing happens, the first comes out, or one is put in. */
  lemma FifoSteps<T>(c: seq<T>, x: T)
    ensures Fifo(c, [], [], c, [])
    ensures c != [] ==> Fifo(c, [], [c[0]], c[1..], [])
    ensures Fifo(c, [x], [], c + [x], [])
  {
    assert c + [] == c && [] + c == c && [] + (c + [x]) == c + [x];
    assert c != [] ==> [c[0]] + c[1..] == c;
    SubSelf(c);
    SubSelf(c + [x]);
  }

  lemma FifoAdds<T>(c: seq<T>, sent: seq<T>, out: seq<T>, c1: seq<T>, gone: seq<T>,
                    sent': seq<T>, out': seq<T>, c2: seq<T>, gone': seq<T>)
    requires Fifo(c, sent, out, c1, gone) && Fifo(c1, sent', out', c2, gone')
    ensures Fifo(c, sent + sent', out + out', c2, gone + gone')
  {
    SubBehind(out, out' + c2, c1 + sent');
    SubBefore(out + c1, c + sent, sent');
    assert out + (out' + c2) == out + out' + c2;
    assert out + (c1 + sent') == out + c1 + sent';
    assert c + sent + sent' == c + (sent + sent');
    SubTrans(out + out' + c2, out + c1 + sent', c + (sent + sent'));
  }
}
