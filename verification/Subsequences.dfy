/** Subsequences: what is left of a sequence when some of its elements are lost. */
module Subsequences {

  /** `a` is `b` with any number of elements left out. */
  predicate Sub<T(==)>(a: seq<T>, b: seq<T>)
    decreases |b|
  {
    || a == []
    || (b != [] &&
        (Sub(a, b[..|b| - 1]) || (a[|a| - 1] == b[|b| - 1] && Sub(a[..|a| - 1], b[..|b| - 1]))))
  }

  lemma {:induction false} SubIn<T>(a: seq<T>, b: seq<T>)
    requires Sub(a, b)
    ensures forall x | x in a :: x in b
    ensures |a| <= |b|
    decreases |b|
  {
    if a != [] {
      if Sub(a, b[..|b| - 1]) {
        SubIn(a, b[..|b| - 1]);
      } else {
        SubIn(a[..|a| - 1], b[..|b| - 1]);
        assert a == a[..|a| - 1] + [a[|a| - 1]];
      }
    }
  }

  lemma {:induction false} SubRefl<T>(a: seq<T>)
    ensures Sub(a, a)
  {
    if a != [] { SubRefl(a[..|a| - 1]); }
  }

  lemma {:induction false} SubExtend<T>(a: seq<T>, b: seq<T>, x: T)
    requires Sub(a, b)
    ensures Sub(a, b + [x]) && Sub(a + [x], b + [x])
  {
    assert (b + [x])[..|b|] == b;
    assert (a + [x])[..|a|] == a;
  }

  lemma {:induction false} SubTrans<T>(a: seq<T>, b: seq<T>, c: seq<T>)
    requires Sub(a, b) && Sub(b, c)
    ensures Sub(a, c)
    decreases |c|
  {
    if a != [] {
      if Sub(b, c[..|c| - 1]) {
        SubTrans(a, b, c[..|c| - 1]);
      } else if Sub(a, b[..|b| - 1]) {
        SubTrans(a, b[..|b| - 1], c[..|c| - 1]);
      } else {
        SubTrans(a[..|a| - 1], b[..|b| - 1], c[..|c| - 1]);
      }
    }
  }

  lemma {:induction false} SubDrop<T>(a: seq<T>, i: nat)
    requires i < |a|
    ensures Sub(a[..i] + a[i + 1..], a)
    decreases |a|
  {
    var front := a[..|a| - 1];
    if i == |a| - 1 {
      assert a[..i] + a[i + 1..] == front;
      SubRefl(front);
    } else {
      SubDrop(front, i);
      var b := a[..i] + a[i + 1..];
      assert b[..|b| - 1] == front[..i] + front[i + 1..];
    }
  }

  lemma {:induction false} SubTail<T>(a: seq<T>, b: seq<T>, c: seq<T>)
    requires Sub(a, b)
    ensures Sub(a, b + c) && Sub(a + c, b + c)
    decreases |c|
  {
    if c == [] {
      assert b + c == b && a + c == a;
    } else {
      SubTail(a, b, c[..|c| - 1]);
      SubExtend(a, b + c[..|c| - 1], c[|c| - 1]);
      SubExtend(a + c[..|c| - 1], b + c[..|c| - 1], c[|c| - 1]);
      assert b + c == b + c[..|c| - 1] + [c[|c| - 1]];
      assert a + c == a + c[..|c| - 1] + [c[|c| - 1]];
    }
  }

  lemma {:induction false} SubHead<T>(p: seq<T>, a: seq<T>, b: seq<T>)
    requires Sub(a, b)
    ensures Sub(p + a, p + b)
    decreases |b|
  {
    if b == [] {
      assert p + a == p == p + b;
      SubRefl(p);
    } else {
      var x, front := b[|b| - 1], b[..|b| - 1];
      assert p + b == p + front + [x];
      if Sub(a, front) {
        SubHead(p, a, front);
        SubExtend(p + a, p + front, x);
      } else {
        SubHead(p, a[..|a| - 1], front);
        SubExtend(p + a[..|a| - 1], p + front, x);
        assert p + a == p + a[..|a| - 1] + [x];
      }
    }
  }

  /** Losing an element of the tail of a subsequence. */
  lemma SubLose<T>(a: seq<T>, q: seq<T>, b: seq<T>)
    requires q != [] && Sub(a + q, b)
    ensures Sub(a + q[1..], b)
  {
    SubDrop(a + q, |a|);
    assert (a + q)[..|a|] + (a + q)[|a| + 1..] == a + q[1..];
    SubTrans(a + q[1..], a + q, b);
  }

  /** Where an element of a subsequence comes from; what stands before it comes from before there. */
  lemma {:induction false} SubAt<T>(a: seq<T>, b: seq<T>, i: nat) returns (k: nat)
    requires Sub(a, b) && i < |a|
    ensures k < |b| && a[i] == b[k] && Sub(a[..i], b[..k])
    decreases |b|
  {
    var front := b[..|b| - 1];
    if Sub(a, front) {
      k := SubAt(a, front, i);
      assert front[..k] == b[..k];
    } else if i == |a| - 1 {
      k := |b| - 1;
    } else {
      k := SubAt(a[..|a| - 1], front, i);
      assert front[..k] == b[..k] && a[..|a| - 1][..i] == a[..i];
    }
  }

  /** Two elements of a subsequence stand in the same order where they come from. */
  lemma SubPair<T>(a: seq<T>, b: seq<T>, i: nat, j: nat) returns (k: nat, m: nat)
    requires Sub(a, b) && i < j < |a|
    ensures k < m < |b| && a[i] == b[k] && a[j] == b[m]
  {
    m := SubAt(a, b, j);
    k := SubAt(a[..j], b[..m], i);
  }

  function Map<S, T>(f: S -> T, a: seq<S>): seq<T> {
    seq(|a|, i requires 0 <= i < |a| => f(a[i]))
  }

  /** A loss-free image keeps subsequences. */
  lemma {:induction false} SubMap<S, T>(f: S -> T, a: seq<S>, b: seq<S>)
    requires Sub(a, b)
    ensures Sub(Map(f, a), Map(f, b))
    decreases |b|
  {
    if a == [] {
      assert Map(f, a) == [];
    } else {
      assert Map(f, b)[..|b| - 1] == Map(f, b[..|b| - 1]);
      if Sub(a, b[..|b| - 1]) {
        SubMap(f, a, b[..|b| - 1]);
      } else {
        SubMap(f, a[..|a| - 1], b[..|b| - 1]);
        assert Map(f, a)[..|a| - 1] == Map(f, a[..|a| - 1]);
      }
    }
  }
}
