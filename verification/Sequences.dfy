/** Order facts about sequences shared by the queue and delivery proofs. */
module Sequences {

  ghost predicate NoDup<T(!new)>(q: seq<T>) {
    forall i, j :: 0 <= i < j < |q| ==> q[i] != q[j]
  }

  /** `xs` can be obtained from `ys` by deleting elements. */
  ghost predicate Subseq<T(!new)>(xs: seq<T>, ys: seq<T>)
    decreases |ys|
  {
    xs == [] ||
    (ys != [] &&
     ((xs[0] == ys[0] && Subseq(xs[1..], ys[1..])) || Subseq(xs, ys[1..])))
  }

  lemma {:induction false} SubseqExtend<T(!new)>(xs: seq<T>, ys: seq<T>, z: T)
    requires Subseq(xs, ys)
    ensures Subseq(xs, ys + [z]) && Subseq(xs + [z], ys + [z])
    decreases |ys|
  {
    if ys == [] {
      assert xs == [] && xs + [z] == [z] && ys + [z] == [z];
      assert [z][1..] == [];
    } else {
      assert (ys + [z])[1..] == ys[1..] + [z];
      if xs == [] {
        SubseqExtend([], ys[1..], z);
        assert [] + [z] == xs + [z];
      } else if xs[0] == ys[0] && Subseq(xs[1..], ys[1..]) {
        SubseqExtend(xs[1..], ys[1..], z);
        assert (xs + [z])[1..] == xs[1..] + [z];
      } else {
        SubseqExtend(xs, ys[1..], z);
      }
    }
  }

  lemma {:induction false} SubseqDelete<T(!new)>(xs: seq<T>, i: nat, ys: seq<T>)
    requires Subseq(xs, ys) && i < |xs|
    ensures Subseq(xs[..i] + xs[i + 1..], ys)
    decreases |ys|
  {
    var del := xs[..i] + xs[i + 1..];
    if xs[0] == ys[0] && Subseq(xs[1..], ys[1..]) {
      if i == 0 {
        assert del == xs[1..];
        if del != [] { assert Subseq(del, ys[1..]); }
      } else {
        SubseqDelete(xs[1..], i - 1, ys[1..]);
        assert del[1..] == xs[1..][..i - 1] + xs[1..][i..];
      }
    } else {
      SubseqDelete(xs, i, ys[1..]);
    }
  }

  lemma {:induction false} SubseqPrefix<T(!new)>(xs: seq<T>, k: nat, ys: seq<T>)
    requires Subseq(xs, ys) && k <= |xs|
    ensures Subseq(xs[..k], ys)
    decreases |xs| - k
  {
    if k == |xs| {
      assert xs[..k] == xs;
    } else {
      SubseqPrefix(xs, k + 1, ys);
      SubseqDelete(xs[..k + 1], k, ys);
      assert xs[..k + 1][..k] + xs[..k + 1][k + 1..] == xs[..k];
    }
  }

  /** `q` without its first occurrence of `x`. */
  function RemoveFirst<T(==)>(q: seq<T>, x: T): (r: seq<T>)
    ensures x !in q ==> r == q
    ensures forall y :: y in r ==> y in q
    ensures |r| <= |q|
  {
    if q == [] then [] else if q[0] == x then q[1..] else [q[0]] + RemoveFirst(q[1..], x)
  }

  lemma {:induction false} RemoveFirstAt<T>(q: seq<T>, x: T, i: nat)
    requires i < |q| && q[i] == x && x !in q[..i]
    ensures RemoveFirst(q, x) == q[..i] + q[i + 1..]
  {
    if i > 0 {
      assert q[0] in q[..i];
      assert q[1..][..i - 1] == q[..i][1..];
      RemoveFirstAt(q[1..], x, i - 1);
    }
  }

  function IndexOf<T(==)>(q: seq<T>, x: T): (i: nat)
    requires x in q
    ensures i < |q| && q[i] == x && x !in q[..i]
  {
    if q[0] == x then 0 else
      var j := IndexOf(q[1..], x);
      assert q[..j + 1] == [q[0]] + q[1..][..j];
      j + 1
  }

  /** `q` without the element at `i`, when that occurs only once. */
  lemma WithoutMembers<T(!new)>(q: seq<T>, i: nat)
    requires NoDup(q) && i < |q|
    ensures forall y :: y in q[..i] + q[i + 1..] <==> y in q && y != q[i]
  {
    var r := q[..i] + q[i + 1..];
    assert q == q[..i] + [q[i]] + q[i + 1..];
    assert q[i] !in r;
  }

  lemma WithoutNoDup<T(!new)>(q: seq<T>, i: nat)
    requires NoDup(q) && i < |q|
    ensures NoDup(q[..i] + q[i + 1..])
  {
  }

  lemma RemoveFirstNoDup<T(!new)>(q: seq<T>, x: T)
    requires NoDup(q)
    ensures NoDup(RemoveFirst(q, x))
    ensures forall y :: y in RemoveFirst(q, x) <==> y in q && y != x
  {
    if x in q {
      var i := IndexOf(q, x);
      RemoveFirstAt(q, x, i);
      WithoutMembers(q, i);
      WithoutNoDup(q, i);
    }
  }
}
