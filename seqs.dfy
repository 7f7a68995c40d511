/** Concatenating the sequences a function gives for each element of a sequence. */
module Sequences {
  /** `f(xs[0]) + f(xs[1]) + ...`: the nested `foreach` that appends every result. */
  function ConcatMap<T, U>(xs: seq<T>, f: T -> seq<U>): seq<U> {
    if xs == [] then []
    else ConcatMap(xs[..|xs| - 1], f) + f(xs[|xs| - 1])
  }

  lemma ConcatMapSnoc<T, U>(xs: seq<T>, f: T -> seq<U>, i: nat)
    requires i < |xs|
    ensures ConcatMap(xs[..i + 1], f) == ConcatMap(xs[..i], f) + f(xs[i])
  {
    assert xs[..i + 1][..i] == xs[..i];
  }

  /** One more block of `p`. */
  lemma MulSucc(n: nat, p: nat)
    ensures (n + 1) * p == n * p + p
  {
  }

  /** Blocks of equal length `p` add up to `|xs| * p` elements. */
  lemma {:induction false} ConcatMapCount<T, U>(xs: seq<T>, f: T -> seq<U>, p: nat)
    requires forall i :: 0 <= i < |xs| ==> |f(xs[i])| == p
    ensures |ConcatMap(xs, f)| == |xs| * p
  {
    if xs != [] {
      var n := |xs| - 1;
      ConcatMapCount(xs[..n], f, p);
      MulSucc(n, p);
    }
  }

  /** An element of the concatenation comes from the block of some element, and every block is there. */
  lemma {:induction false} ConcatMapMembership<T, U>(xs: seq<T>, f: T -> seq<U>, y: U)
    ensures y in ConcatMap(xs, f) <==> exists i :: 0 <= i < |xs| && y in f(xs[i])
  {
    if xs != [] {
      var n := |xs| - 1;
      ConcatMapMembership(xs[..n], f, y);
      if i :| 0 <= i < |xs| && y in f(xs[i]) {
        if i < n {
          assert xs[..n][i] == xs[i];
        }
      }
      if i :| 0 <= i < n && y in f(xs[..n][i]) {
        assert xs[..n][i] == xs[i];
      }
    }
  }

  /** The blocks of two sequences, one after the other. */
  lemma {:induction false} ConcatMapAppend<T, U>(xs: seq<T>, ys: seq<T>, f: T -> seq<U>)
    ensures ConcatMap(xs + ys, f) == ConcatMap(xs, f) + ConcatMap(ys, f)
  {
    if ys != [] {
      var n := |ys| - 1;
      ConcatMapAppend(xs, ys[..n], f);
      assert (xs + ys)[..|xs + ys| - 1] == xs + ys[..n];
      assert (xs + ys)[|xs + ys| - 1] == ys[n];
    } else {
      assert xs + ys == xs;
    }
  }

  /** With one element per block, element `i` is the block of `xs[i]`. */
  lemma {:induction false} ConcatMapUnitAt<T, U>(xs: seq<T>, f: T -> seq<U>, i: nat)
    requires forall j :: 0 <= j < |xs| ==> |f(xs[j])| == 1
    requires i < |xs|
    ensures |ConcatMap(xs, f)| == |xs|
    ensures ConcatMap(xs, f)[i] == f(xs[i])[0]
  {
    var n := |xs| - 1;
    ConcatMapCount(xs, f, 1);
    ConcatMapCount(xs[..n], f, 1);
    if i < n {
      ConcatMapUnitAt(xs[..n], f, i);
      assert xs[..n][i] == xs[i];
    }
  }

  /** The concatenation is empty exactly when every block is. */
  lemma {:induction false} ConcatMapEmpty<T, U>(xs: seq<T>, f: T -> seq<U>)
    ensures ConcatMap(xs, f) == [] <==> forall i :: 0 <= i < |xs| ==> f(xs[i]) == []
  {
    if xs != [] {
      var n := |xs| - 1;
      ConcatMapEmpty(xs[..n], f);
      if ConcatMap(xs, f) == [] {
        forall i | 0 <= i < |xs| ensures f(xs[i]) == [] {
          if i < n {
            assert xs[..n][i] == xs[i];
          }
        }
      }
      if forall i :: 0 <= i < |xs| ==> f(xs[i]) == [] {
        forall i | 0 <= i < n ensures f(xs[..n][i]) == [] {
          assert xs[..n][i] == xs[i];
        }
      }
    }
  }
}
