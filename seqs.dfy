/** Sequence operations used to build the flat image and path lists. */
module Seqs {

  /** Python's `xs * k`: `k` copies of `xs`, empty when `k <= 0`. */
  function PyRepeat<T>(xs: seq<T>, k: int): seq<T>
    decreases if k <= 0 then 0 else k
  {
    if k <= 0 then [] else xs + PyRepeat(xs, k - 1)
  }

  function Max0(k: int): nat { if k <= 0 then 0 else k }

  /** Repeating a list whose elements all equal `x` gives `|xs| * max(k, 0)` copies of `x`. */
  lemma {:induction false} PyRepeatUniform<T>(xs: seq<T>, x: T, k: int)
    requires forall i :: 0 <= i < |xs| ==> xs[i] == x
    ensures |PyRepeat(xs, k)| == |xs| * Max0(k)
    ensures forall i :: 0 <= i < |PyRepeat(xs, k)| ==> PyRepeat(xs, k)[i] == x
    decreases if k <= 0 then 0 else k
  {
    if k > 0 {
      PyRepeatUniform(xs, x, k - 1);
      assert |xs| * Max0(k) == |xs| + |xs| * Max0(k - 1);
    }
  }

  /** Concatenation of a list of lists, in order (Python's repeated `extend`). */
  function Flatten<T>(xss: seq<seq<T>>): seq<T>
    decreases |xss|
  {
    if |xss| == 0 then [] else Flatten(xss[..|xss| - 1]) + xss[|xss| - 1]
  }

  lemma {:induction false} FlattenAppend<T>(a: seq<seq<T>>, b: seq<seq<T>>)
    ensures Flatten(a + b) == Flatten(a) + Flatten(b)
    decreases |b|
  {
    if |b| == 0 {
      assert a + b == a;
    } else {
      var b' := b[..|b| - 1];
      assert (a + b)[..|a + b| - 1] == a + b';
      FlattenAppend(a, b');
    }
  }

  /** Element `t` of the `i`-th list sits at offset `|Flatten(xss[..i])| + t` of the flattening. */
  lemma FlattenAt<T>(xss: seq<seq<T>>, i: nat, t: nat)
    requires i < |xss| && t < |xss[i]|
    ensures |Flatten(xss[..i])| + t < |Flatten(xss)|
    ensures Flatten(xss)[|Flatten(xss[..i])| + t] == xss[i][t]
  {
    assert xss == xss[..i] + [xss[i]] + xss[i + 1..];
    FlattenAppend(xss[..i] + [xss[i]], xss[i + 1..]);
    FlattenAppend(xss[..i], [xss[i]]);
    assert [xss[i]][..0] == [];
  }

  /** Lists of lists with pointwise equal lengths flatten to equal lengths. */
  lemma {:induction false} FlattenSameShape<T, U>(a: seq<seq<T>>, b: seq<seq<U>>)
    requires |a| == |b|
    requires forall i :: 0 <= i < |a| ==> |a[i]| == |b[i]|
    ensures |Flatten(a)| == |Flatten(b)|
    decreases |a|
  {
    if |a| > 0 {
      FlattenSameShape(a[..|a| - 1], b[..|b| - 1]);
    }
  }

  /** Two lists of lists of the same shape flatten to lists of one length, where element `t` of
      the `i`-th lists sits at the same offset in both. */
  lemma FlattenAligned<T, U>(a: seq<seq<T>>, b: seq<seq<U>>, i: nat, t: nat)
    requires |a| == |b|
    requires forall j :: 0 <= j < |a| ==> |a[j]| == |b[j]|
    requires i < |a| && t < |a[i]|
    ensures |Flatten(a)| == |Flatten(b)|
    ensures |Flatten(a[..i])| + t < |Flatten(a)|
    ensures Flatten(a)[|Flatten(a[..i])| + t] == a[i][t]
    ensures Flatten(b)[|Flatten(a[..i])| + t] == b[i][t]
  {
    FlattenSameShape(a, b);
    FlattenSameShape(a[..i], b[..i]);
    FlattenAt(a, i, t);
    FlattenAt(b, i, t);
  }

  lemma AppendAssoc<T>(a: seq<T>, b: seq<T>, c: seq<T>)
    ensures (a + b) + c == a + (b + c)
  {
  }
}
