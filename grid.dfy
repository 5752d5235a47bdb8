/**
 * Two-dimensional buffers (numpy arrays of shape (rows, columns)) and their
 * values. A buffer is an `array2`; its value is a sequence of rows.
 */
module Grid {

  /** The value of a two-dimensional array: a sequence of rows. */
  type Mat<T> = seq<seq<T>>

  predicate IsMat<T>(m: Mat<T>, rows: nat, cols: nat)
  {
    |m| == rows && forall i :: 0 <= i < rows ==> |m[i]| == cols
  }

  /** The current contents of a buffer. */
  function Snapshot<T>(a: array2<T>): (m: Mat<T>)
    reads a
    ensures IsMat(m, a.Length0, a.Length1)
    ensures forall i, j :: 0 <= i < a.Length0 && 0 <= j < a.Length1 ==> m[i][j] == a[i, j]
  {
    seq(a.Length0, i requires 0 <= i < a.Length0 reads a =>
      seq(a.Length1, j requires 0 <= j < a.Length1 reads a => a[i, j]))
  }

  /** Column `j` of a buffer, `a[:, j]`. */
  function Column<T>(a: array2<T>, j: nat): (c: seq<T>)
    requires j < a.Length1
    reads a
    ensures |c| == a.Length0
    ensures forall i :: 0 <= i < a.Length0 ==> c[i] == a[i, j]
  {
    seq(a.Length0, i requires 0 <= i < a.Length0 reads a => a[i, j])
  }

  /** Row `i` of a buffer, `a[i, :]`. */
  function Row<T>(a: array2<T>, i: nat): (r: seq<T>)
    requires i < a.Length0
    reads a
    ensures |r| == a.Length1
    ensures forall j :: 0 <= j < a.Length1 ==> r[j] == a[i, j]
  {
    seq(a.Length1, j requires 0 <= j < a.Length1 reads a => a[i, j])
  }

  /** Column `j` of a value. */
  function Col<T>(m: Mat<T>, j: nat): (c: seq<T>)
    requires forall i :: 0 <= i < |m| ==> j < |m[i]|
    ensures |c| == |m|
    ensures forall i :: 0 <= i < |m| ==> c[i] == m[i][j]
  {
    seq(|m|, i requires 0 <= i < |m| => m[i][j])
  }

  /** Two values of the same shape that agree everywhere are equal. */
  lemma SameEntries<T>(m: Mat<T>, n: Mat<T>, rows: nat, cols: nat)
    requires IsMat(m, rows, cols) && IsMat(n, rows, cols)
    requires forall i, j :: 0 <= i < rows && 0 <= j < cols ==> m[i][j] == n[i][j]
    ensures m == n
  {
    forall i | 0 <= i < rows
      ensures m[i] == n[i]
    {
      assert |m[i]| == |n[i]| == cols;
    }
  }

  /** All rows but the last (`m[:-1]`), the slice the solvers hand to their kernels. */
  function Top<T>(m: Mat<T>): (r: Mat<T>)
    requires |m| >= 1
    ensures |r| == |m| - 1 && forall i :: 0 <= i < |r| ==> r[i] == m[i]
  {
    m[..|m| - 1]
  }

  /** `m` with rows `i < k` replaced by `f(i, j)`: the value after `m[:k, :] = ...`. */
  function Overlay<T>(m: Mat<T>, k: nat, f: (nat, nat) -> T): (r: Mat<T>)
    ensures |r| == |m| && forall i :: 0 <= i < |m| ==> |r[i]| == |m[i]|
    ensures forall i, j :: 0 <= i < |m| && 0 <= j < |m[i]| ==>
      r[i][j] == if i < k then f(i, j) else m[i][j]
  {
    seq(|m|, i requires 0 <= i < |m| =>
      if i < k then seq(|m[i]|, j requires 0 <= j < |m[i]| => f(i, j)) else m[i])
  }

  /** `s` with entries `i < k` replaced by `f(i)`: the value after `s[:k] = ...`. */
  function OverlaySeq<T>(s: seq<T>, k: nat, f: nat -> T): (r: seq<T>)
    ensures |r| == |s| && forall i :: 0 <= i < |s| ==> r[i] == if i < k then f(i) else s[i]
  {
    seq(|s|, i requires 0 <= i < |s| => if i < k then f(i) else s[i])
  }

  /** `a[i, j] = x` for every `i < k`, all of row `i` (the slice `a[:k, :]`). */
  method WriteRows<T>(a: array2<T>, k: nat, f: (nat, nat) -> T)
    requires k <= a.Length0
    modifies a
    ensures forall i, j :: 0 <= i < a.Length0 && 0 <= j < a.Length1 ==>
      a[i, j] == if i < k then f(i, j) else old(a[i, j])
    ensures Snapshot(a) == Overlay(old(Snapshot(a)), k, f)
  {
    ghost var before := Snapshot(a);
    var i := 0;
    while i < k
      invariant 0 <= i <= k
      invariant forall p, q :: 0 <= p < a.Length0 && 0 <= q < a.Length1 ==>
        a[p, q] == if p < i then f(p, q) else old(a[p, q])
    {
      var j := 0;
      while j < a.Length1
        invariant 0 <= j <= a.Length1
        invariant forall p, q :: 0 <= p < a.Length0 && 0 <= q < a.Length1 ==>
          a[p, q] == if p < i || (p == i && q < j) then f(p, q) else old(a[p, q])
      {
        a[i, j] := f(i, j);
        j := j + 1;
      }
      i := i + 1;
    }
    SameEntries(Snapshot(a), Overlay(before, k, f), a.Length0, a.Length1);
  }

  /** `a[i] = f(i)` for every `i < k` (the slice `a[:k]`). */
  method WritePrefix<T>(a: array<T>, k: nat, f: nat -> T)
    requires k <= a.Length
    modifies a
    ensures a[..] == OverlaySeq(old(a[..]), k, f)
  {
    var i := 0;
    while i < k
      invariant 0 <= i <= k
      invariant forall p :: 0 <= p < a.Length ==> a[p] == if p < i then f(p) else old(a[p])
    {
      a[i] := f(i);
      i := i + 1;
    }
  }

  /** `m` with column `j` replaced by `v`: the value after `m[:, j] = v`. */
  function WithColumn<T>(m: Mat<T>, j: nat, v: seq<T>): (r: Mat<T>)
    requires |v| == |m|
    ensures |r| == |m| && forall i :: 0 <= i < |m| ==> |r[i]| == |m[i]|
    ensures forall i, q :: 0 <= i < |m| && 0 <= q < |m[i]| ==> r[i][q] == if q == j then v[i] else m[i][q]
  {
    seq(|m|, i requires 0 <= i < |m| => if j < |m[i]| then m[i][j := v[i]] else m[i])
  }

  /** `a[:, j] = v`. */
  method WriteColumn<T>(a: array2<T>, j: nat, v: seq<T>)
    requires j < a.Length1 && |v| == a.Length0
    modifies a
    ensures forall p, q :: 0 <= p < a.Length0 && 0 <= q < a.Length1 ==>
      a[p, q] == if q == j then v[p] else old(a[p, q])
    ensures Snapshot(a) == WithColumn(old(Snapshot(a)), j, v)
  {
    ghost var before := Snapshot(a);
    var i := 0;
    while i < a.Length0
      invariant 0 <= i <= a.Length0
      invariant forall p, q :: 0 <= p < a.Length0 && 0 <= q < a.Length1 ==>
        a[p, q] == if q == j && p < i then v[p] else old(a[p, q])
    {
      a[i, j] := v[i];
      i := i + 1;
    }
    SameEntries(Snapshot(a), WithColumn(before, j, v), a.Length0, a.Length1);
  }

  /** `a[i, :] = v`. */
  method WriteRow<T>(a: array2<T>, i: nat, v: seq<T>)
    requires i < a.Length0 && |v| == a.Length1
    modifies a
    ensures forall p, q :: 0 <= p < a.Length0 && 0 <= q < a.Length1 ==>
      a[p, q] == if p == i then v[q] else old(a[p, q])
    ensures Snapshot(a) == old(Snapshot(a))[i := v]
  {
    ghost var before := Snapshot(a);
    var j := 0;
    while j < a.Length1
      invariant 0 <= j <= a.Length1
      invariant forall p, q :: 0 <= p < a.Length0 && 0 <= q < a.Length1 ==>
        a[p, q] == if p == i && q < j then v[q] else old(a[p, q])
    {
      a[i, j] := v[j];
      j := j + 1;
    }
    SameEntries(Snapshot(a), before[i := v], a.Length0, a.Length1);
  }

  /** `a[i, j] = v`: one entry. */
  method WriteEntry<T>(a: array2<T>, i: nat, j: nat, v: T)
    requires i < a.Length0 && j < a.Length1
    modifies a
    ensures Snapshot(a) == old(Snapshot(a))[i := old(Snapshot(a))[i][j := v]]
  {
    ghost var before := Snapshot(a);
    a[i, j] := v;
    SameEntries(Snapshot(a), before[i := before[i][j := v]], a.Length0, a.Length1);
  }

  /** A fresh buffer holding `m`, as `np.array(m)`. */
  method FromMat<T>(m: Mat<T>, rows: nat, cols: nat) returns (a: array2<T>)
    requires IsMat(m, rows, cols)
    ensures fresh(a) && a.Length0 == rows && a.Length1 == cols && Snapshot(a) == m
  {
    a := new T[rows, cols]((i: nat, j: nat) requires i < rows && j < cols => m[i][j]);
    SameEntries(Snapshot(a), m, rows, cols);
  }

  /** `a[:] = m` for a value `m` of the buffer's shape. */
  method WriteMat<T>(a: array2<T>, m: Mat<T>)
    requires IsMat(m, a.Length0, a.Length1)
    modifies a
    ensures Snapshot(a) == m
  {
    var i := 0;
    while i < a.Length0
      invariant 0 <= i <= a.Length0
      invariant forall p, q :: 0 <= p < i && 0 <= q < a.Length1 ==> a[p, q] == m[p][q]
    {
      var j := 0;
      while j < a.Length1
        invariant 0 <= j <= a.Length1
        invariant forall p, q :: 0 <= p < a.Length0 && 0 <= q < a.Length1 && (p < i || (p == i && q < j)) ==>
          a[p, q] == m[p][q]
      {
        a[i, j] := m[i][j];
        j := j + 1;
      }
      i := i + 1;
    }
    SameEntries(Snapshot(a), m, a.Length0, a.Length1);
  }

  /** `dst[:] = src` for two distinct buffers of one shape. */
  method CopyInto<T>(src: array2<T>, dst: array2<T>)
    requires src != dst
    requires src.Length0 == dst.Length0 && src.Length1 == dst.Length1
    modifies dst
    ensures Snapshot(dst) == Snapshot(src)
  {
    var i := 0;
    while i < dst.Length0
      invariant 0 <= i <= dst.Length0
      invariant forall p, q :: 0 <= p < i && 0 <= q < dst.Length1 ==> dst[p, q] == src[p, q]
    {
      var j := 0;
      while j < dst.Length1
        invariant 0 <= j <= dst.Length1
        invariant forall p, q :: 0 <= p < dst.Length0 && 0 <= q < dst.Length1 && (p < i || (p == i && q < j)) ==>
          dst[p, q] == src[p, q]
      {
        dst[i, j] := src[i, j];
        j := j + 1;
      }
      i := i + 1;
    }
    SameEntries(Snapshot(dst), Snapshot(src), src.Length0, src.Length1);
  }

  // ---------------------------------------------------------------------
  // Three-dimensional buffers of shape (rows, slots, columns), read slot by slot.

  /** The contents of `a`, indexed `[slot][row][column]` for `a[row, slot, column]`. */
  function Snapshot3<T>(a: array3<T>): (s: seq<Mat<T>>)
    reads a
    ensures |s| == a.Length1
    ensures forall k :: 0 <= k < a.Length1 ==> IsMat(s[k], a.Length0, a.Length2)
    ensures forall i, k, j :: 0 <= i < a.Length0 && 0 <= k < a.Length1 && 0 <= j < a.Length2 ==>
      |s[k]| == a.Length0 && |s[k][i]| == a.Length2 && s[k][i][j] == a[i, k, j]
  {
    seq(a.Length1, k requires 0 <= k < a.Length1 reads a =>
      seq(a.Length0, i requires 0 <= i < a.Length0 reads a =>
        seq(a.Length2, j requires 0 <= j < a.Length2 reads a => a[i, k, j])))
  }

  /** `a[:, k, :] = m`: slot `k` takes the value `m`, every other slot is kept. */
  method WriteSlot<T>(a: array3<T>, k: nat, m: Mat<T>)
    requires k < a.Length1 && IsMat(m, a.Length0, a.Length2)
    modifies a
    ensures Snapshot3(a) == old(Snapshot3(a))[k := m]
  {
    ghost var before := Snapshot3(a);
    var i := 0;
    while i < a.Length0
      invariant 0 <= i <= a.Length0
      invariant forall p, r, q :: 0 <= p < a.Length0 && 0 <= r < a.Length1 && 0 <= q < a.Length2 ==>
        a[p, r, q] == if r == k && p < i then m[p][q] else old(a[p, r, q])
    {
      var j := 0;
      while j < a.Length2
        invariant 0 <= j <= a.Length2
        invariant forall p, r, q :: 0 <= p < a.Length0 && 0 <= r < a.Length1 && 0 <= q < a.Length2 ==>
          a[p, r, q] == if r == k && (p < i || (p == i && q < j)) then m[p][q] else old(a[p, r, q])
      {
        a[i, k, j] := m[i][j];
        j := j + 1;
      }
      i := i + 1;
    }
    var after := Snapshot3(a);
    forall r | 0 <= r < a.Length1
      ensures after[r] == before[k := m][r]
    {
      SameEntries(after[r], before[k := m][r], a.Length0, a.Length2);
    }
  }

  /** The contents of `a`, indexed `[channel][row][column]` for `a[row, column, channel]`. */
  function Channels<T>(a: array3<T>): (s: seq<Mat<T>>)
    reads a
    ensures |s| == a.Length2
    ensures forall c :: 0 <= c < a.Length2 ==> IsMat(s[c], a.Length0, a.Length1)
    ensures forall i, j, c :: 0 <= i < a.Length0 && 0 <= j < a.Length1 && 0 <= c < a.Length2 ==>
      |s[c]| == a.Length0 && |s[c][i]| == a.Length1 && s[c][i][j] == a[i, j, c]
  {
    seq(a.Length2, c requires 0 <= c < a.Length2 reads a =>
      seq(a.Length0, i requires 0 <= i < a.Length0 reads a =>
        seq(a.Length1, j requires 0 <= j < a.Length1 reads a => a[i, j, c])))
  }

  /** `a[:, :, c] = m`: channel `c` takes the value `m`, the other channels are kept. */
  method WriteChannel<T>(a: array3<T>, c: nat, m: Mat<T>)
    requires c < a.Length2 && IsMat(m, a.Length0, a.Length1)
    modifies a
    ensures Channels(a) == old(Channels(a))[c := m]
  {
    ghost var before := Channels(a);
    var i := 0;
    while i < a.Length0
      invariant 0 <= i <= a.Length0
      invariant forall p, q, r :: 0 <= p < a.Length0 && 0 <= q < a.Length1 && 0 <= r < a.Length2 ==>
        a[p, q, r] == if r == c && p < i then m[p][q] else old(a[p, q, r])
    {
      var j := 0;
      while j < a.Length1
        invariant 0 <= j <= a.Length1
        invariant forall p, q, r :: 0 <= p < a.Length0 && 0 <= q < a.Length1 && 0 <= r < a.Length2 ==>
          a[p, q, r] == if r == c && (p < i || (p == i && q < j)) then m[p][q] else old(a[p, q, r])
      {
        a[i, j, c] := m[i][j];
        j := j + 1;
      }
      i := i + 1;
    }
    var after := Channels(a);
    forall r | 0 <= r < a.Length2
      ensures after[r] == before[c := m][r]
    {
      SameEntries(after[r], before[c := m][r], a.Length0, a.Length1);
    }
  }

  // ---------------------------------------------------------------------

  /** `np.argmax`: the first index of a largest entry. */
  function FirstArgMax(s: seq<real>): (k: nat)
    requires |s| >= 1
    ensures k < |s|
    ensures forall j :: 0 <= j < |s| ==> s[j] <= s[k]
    ensures forall j :: 0 <= j < k ==> s[j] < s[k]
  {
    if |s| == 1 then 0
    else
      var k := FirstArgMax(s[..|s| - 1]);
      if s[|s| - 1] > s[k] then |s| - 1 else k
  }
}
