/** The same operations on a fixed buffer that is rewritten in place. */
module Buffers {
  import opened Sequences

  /** Shift the entries after `i` down by one and clear the last slot. */
  method RemoveAt<T>(a: array<T>, n: nat, i: nat, zero: T)
    requires i < n <= a.Length
    modifies a
    ensures a[..n - 1] == Drop(old(a[..n]), i)
    ensures forall k | n - 1 <= k < a.Length :: a[k] == if k == n - 1 then zero else old(a[k])
  {
    var j := i;
    while j < n - 1
      invariant i <= j <= n - 1
      invariant forall k | 0 <= k < i || j <= k < a.Length :: a[k] == old(a[k])
      invariant forall k | i <= k < j :: a[k] == old(a[k + 1])
    {
      a[j] := a[j + 1];
      j := j + 1;
    }
    a[n - 1] := zero;
    ghost var was := old(a[..n]);
    assert forall k | 0 <= k < n - 1 :: a[k] == if k < i then was[k] else was[k + 1];
  }

  /** Clear the slots from `from` to `to`. */
  method Clear<T>(a: array<T>, from: nat, to: nat, zero: T)
    requires from <= to <= a.Length
    modifies a
    ensures forall k | 0 <= k < a.Length :: a[k] == if from <= k < to then zero else old(a[k])
  {
    var j := from;
    while j < to
      invariant from <= j <= to
      invariant forall k | 0 <= k < a.Length :: a[k] == if from <= k < j then zero else old(a[k])
    {
      a[j] := zero;
      j := j + 1;
    }
  }

  /** Add a value to the kept front of the buffer. */
  method Keep<T>(a: array<T>, kept: nat, value: T)
    requires kept < a.Length
    modifies a
    ensures a[..kept + 1] == old(a[..kept]) + [value]
    ensures forall k | kept < k < a.Length :: a[k] == old(a[k])
  {
    a[kept] := value;
  }

  method Find<T>(a: array<T>, n: nat, p: T -> bool) returns (index: nat)
    requires n <= a.Length
    ensures index == First(p, a[..n])
  {
    index := 0;
    while index < n && !p(a[index])
      invariant 0 <= index <= n
      invariant forall k | 0 <= k < index :: !p(a[..n][k])
    {
      index := index + 1;
    }
    assert index < n ==> p(a[..n][index]);
  }

  /** The read index runs ahead of the write index over the same buffer. */
  method CollapseInPlace<T>(a: array<T>, n: nat, p: T -> bool, y: T, zero: T) returns (kept: nat, inserted: bool)
    requires n <= a.Length
    modifies a
    ensures kept <= n && a[..kept] == Collapse(p, old(a[..n]), y)
    ensures inserted == (Count(p, old(a[..n])) > 0)
    ensures forall k | kept <= k < a.Length :: a[k] == if k < n then zero else old(a[k])
  {
    ghost var lane := a[..n];
    kept, inserted := 0, false;
    var i := 0;
    while i < n
      invariant 0 <= kept <= i <= n
      invariant a[..kept] == Collapse(p, lane[..i], y)
      invariant forall k | i <= k < a.Length :: a[k] == old(a[k])
      invariant inserted == (Count(p, lane[..i]) > 0)
    {
      var queued := a[i];
      assert queued == lane[i];
      CollapseStep(p, lane, y, i);
      if p(queued) {
        if !inserted {
          Keep(a, kept, y);
          kept := kept + 1;
          inserted := true;
        }
      } else {
        Keep(a, kept, queued);
        kept := kept + 1;
      }
      i := i + 1;
    }
    assert lane[..i] == lane;
    ghost var done := a[..kept];
    Clear(a, kept, n, zero);
    assert a[..kept] == done;
  }

  method SiftInPlace<T>(a: array<T>, n: nat, f: T -> (T, bool), zero: T) returns (kept: nat)
    requires n <= a.Length
    modifies a
    ensures kept <= n && a[..kept] == Sift(f, old(a[..n]))
    ensures forall k | kept <= k < a.Length :: a[k] == if k < n then zero else old(a[k])
  {
    ghost var lane := a[..n];
    kept := 0;
    var i := 0;
    while i < n
      invariant 0 <= kept <= i <= n
      invariant a[..kept] == Sift(f, lane[..i])
      invariant forall k | i <= k < a.Length :: a[k] == old(a[k])
    {
      assert a[i] == lane[i] && lane[..i + 1][..i] == lane[..i];
      var (value, ok) := f(a[i]);
      if ok {
        Keep(a, kept, value);
        kept := kept + 1;
      }
      i := i + 1;
    }
    assert lane[..i] == lane;
    ghost var done := a[..kept];
    Clear(a, kept, n, zero);
    assert a[..kept] == done;
  }
}
