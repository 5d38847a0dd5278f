/** Order-preserving operations on sequences that the queue is built from: selecting, searching,
    dropping one element, and collapsing all matching elements into one replacement. */
module Sequences {

  function Filter<T>(p: T -> bool, s: seq<T>): (r: seq<T>)
  {
    if s == [] then []
    else
      var front := Filter(p, s[..|s| - 1]);
      if p(s[|s| - 1]) then front + [s[|s| - 1]] else front
  }

  /** The index of the first match, or the length when there is none. */
  function First<T>(p: T -> bool, s: seq<T>): (i: nat)
    ensures i <= |s|
    ensures i < |s| ==> p(s[i])
    ensures forall j | 0 <= j < i :: !p(s[j])
  {
    if s == [] then 0
    else
      var front := First(p, s[..|s| - 1]);
      if front < |s| - 1 || p(s[|s| - 1]) then front else |s|
  }

  function Drop<T>(s: seq<T>, i: nat): seq<T>
    requires i < |s|
  {
    s[..i] + s[i + 1..]
  }

  function Count<T>(p: T -> bool, s: seq<T>): nat {
    if s == [] then 0
    else Count(p, s[..|s| - 1]) + (if p(s[|s| - 1]) then 1 else 0)
  }

  /** The first match becomes `y`, the other matches disappear. */
  function Collapse<T>(p: T -> bool, s: seq<T>, y: T): seq<T> {
    if s == [] then []
    else
      var front, last := s[..|s| - 1], s[|s| - 1];
      if !p(last) then Collapse(p, front, y) + [last]
      else if Count(p, front) > 0 then Collapse(p, front, y)
      else Collapse(p, front, y) + [y]
  }

  /** Rewrite each element and keep those the rewriting allows. */
  function Sift<T>(f: T -> (T, bool), s: seq<T>): (r: seq<T>)
    ensures |r| <= |s|
  {
    if s == [] then []
    else
      var front := Sift(f, s[..|s| - 1]);
      var (x, kept) := f(s[|s| - 1]);
      if kept then front + [x] else front
  }

  // ---- Filter ----

  lemma FilterPush<T>(p: T -> bool, s: seq<T>, x: T)
    ensures Filter(p, s + [x]) == Filter(p, s) + (if p(x) then [x] else [])
  {
    assert (s + [x])[..|s|] == s;
  }

  lemma {:induction false} FilterConcat<T>(p: T -> bool, s: seq<T>, t: seq<T>)
    ensures Filter(p, s + t) == Filter(p, s) + Filter(p, t)
  {
    if t == [] {
      assert s + t == s;
    } else {
      var front, last := t[..|t| - 1], t[|t| - 1];
      FilterConcat(p, s, front);
      FilterPush(p, s + front, last);
      assert s + t == (s + front) + [last];
    }
  }

  lemma FilterHead<T>(p: T -> bool, s: seq<T>)
    requires s != []
    ensures Filter(p, s) == (if p(s[0]) then [s[0]] else []) + Filter(p, s[1..])
  {
    assert s == [s[0]] + s[1..];
    FilterConcat(p, [s[0]], s[1..]);
    FilterPush(p, [], s[0]);
    assert [] + [s[0]] == [s[0]];
  }

  /** Dropping one rejected element, or exchanging it for another, selects the same elements. */
  lemma FilterDropAt<T>(p: T -> bool, s: seq<T>, i: nat)
    requires i < |s| && !p(s[i])
    ensures Filter(p, Drop(s, i)) == Filter(p, s)
  {
    assert s == (s[..i] + [s[i]]) + s[i + 1..];
    FilterPush(p, s[..i], s[i]);
    FilterConcat(p, s[..i] + [s[i]], s[i + 1..]);
    FilterConcat(p, s[..i], s[i + 1..]);
  }

  lemma FilterReplace<T>(p: T -> bool, s: seq<T>, i: nat, y: T)
    requires i < |s| && !p(s[i]) && !p(y)
    ensures Filter(p, s[i := y]) == Filter(p, s)
  {
    var t := s[i := y];
    FilterDropAt(p, s, i);
    FilterDropAt(p, t, i);
    assert Drop(t, i) == Drop(s, i);
  }

  // ---- Collapse ----

  lemma CollapseStep<T>(p: T -> bool, s: seq<T>, y: T, i: nat)
    requires i < |s|
    ensures Count(p, s[..i + 1]) == Count(p, s[..i]) + (if p(s[i]) then 1 else 0)
    ensures Collapse(p, s[..i + 1], y) == Collapse(p, s[..i], y)
              + (if !p(s[i]) then [s[i]] else if Count(p, s[..i]) > 0 then [] else [y])
  {
    assert s[..i + 1][..i] == s[..i];
  }

  lemma CountPush<T>(p: T -> bool, s: seq<T>, x: T)
    ensures Count(p, s + [x]) == Count(p, s) + (if p(x) then 1 else 0)
  {
    assert (s + [x])[..|s|] == s;
  }

  /** Collapsing elements that do not count changes the count by the replacement alone. */
  lemma {:induction false} CollapseCount<T(!new)>(p: T -> bool, q: T -> bool, s: seq<T>, y: T)
    requires forall x: T | p(x) :: !q(x)
    ensures Count(q, Collapse(p, s, y)) == Count(q, s) + (if Count(p, s) > 0 && q(y) then 1 else 0)
    decreases |s|
  {
    if s != [] {
      var front := s[..|s| - 1];
      CollapseCount(p, q, front, y);
      CountPush(q, Collapse(p, front, y), s[|s| - 1]);
      CountPush(q, Collapse(p, front, y), y);
    }
  }

  lemma {:induction false} CollapseMembers<T>(p: T -> bool, s: seq<T>, y: T, x: T)
    ensures x in Collapse(p, s, y) <==> (x in s && !p(x)) || (x == y && Count(p, s) > 0)
  {
    if s != [] {
      CollapseMembers(p, s[..|s| - 1], y, x);
      assert s == s[..|s| - 1] + [s[|s| - 1]];
    }
  }

  lemma {:induction false} CollapseLength<T>(p: T -> bool, s: seq<T>, y: T)
    ensures |Collapse(p, s, y)| == |s| - Count(p, s) + (if Count(p, s) > 0 then 1 else 0)
  {
    if s != [] {
      CollapseLength(p, s[..|s| - 1], y);
    }
  }

  lemma {:induction false} CollapseNone<T>(p: T -> bool, s: seq<T>, y: T)
    requires Count(p, s) == 0
    ensures Collapse(p, s, y) == s
  {
    if s != [] {
      CollapseNone(p, s[..|s| - 1], y);
    }
  }

  lemma {:induction false} CountAt<T>(p: T -> bool, s: seq<T>, i: nat)
    requires i < |s| && p(s[i])
    ensures Count(p, s) > 0
  {
    if i < |s| - 1 {
      CountAt(p, s[..|s| - 1], i);
    }
  }

  /** A single match is exchanged where it stands. */
  lemma {:induction false} CollapseSingle<T>(p: T -> bool, s: seq<T>, y: T, i: nat)
    requires i < |s| && p(s[i]) && Count(p, s) == 1
    ensures Collapse(p, s, y) == s[i := y]
    ensures forall j | 0 <= j < |s| && j != i :: !p(s[j])
  {
    var front := s[..|s| - 1];
    if i == |s| - 1 {
      CollapseNone(p, front, y);
      forall j | 0 <= j < |front| ensures !p(s[j]) {
        if p(front[j]) { CountAt(p, front, j); }
      }
    } else {
      CountAt(p, front, i);
      CollapseSingle(p, front, y, i);
    }
  }

  /** Collapsing treats a prefix as if the rest were not there. */
  lemma {:induction false} CollapsePrefix<T>(p: T -> bool, s: seq<T>, y: T, k: nat)
    requires k < |s| && !p(s[k])
    ensures var ahead := |Collapse(p, s[..k], y)|;
            ahead <= k && ahead < |Collapse(p, s, y)| && Collapse(p, s, y)[ahead] == s[k]
  {
    CollapseLength(p, s[..k], y);
    var front := s[..|s| - 1];
    if k < |s| - 1 {
      CollapsePrefix(p, front, y, k);
      assert front[..k] == s[..k];
    }
  }

  /** Elements `q` selects survive a collapse that matches none of them. */
  lemma {:induction false} CollapseFilter<T>(p: T -> bool, s: seq<T>, y: T, q: T -> bool)
    requires !q(y) && forall i | 0 <= i < |s| :: q(s[i]) ==> !p(s[i])
    ensures Filter(q, Collapse(p, s, y)) == Filter(q, s)
  {
    if s != [] {
      var front, last := s[..|s| - 1], s[|s| - 1];
      CollapseFilter(p, front, y, q);
      FilterPush(q, Collapse(p, front, y), last);
      FilterPush(q, Collapse(p, front, y), y);
    }
  }

  lemma {:induction false} CountReplace<T>(p: T -> bool, s: seq<T>, i: nat, y: T)
    requires i < |s| && !p(y)
    ensures Count(p, s[i := y]) == Count(p, s) - (if p(s[i]) then 1 else 0)
  {
    var front := s[..|s| - 1];
    if i == |s| - 1 {
      assert s[i := y][..i] == front;
    } else {
      CountReplace(p, front, i, y);
      assert s[i := y][..|s| - 1] == front[i := y];
    }
  }

  // ---- Sift ----

  /** A kept element lands behind what is kept of those before it. */
  lemma {:induction false} SiftAt<T>(f: T -> (T, bool), s: seq<T>, k: nat)
    requires k < |s| && f(s[k]).1
    ensures var at := |Sift(f, s[..k])|;
            at <= k && at < |Sift(f, s)| && Sift(f, s)[at] == f(s[k]).0
    decreases |s|
  {
    if k < |s| - 1 {
      var front := s[..|s| - 1];
      SiftAt(f, front, k);
      assert front[..k] == s[..k];
    }
  }

  lemma {:induction false} SiftOrdered<T>(f: T -> (T, bool), s: seq<T>, j: nat, k: nat)
    requires j < k <= |s| && f(s[j]).1
    ensures |Sift(f, s[..j])| < |Sift(f, s[..k])|
  {
    SiftAt(f, s[..k], j);
    assert s[..k][..j] == s[..j];
  }

  lemma {:induction false} SiftSame<T>(f: T -> (T, bool), s: seq<T>)
    requires forall i | 0 <= i < |s| :: f(s[i]) == (s[i], true)
    ensures Sift(f, s) == s
  {
    if s != [] {
      SiftSame(f, s[..|s| - 1]);
      assert f(s[|s| - 1]) == (s[|s| - 1], true);
    }
  }
}
