/** The frame operations the builders are made of. A frame is a sequence of
    rows: boolean-mask selection is Filter, `sort_values` is SortBy, a
    column computed from each row is Map, and an in-place column assignment
    `df[col] = ...` is Assign over an array of rows. */
module Frame {

  /** A column computed row by row. */
  function Map<A, B>(f: A -> B, s: seq<A>): (r: seq<B>)
    ensures |r| == |s|
    ensures forall k :: 0 <= k < |s| ==> r[k] == f(s[k])
  {
    if s == [] then [] else [f(s[0])] + Map(f, s[1..])
  }

  /** Boolean-mask selection `df.loc[p(df)]`: the rows satisfying p, in their
      original order. */
  function Filter<T>(p: T -> bool, s: seq<T>): (r: seq<T>)
    ensures |r| <= |s|
    ensures forall k :: 0 <= k < |r| ==> p(r[k])
  {
    if s == [] then [] else (if p(s[0]) then [s[0]] else []) + Filter(p, s[1..])
  }

  /** A row is selected exactly when it is a row of the frame that passes. */
  lemma {:induction false} FilterMembers<T>(p: T -> bool, s: seq<T>)
    ensures forall k :: 0 <= k < |Filter(p, s)| ==> Filter(p, s)[k] in s
    ensures forall k :: 0 <= k < |s| && p(s[k]) ==> s[k] in Filter(p, s)
  {
    if s != [] {
      FilterMembers(p, s[1..]);
      var head := if p(s[0]) then [s[0]] else [];
      assert Filter(p, s) == head + Filter(p, s[1..]);
      forall k | 1 <= k < |s| && p(s[k])
        ensures s[k] in Filter(p, s)
      {
        assert s[1..][k - 1] == s[k];
      }
    }
  }

  /** Membership form of FilterMembers for one row. */
  lemma SelectedRow<T>(p: T -> bool, s: seq<T>, x: T)
    requires x in Filter(p, s)
    ensures x in s && p(x)
  {
    FilterMembers(p, s);
    var k :| 0 <= k < |Filter(p, s)| && Filter(p, s)[k] == x;
  }

  /** The number of rows satisfying p. */
  function Count<T>(p: T -> bool, s: seq<T>): nat
  {
    if s == [] then 0 else (if p(s[0]) then 1 else 0) + Count(p, s[1..])
  }

  lemma {:induction false} FilterLength<T>(p: T -> bool, s: seq<T>)
    ensures |Filter(p, s)| == Count(p, s)
  {
    if s != [] {
      FilterLength(p, s[1..]);
    }
  }

  /** Where the first row of s sits in an arrangement t of it: taking it
      out of both leaves two arrangements of the same rows. */
  lemma Pick<T>(s: seq<T>, t: seq<T>) returns (i: nat)
    requires s != [] && multiset(s) == multiset(t)
    ensures i < |t| && t[i] == s[0]
    ensures t == t[..i] + [s[0]] + t[i + 1..]
    ensures s == [s[0]] + s[1..]
    ensures multiset(s[1..]) == multiset(t[..i] + t[i + 1..])
  {
    var x := s[0];
    assert x in multiset(t);
    var j :| 0 <= j < |t| && t[j] == x;
    i := j;
    var rest := t[..i] + t[i + 1..];
    assert t == t[..i] + [x] + t[i + 1..];
    assert s == [x] + s[1..];
    assert multiset(t) == multiset(t[..i]) + multiset{x} + multiset(t[i + 1..]);
    assert multiset(s) == multiset{x} + multiset(s[1..]);
    assert multiset(rest) == multiset(t[..i]) + multiset(t[i + 1..]);
    assert multiset(s[1..]) == multiset(s) - multiset{x};
    assert multiset(rest) == multiset(t) - multiset{x};
  }

  /** Selecting from two arrangements of the same rows gives two arrangements
      of the same selected rows. */
  lemma {:induction false} FilterPermutation<T>(p: T -> bool, s: seq<T>, t: seq<T>)
    requires multiset(s) == multiset(t)
    ensures multiset(Filter(p, s)) == multiset(Filter(p, t))
    decreases |s|
  {
    if s == [] {
      assert |t| == |multiset(t)| == 0;
    } else {
      var x := s[0];
      var i := Pick(s, t);
      var rest := t[..i] + t[i + 1..];
      FilterPermutation(p, s[1..], rest);
      FilterAppend(p, t[..i] + [x], t[i + 1..]);
      FilterAppend(p, t[..i], [x]);
      FilterAppend(p, t[..i], t[i + 1..]);
      FilterAppend(p, [x], s[1..]);
    }
  }

  /** Two selections in a row are one selection by the conjunction. */
  lemma {:induction false} FilterFilter<T>(p: T -> bool, q: T -> bool, both: T -> bool, s: seq<T>)
    requires forall x :: both(x) == (q(x) && p(x))
    ensures Filter(p, Filter(q, s)) == Filter(both, s)
  {
    if s != [] {
      FilterFilter(p, q, both, s[1..]);
      FilterAppend(p, if q(s[0]) then [s[0]] else [], Filter(q, s[1..]));
    }
  }

  lemma {:induction false} FilterAppend<T>(p: T -> bool, a: seq<T>, b: seq<T>)
    ensures Filter(p, a + b) == Filter(p, a) + Filter(p, b)
  {
    if a != [] {
      var head := if p(a[0]) then [a[0]] else [];
      assert (a + b)[0] == a[0];
      assert (a + b)[1..] == a[1..] + b;
      FilterAppend(p, a[1..], b);
      calc {
        Filter(p, a + b);
        head + Filter(p, a[1..] + b);
        head + (Filter(p, a[1..]) + Filter(p, b));
        (head + Filter(p, a[1..])) + Filter(p, b);
        Filter(p, a) + Filter(p, b);
      }
    } else {
      assert a + b == b;
    }
  }

  /** Selecting on a computed column is computing the column on the
      selected rows, when q is p read through f. */
  lemma {:induction false} FilterMap<A, B>(p: B -> bool, f: A -> B, q: A -> bool, s: seq<A>)
    requires forall x :: q(x) == p(f(x))
    ensures Filter(p, Map(f, s)) == Map(f, Filter(q, s))
  {
    if s != [] {
      FilterMap(p, f, q, s[1..]);
      assert Map(f, s) == [f(s[0])] + Map(f, s[1..]);
      FilterAppend(p, [f(s[0])], Map(f, s[1..]));
      MapAppend(f, if q(s[0]) then [s[0]] else [], Filter(q, s[1..]));
    }
  }

  lemma MapAppend<A, B>(f: A -> B, a: seq<A>, b: seq<A>)
    ensures Map(f, a + b) == Map(f, a) + Map(f, b)
  {
    assert |Map(f, a + b)| == |Map(f, a) + Map(f, b)|;
    forall k | 0 <= k < |a + b|
      ensures Map(f, a + b)[k] == (Map(f, a) + Map(f, b))[k]
    {
      if k < |a| {
        assert (a + b)[k] == a[k];
      } else {
        assert (a + b)[k] == b[k - |a|];
      }
    }
  }

  /** Computing a column on two arrangements of the same rows gives two
      arrangements of the same values. */
  lemma {:induction false} MapPermutation<A, B>(f: A -> B, s: seq<A>, t: seq<A>)
    requires multiset(s) == multiset(t)
    ensures multiset(Map(f, s)) == multiset(Map(f, t))
    decreases |s|
  {
    if s == [] {
      assert |t| == |multiset(t)| == 0;
    } else {
      var x := s[0];
      var i := Pick(s, t);
      var rest := t[..i] + t[i + 1..];
      MapPermutation(f, s[1..], rest);
      MapAppend(f, t[..i] + [x], t[i + 1..]);
      MapAppend(f, t[..i], [x]);
      MapAppend(f, t[..i], t[i + 1..]);
      assert Map(f, s) == [f(x)] + Map(f, s[1..]);
    }
  }

  /** Computing two columns in turn is computing their composition. */
  lemma MapCompose<A, B, C>(g: B -> C, f: A -> B, h: A -> C, s: seq<A>)
    requires forall x :: g(f(x)) == h(x)
    ensures Map(g, Map(f, s)) == Map(h, s)
  {
  }

  /** A column computed over any arrangement of the selected rows: one
      output row per selected row, the same output rows as computing it over
      the selection itself, and each output row computed from a selected row
      of the input. */
  lemma ArrangedMap<A, B>(f: A -> B, keep: A -> bool, data: seq<A>, arranged: seq<A>)
    requires multiset(arranged) == multiset(Filter(keep, data))
    ensures |Map(f, arranged)| == Count(keep, data)
    ensures multiset(Map(f, arranged)) == multiset(Map(f, Filter(keep, data)))
    ensures forall o :: o in Map(f, arranged) ==> exists r :: r in data && keep(r) && o == f(r)
  {
    var selected := Filter(keep, data);
    var out := Map(f, arranged);
    FilterLength(keep, data);
    assert |arranged| == |multiset(arranged)| == |multiset(selected)| == |selected|;
    MapPermutation(f, arranged, selected);
    forall o | o in out
      ensures exists r :: r in data && keep(r) && o == f(r)
    {
      var k :| 0 <= k < |arranged| && out[k] == o;
      var r := arranged[k];
      assert r in multiset(selected);
      SelectedRow(keep, data, r);
    }
  }

  /** The positions, counted from `from`, of the rows that pass p. */
  ghost function Positions<T>(p: T -> bool, s: seq<T>, from: nat): seq<nat>
  {
    if s == [] then [] else (if p(s[0]) then [from] else []) + Positions(p, s[1..], from + 1)
  }

  lemma {:induction false} PositionsLength<T>(p: T -> bool, s: seq<T>, from: nat)
    ensures |Positions(p, s, from)| == |Filter(p, s)|
  {
    if s != [] {
      PositionsLength(p, s[1..], from + 1);
    }
  }

  /** The positions lie in the frame and strictly increase. */
  lemma {:induction false} PositionsIncrease<T>(p: T -> bool, s: seq<T>, from: nat)
    ensures forall k :: 0 <= k < |Positions(p, s, from)| ==>
              from <= Positions(p, s, from)[k] < from + |s|
    ensures forall k, l :: 0 <= k < l < |Positions(p, s, from)| ==>
              Positions(p, s, from)[k] < Positions(p, s, from)[l]
  {
    if s != [] {
      PositionsIncrease(p, s[1..], from + 1);
    }
  }

  /** Selection keeps a subsequence: the k-th selected row is the input row
      at the k-th passing position. */
  lemma {:induction false} FilterIsSubsequence<T>(p: T -> bool, s: seq<T>, from: nat)
    ensures |Positions(p, s, from)| == |Filter(p, s)|
    ensures forall k :: 0 <= k < |Filter(p, s)| ==>
              from <= Positions(p, s, from)[k] < from + |s| &&
              Filter(p, s)[k] == s[Positions(p, s, from)[k] - from]
  {
    PositionsLength(p, s, from);
    PositionsIncrease(p, s, from);
    if s != [] {
      FilterIsSubsequence(p, s[1..], from + 1);
      SubsequenceStep(p, s, from);
    }
  }

  /** The inductive step of FilterIsSubsequence: the positions of the rows
      after the first, shifted by one, follow the first row's own. */
  lemma SubsequenceStep<T>(p: T -> bool, s: seq<T>, from: nat)
    requires s != []
    requires |Positions(p, s, from)| == |Filter(p, s)|
    requires |Positions(p, s[1..], from + 1)| == |Filter(p, s[1..])|
    requires forall k :: 0 <= k < |Filter(p, s)| ==> from <= Positions(p, s, from)[k] < from + |s|
    requires forall k :: 0 <= k < |Filter(p, s[1..])| ==>
               from + 1 <= Positions(p, s[1..], from + 1)[k] < from + 1 + |s[1..]| &&
               Filter(p, s[1..])[k] == s[1..][Positions(p, s[1..], from + 1)[k] - (from + 1)]
    ensures forall k :: 0 <= k < |Filter(p, s)| ==>
              Filter(p, s)[k] == s[Positions(p, s, from)[k] - from]
  {
    var tail := Positions(p, s[1..], from + 1);
    var rest := Filter(p, s[1..]);
    var head := if p(s[0]) then [s[0]] else [];
    var idx := Positions(p, s, from);
    var out := Filter(p, s);
    assert out == head + rest;
    assert idx == (if p(s[0]) then [from] else []) + tail;
    forall k | 0 <= k < |out|
      ensures out[k] == s[idx[k] - from]
    {
      if k >= |head| {
        var j := k - |head|;
        assert out[k] == rest[j] && idx[k] == tail[j];
        assert s[1..][tail[j] - (from + 1)] == s[tail[j] - from];
      }
    }
  }

  ghost predicate SortedBy<T>(s: seq<T>, key: T -> int)
  {
    forall i, j :: 0 <= i < j < |s| ==> key(s[i]) <= key(s[j])
  }

  /** Places x in a sorted frame before the first row with a larger key. */
  function Insert<T>(x: T, s: seq<T>, key: T -> int): (r: seq<T>)
    ensures multiset(r) == multiset(s) + multiset{x}
  {
    if s == [] || key(x) <= key(s[0]) then
      [x] + s
    else
      assert s == [s[0]] + s[1..];
      [s[0]] + Insert(x, s[1..], key)
  }

  lemma {:induction false} InsertSorted<T>(x: T, s: seq<T>, key: T -> int)
    requires SortedBy(s, key)
    ensures SortedBy(Insert(x, s, key), key)
  {
    if s != [] && key(x) > key(s[0]) {
      var rest := Insert(x, s[1..], key);
      InsertSorted(x, s[1..], key);
      forall k | 0 <= k < |rest|
        ensures key(s[0]) <= key(rest[k])
      {
        assert rest[k] in multiset(rest);
        assert rest[k] == x || rest[k] in multiset(s[1..]);
      }
    }
  }

  /** `sort_values(by=key)`: an arrangement of the same rows in key order. */
  function SortBy<T>(s: seq<T>, key: T -> int): (r: seq<T>)
    ensures SortedBy(r, key)
    ensures multiset(r) == multiset(s)
  {
    if s == [] then []
    else
      assert s == [s[0]] + s[1..];
      InsertSorted(s[0], SortBy(s[1..], key), key);
      Insert(s[0], SortBy(s[1..], key), key)
  }

  /** Selection from a sorted frame stays sorted. */
  lemma {:induction false} FilterSorted<T>(p: T -> bool, s: seq<T>, key: T -> int)
    requires SortedBy(s, key)
    ensures SortedBy(Filter(p, s), key)
  {
    if s != [] {
      FilterSorted(p, s[1..], key);
      FilterMembers(p, s[1..]);
      var rest := Filter(p, s[1..]);
      assert forall k :: 0 <= k < |rest| ==> rest[k] in s[1..];
    }
  }

  /** The in-place column assignment `df[col] = f(row)`: every row of the
      frame is replaced by its updated version, and nothing else changes. */
  method Assign<T>(a: array<T>, f: T -> T)
    modifies a
    ensures forall k :: 0 <= k < a.Length ==> a[k] == f(old(a[k]))
  {
    for i := 0 to a.Length
      invariant forall k :: 0 <= k < i ==> a[k] == f(old(a[k]))
      invariant forall k :: i <= k < a.Length ==> a[k] == old(a[k])
    {
      a[i] := f(a[i]);
    }
  }
}
