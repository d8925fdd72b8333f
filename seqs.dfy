/**
  `Array.prototype.filter` and the "matching first, then the rest" partition the
  components build from two filters, with the facts the rankings rely on: a filter
  keeps order and drops only what fails the test, and a partition is a
  permutation that puts every matching element first.
*/
module Seqs {

  /** `s.filter(p)`: the elements of `s` that satisfy `p`, in their order in `s`. */
  function Filter<T>(s: seq<T>, p: T -> bool): (r: seq<T>)
    ensures |r| <= |s|
  {
    if s == [] then []
    else if p(s[0]) then [s[0]] + Filter(s[1..], p)
    else Filter(s[1..], p)
  }

  /** Everything a filter keeps passes its test. */
  lemma {:induction false} FilterPasses<T>(s: seq<T>, p: T -> bool)
    ensures forall i :: 0 <= i < |Filter(s, p)| ==> p(Filter(s, p)[i])
  {
    if s != [] {
      FilterPasses(s[1..], p);
    }
  }

  /** Everything a filter keeps comes from its input, no more often than there. */
  lemma {:induction false} FilterDrawn<T>(s: seq<T>, p: T -> bool)
    ensures multiset(Filter(s, p)) <= multiset(s)
  {
    if s != [] {
      FilterDrawn(s[1..], p);
      assert s == [s[0]] + s[1..];
    }
  }

  /** Everything a filter keeps passes its test and comes from its input. */
  lemma FilterSound<T>(s: seq<T>, p: T -> bool)
    ensures forall i :: 0 <= i < |Filter(s, p)| ==> p(Filter(s, p)[i])
    ensures multiset(Filter(s, p)) <= multiset(s)
  {
    FilterPasses(s, p);
    FilterDrawn(s, p);
  }

  /** `r` lists the elements of `s` found at the strictly increasing positions `idx`. */
  ghost predicate Picks<T>(s: seq<T>, r: seq<T>, idx: seq<nat>)
  {
    && |idx| == |r|
    && (forall k :: 0 <= k < |idx| ==> idx[k] < |s| && r[k] == s[idx[k]])
    && (forall k, l :: 0 <= k < l < |idx| ==> idx[k] < idx[l])
  }

  /** `r` lists exactly the elements of `s` that pass `p`, each once and in their order in `s`. */
  ghost predicate KeptInOrder<T>(s: seq<T>, p: T -> bool, r: seq<T>)
  {
    exists idx: seq<nat> :: Picks(s, r, idx) && forall i :: 0 <= i < |s| ==> (p(s[i]) <==> i in idx)
  }

  /** Every position moved one place on, as when an element is put in front. */
  function Shift(idx: seq<nat>): (r: seq<nat>)
    ensures |r| == |idx|
    ensures forall k :: 0 <= k < |r| ==> r[k] == idx[k] + 1
  {
    seq(|idx|, k requires 0 <= k < |idx| => idx[k] + 1)
  }

  /** The shifted positions are the old ones moved on by one, and never the front. */
  lemma ShiftMembers(idx: seq<nat>)
    ensures 0 !in Shift(idx)
    ensures forall i: nat :: i + 1 in Shift(idx) <==> i in idx
  {
    forall i: nat ensures i + 1 in Shift(idx) <==> i in idx {
      if i + 1 in Shift(idx) {
        var k :| 0 <= k < |idx| && Shift(idx)[k] == i + 1;
      }
      if i in idx {
        var k :| 0 <= k < |idx| && idx[k] == i;
        assert Shift(idx)[k] == i + 1;
      }
    }
  }

  /** Putting an element in front of the input shifts a selection, with or without that element. */
  lemma PicksCons<T>(x: T, t: seq<T>, r: seq<T>, idx: seq<nat>)
    requires Picks(t, r, idx)
    ensures Picks([x] + t, r, Shift(idx))
    ensures Picks([x] + t, [x] + r, [0] + Shift(idx))
  {
    var s := [x] + t;
    assert forall k :: 0 <= k < |idx| ==> s[idx[k] + 1] == t[idx[k]];
  }

  /** One step of a selection: a selection from `t` extends to one from `[x] + t`, taking `x` exactly when it passes. */
  lemma KeptInOrderCons<T>(x: T, t: seq<T>, p: T -> bool, r: seq<T>, idx: seq<nat>)
    requires Picks(t, r, idx) && forall i :: 0 <= i < |t| ==> (p(t[i]) <==> i in idx)
    ensures KeptInOrder([x] + t, p, if p(x) then [x] + r else r)
  {
    var s := [x] + t;
    PicksCons(x, t, r, idx);
    ShiftMembers(idx);
    var full := if p(x) then [0] + Shift(idx) else Shift(idx);
    forall i | 0 <= i < |s| ensures p(s[i]) <==> i in full {
      if i > 0 {
        assert s[i] == t[i - 1];
        assert i - 1 in idx <==> i in Shift(idx);
      }
    }
    assert Picks(s, if p(x) then [x] + r else r, full);
  }

  /** A filter keeps the passing elements at their positions in the input, in order, and no others. */
  lemma {:induction false} FilterInOrder<T>(s: seq<T>, p: T -> bool)
    ensures KeptInOrder(s, p, Filter(s, p))
  {
    if s == [] {
      assert Picks(s, [], []);
    } else {
      var t := s[1..];
      FilterInOrder(t, p);
      var idx :| Picks(t, Filter(t, p), idx) && forall i :: 0 <= i < |t| ==> (p(t[i]) <==> i in idx);
      KeptInOrderCons(s[0], t, p, Filter(t, p), idx);
      assert s == [s[0]] + t;
    }
  }

  /** Two tests that agree on every value select the same elements. */
  lemma KeptInOrderSame<T>(s: seq<T>, p: T -> bool, q: T -> bool, r: seq<T>)
    requires KeptInOrder(s, p, r) && forall x :: p(x) == q(x)
    ensures KeptInOrder(s, q, r)
  {
    var idx :| Picks(s, r, idx) && forall i :: 0 <= i < |s| ==> (p(s[i]) <==> i in idx);
    assert forall i :: 0 <= i < |s| ==> (q(s[i]) <==> i in idx);
  }

  /** A filter keeps every copy of each passing value and no copy of any other. */
  lemma {:induction false} FilterCounts<T>(s: seq<T>, p: T -> bool)
    ensures forall v :: multiset(Filter(s, p))[v] == if p(v) then multiset(s)[v] else 0
  {
    if s != [] {
      var t := s[1..];
      FilterCounts(t, p);
      assert s == [s[0]] + t;
      FilterCons(s[0], t, p);
    }
  }

  /** `x => x !== v`. */
  function OtherThan<T(==)>(v: T): T -> bool
  {
    (x: T) => x != v
  }

  /** Filtering out a value removes every copy of it and keeps every other value as often as before. */
  lemma {:induction false} FilterOutCounts<T>(s: seq<T>, v: T)
    ensures multiset(Filter(s, OtherThan(v))) == multiset(s)[v := 0]
  {
    if s != [] {
      var t := s[1..];
      FilterOutCounts(t, v);
      assert s == [s[0]] + t;
      FilterCons(s[0], t, OtherThan(v));
    }
  }

  /** A test every element of `s` passes is passed by everything drawn from `s`. */
  lemma SubMultisetKeeps<T>(r: seq<T>, s: seq<T>, p: T -> bool)
    requires multiset(r) <= multiset(s)
    requires forall i :: 0 <= i < |s| ==> p(s[i])
    ensures forall i :: 0 <= i < |r| ==> p(r[i])
  {
    forall i | 0 <= i < |r| ensures p(r[i]) {
      assert r[i] in multiset(s);
      var j :| 0 <= j < |s| && s[j] == r[i];
    }
  }

  /** No element occurs twice. */
  predicate Distinct<T(==)>(s: seq<T>)
  {
    forall i, j :: 0 <= i < j < |s| ==> s[i] != s[j]
  }

  /** A filter of a list without repeats has no repeats. */
  lemma {:induction false} FilterDistinct<T>(s: seq<T>, p: T -> bool)
    requires Distinct(s)
    ensures Distinct(Filter(s, p))
  {
    if s != [] {
      var t := s[1..];
      FilterDistinct(t, p);
      FilterSound(t, p);
      if p(s[0]) {
        var r := Filter(s, p);
        assert r == [s[0]] + Filter(t, p);
        assert s[0] !in multiset(Filter(t, p)) by {
          assert s[0] !in t by {
            forall j | 0 <= j < |t| ensures t[j] != s[0] {
              assert t[j] == s[j + 1];
            }
          }
        }
        forall i, j | 0 <= i < j < |r| ensures r[i] != r[j] {
          if i == 0 {
            assert r[j] == Filter(t, p)[j - 1];
            assert r[j] in multiset(Filter(t, p));
          } else {
            assert r[i] == Filter(t, p)[i - 1] && r[j] == Filter(t, p)[j - 1];
          }
        }
      } else {
        assert Filter(s, p) == Filter(t, p);
      }
    }
  }

  /** The complement of a test, `x => !p(x)`. */
  function Not<T>(p: T -> bool): T -> bool
  {
    (x: T) => !p(x)
  }

  /** `[...s.filter(p), ...s.filter(x => !p(x))]`. */
  function Partition<T>(s: seq<T>, p: T -> bool): seq<T>
  {
    Filter(s, p) + Filter(s, Not(p))
  }

  /** A partition is a permutation of its input that puts every element passing the test first. */
  lemma PartitionSound<T>(s: seq<T>, p: T -> bool)
    ensures var r := Partition(s, p);
      && |r| == |s|
      && multiset(r) == multiset(s)
      && forall i, j :: 0 <= i < j < |r| && p(r[j]) ==> p(r[i])
  {
    FilterSplit(s, p);
    FilterSound(s, p);
    FilterSound(s, Not(p));
    assert |multiset(Partition(s, p))| == |multiset(s)|;
  }

  /** What a filter keeps and what its complement keeps make up the whole input. */
  lemma {:induction false} FilterSplit<T>(s: seq<T>, p: T -> bool)
    ensures multiset(Filter(s, p)) + multiset(Filter(s, Not(p))) == multiset(s)
  {
    if s != [] {
      var t := s[1..];
      FilterSplit(t, p);
      assert s == [s[0]] + t;
      assert multiset(s) == multiset{s[0]} + multiset(t);
      if p(s[0]) {
        assert Filter(s, p) == [s[0]] + Filter(t, p);
        assert Filter(s, Not(p)) == Filter(t, Not(p));
      } else {
        assert Filter(s, p) == Filter(t, p);
        assert Filter(s, Not(p)) == [s[0]] + Filter(t, Not(p));
      }
    }
  }

  /** A filter keeps every element that passes its test. */
  lemma {:induction false} FilterKeeps<T>(s: seq<T>, p: T -> bool, i: nat)
    requires i < |s| && p(s[i])
    ensures s[i] in Filter(s, p)
  {
    if i > 0 {
      FilterKeeps(s[1..], p, i - 1);
    }
  }

  /** One step of a filter: the head is kept exactly when it passes. */
  lemma FilterCons<T>(x: T, s: seq<T>, p: T -> bool)
    ensures Filter([x] + s, p) == if p(x) then [x] + Filter(s, p) else Filter(s, p)
  {
    assert ([x] + s)[0] == x;
    assert ([x] + s)[1..] == s;
  }

  /** Filtering distributes over concatenation. */
  lemma {:induction false} FilterConcat<T>(a: seq<T>, b: seq<T>, p: T -> bool)
    ensures Filter(a + b, p) == Filter(a, p) + Filter(b, p)
  {
    if a != [] {
      FilterConcat(a[1..], b, p);
      assert (a + b)[0] == a[0];
      assert (a + b)[1..] == a[1..] + b;
    } else {
      assert a + b == b;
    }
  }

  /** Two successive filters keep exactly what the conjunction of their tests keeps. */
  lemma {:induction false} FilterFilter<T>(s: seq<T>, p: T -> bool, q: T -> bool, both: T -> bool)
    requires forall x :: both(x) == (p(x) && q(x))
    ensures Filter(Filter(s, p), q) == Filter(s, both)
  {
    if s != [] {
      FilterFilter(s[1..], p, q, both);
      var rest := Filter(s[1..], p);
      if p(s[0]) {
        assert Filter(s, p) == [s[0]] + rest;
        assert ([s[0]] + rest)[1..] == rest;
      } else {
        assert Filter(s, p) == rest;
        assert !both(s[0]);
      }
    }
  }

  /** A filter that every element passes changes nothing. */
  lemma {:induction false} FilterAll<T>(s: seq<T>, p: T -> bool)
    requires forall i :: 0 <= i < |s| ==> p(s[i])
    ensures Filter(s, p) == s
  {
    if s != [] {
      FilterAll(s[1..], p);
    }
  }

  /** A filter that no element passes leaves nothing. */
  lemma {:induction false} FilterNone<T>(s: seq<T>, p: T -> bool)
    requires forall i :: 0 <= i < |s| ==> !p(s[i])
    ensures Filter(s, p) == []
  {
    if s != [] {
      FilterNone(s[1..], p);
    }
  }

  /** Two tests that agree on every value keep the same elements. */
  lemma {:induction false} FilterSame<T>(s: seq<T>, p: T -> bool, q: T -> bool)
    requires forall x :: p(x) == q(x)
    ensures Filter(s, p) == Filter(s, q)
  {
    if s != [] {
      FilterSame(s[1..], p, q);
    }
  }

  /** `s.some(p)`: some element, tried from the front, passes the test. */
  function Any<T>(s: seq<T>, p: T -> bool): bool
  {
    s != [] && (p(s[0]) || Any(s[1..], p))
  }

  /** `some` holds exactly when an element passing the test exists. */
  lemma {:induction false} AnyIff<T>(s: seq<T>, p: T -> bool)
    ensures Any(s, p) <==> exists i :: 0 <= i < |s| && p(s[i])
  {
    if s != [] {
      AnyIff(s[1..], p);
      if Any(s[1..], p) {
        var i :| 0 <= i < |s[1..]| && p(s[1..][i]);
        assert p(s[i + 1]);
      }
      if exists i :: 0 <= i < |s| && p(s[i]) {
        var i :| 0 <= i < |s| && p(s[i]);
        if i > 0 {
          assert p(s[1..][i - 1]);
        }
      }
    }
  }
}
