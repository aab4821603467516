/** Order-preserving filtering of sequences, as JavaScript's
    `Array.prototype.filter` does it. The rate limiter and `removeListener`
    filter; the model also represents the peer store's removal by a filter. */
module Seqs {

  /** The elements of `s` that satisfy `keep`, in their original order. */
  function Filter<T>(s: seq<T>, keep: T -> bool): (r: seq<T>)
    ensures |r| <= |s|
    ensures forall i :: 0 <= i < |r| ==> r[i] in s && keep(r[i])
    ensures forall i :: 0 <= i < |s| && keep(s[i]) ==> s[i] in r
  {
    if |s| == 0 then []
    else (if keep(s[0]) then [s[0]] else []) + Filter(s[1..], keep)
  }

  /** Filtering distributes over concatenation; with the one-element case this
      pins `Filter` down as the order-preserving selection. */
  lemma {:induction false} FilterConcat<T>(a: seq<T>, b: seq<T>, keep: T -> bool)
    ensures Filter(a + b, keep) == Filter(a, keep) + Filter(b, keep)
  {
    if |a| == 0 {
      assert a + b == b;
    } else {
      assert (a + b)[0] == a[0];
      assert (a + b)[1..] == a[1..] + b;
      FilterConcat(a[1..], b, keep);
    }
  }

  /** When every element is kept, filtering changes nothing. */
  lemma {:induction false} FilterKeepsAll<T>(s: seq<T>, keep: T -> bool)
    requires forall i :: 0 <= i < |s| ==> keep(s[i])
    ensures Filter(s, keep) == s
  {
    if |s| != 0 {
      FilterKeepsAll(s[1..], keep);
    }
  }

  /** Two positions `i < j` of `s` that both hold kept elements. */
  ghost predicate KeptPair<T>(s: seq<T>, keep: T -> bool, i: int, j: int)
  {
    0 <= i < j < |s| && keep(s[i]) && keep(s[j])
  }

  /** The filtered sequence has at least two elements exactly when two distinct
      positions of `s` hold kept elements. */
  lemma FilterHasTwo<T>(s: seq<T>, keep: T -> bool)
    ensures |Filter(s, keep)| >= 2 <==> exists i, j :: KeptPair(s, keep, i, j)
  {
    if |Filter(s, keep)| >= 2 {
      var i, j := PairFromFilter(s, keep);
    }
    if exists i, j :: KeptPair(s, keep, i, j) {
      var i, j :| KeptPair(s, keep, i, j);
      FilterFromPair(s, keep, i, j);
    }
  }

  /** Two kept positions yield two filtered elements: split `s` between them. */
  lemma FilterFromPair<T>(s: seq<T>, keep: T -> bool, i: int, j: int)
    requires KeptPair(s, keep, i, j)
    ensures |Filter(s, keep)| >= 2
  {
    var front, back := s[..j], s[j..];
    assert s == front + back;
    FilterConcat(front, back, keep);
    assert front[i] == s[i];
    assert front[i] in Filter(front, keep);
    assert back[0] == s[j];
    assert back[0] in Filter(back, keep);
  }

  /** Two filtered elements come from two kept positions of `s`. */
  lemma {:induction false} PairFromFilter<T>(s: seq<T>, keep: T -> bool) returns (i: int, j: int)
    requires |Filter(s, keep)| >= 2
    ensures KeptPair(s, keep, i, j)
  {
    var tail := s[1..];
    if keep(s[0]) {
      assert |Filter(tail, keep)| >= 1;
      var x := Filter(tail, keep)[0];
      assert x in tail;
      var k :| 0 <= k < |tail| && tail[k] == x;
      i, j := 0, k + 1;
    } else {
      assert Filter(s, keep) == Filter(tail, keep);
      var a, b := PairFromFilter(tail, keep);
      i, j := a + 1, b + 1;
    }
  }

  /** Removing every occurrence of `x` leaves every other element as often as
      it was. */
  lemma {:induction false} FilterOutMultiset<T>(s: seq<T>, keep: T -> bool, x: T)
    requires forall i :: 0 <= i < |s| ==> (keep(s[i]) <==> s[i] != x)
    ensures multiset(Filter(s, keep)) == multiset(s)[x := 0]
  {
    if |s| == 0 {
      assert multiset(s)[x := 0] == multiset{};
    } else {
      var tail := s[1..];
      FilterOutMultiset(tail, keep, x);
      assert s == [s[0]] + tail;
      assert multiset(s) == multiset{s[0]} + multiset(tail);
      if keep(s[0]) {
        assert Filter(s, keep) == [s[0]] + Filter(tail, keep);
        AddOtherThenDrop(multiset(tail), s[0], x);
      } else {
        assert Filter(s, keep) == Filter(tail, keep);
        AddSameThenDrop(multiset(tail), x);
      }
    }
  }

  lemma AddOtherThenDrop<T>(m: multiset<T>, y: T, x: T)
    requires y != x
    ensures (multiset{y} + m)[x := 0] == multiset{y} + m[x := 0]
  {
  }

  lemma AddSameThenDrop<T>(m: multiset<T>, x: T)
    ensures (multiset{x} + m)[x := 0] == m[x := 0]
  {
  }

  /** Removing every occurrence of `x` shortens the sequence by exactly the
      number of occurrences of `x`. */
  lemma {:induction false} FilterOutCount<T>(s: seq<T>, keep: T -> bool, x: T)
    requires forall i :: 0 <= i < |s| ==> (keep(s[i]) <==> s[i] != x)
    ensures |Filter(s, keep)| == |s| - multiset(s)[x]
  {
    if |s| != 0 {
      assert s == [s[0]] + s[1..];
      assert multiset(s) == multiset{s[0]} + multiset(s[1..]);
      FilterOutCount(s[1..], keep, x);
    }
  }

  /** `rel` holds of every pair of elements in their order in `s`. */
  ghost predicate Pairwise<T>(s: seq<T>, rel: (T, T) -> bool)
  {
    forall i, j :: 0 <= i < j < |s| ==> rel(s[i], s[j])
  }

  /** Filtering keeps a relation that held between all ordered pairs. */
  lemma {:induction false} FilterPairwise<T>(s: seq<T>, keep: T -> bool, rel: (T, T) -> bool)
    requires Pairwise(s, rel)
    ensures Pairwise(Filter(s, keep), rel)
  {
    if |s| != 0 {
      var tail := s[1..];
      assert Pairwise(tail, rel) by {
        forall i, j | 0 <= i < j < |tail| ensures rel(tail[i], tail[j]) {
          assert tail[i] == s[i + 1] && tail[j] == s[j + 1];
        }
      }
      FilterPairwise(tail, keep, rel);
      var rest := Filter(tail, keep);
      if keep(s[0]) {
        var r := [s[0]] + rest;
        assert Filter(s, keep) == r;
        forall i, j | 0 <= i < j < |r| ensures rel(r[i], r[j]) {
          if i == 0 {
            assert r[j] == rest[j - 1];
            assert rest[j - 1] in tail;
            var k :| 0 <= k < |tail| && tail[k] == rest[j - 1];
            assert s[k + 1] == r[j];
          } else {
            assert r[i] == rest[i - 1] && r[j] == rest[j - 1];
          }
        }
      } else {
        assert Filter(s, keep) == rest;
      }
    }
  }
}
