/** Facts about sequences without repetitions, used by the topological sort. */
module Seqs {

  predicate NoDup<T(==)>(s: seq<T>) {
    forall i, j :: 0 <= i < j < |s| ==> s[i] != s[j]
  }

  /** Appending `x` keeps a sequence repetition-free exactly when `x` is new. */
  lemma NoDupSnoc<T>(p: seq<T>, x: T)
    ensures NoDup(p + [x]) <==> NoDup(p) && x !in p
  {
    var s := p + [x];
    if NoDup(s) {
      forall i, j | 0 <= i < j < |p| ensures p[i] != p[j] {
        assert s[i] != s[j];
      }
      forall k | 0 <= k < |p| ensures p[k] != x {
        assert s[k] != s[|p|];
      }
    }
  }

  function Elems<T>(s: seq<T>): set<T> {
    set x | x in s
  }

  /** A sequence has at most as many distinct elements as positions, and exactly as many iff it repeats none. */
  lemma {:induction false} ElemsCard<T>(s: seq<T>)
    ensures |Elems(s)| <= |s|
    ensures |Elems(s)| == |s| <==> NoDup(s)
  {
    if s == [] {
      assert Elems(s) == {};
    } else {
      var p, x := s[..|s| - 1], s[|s| - 1];
      assert s == p + [x];
      ElemsCard(p);
      assert Elems(s) == Elems(p) + {x};
      if x in p {
        assert Elems(s) == Elems(p);
        var k :| 0 <= k < |p| && p[k] == x;
        assert s[k] == s[|s| - 1];
        assert !NoDup(s);
      } else {
        assert |Elems(s)| == |Elems(p)| + 1;
        if NoDup(p) {
          forall i, j | 0 <= i < j < |s| ensures s[i] != s[j] {
            if j == |s| - 1 {
              assert s[i] == p[i];
            } else {
              assert s[i] == p[i] && s[j] == p[j];
            }
          }
        } else {
          var i, j :| 0 <= i < j < |p| && p[i] == p[j];
          assert s[i] == s[j];
        }
      }
    }
  }

  lemma {:induction false} SubsetCard<T>(A: set<T>, B: set<T>)
    requires A <= B
    ensures |A| <= |B|
    decreases B
  {
    if A != {} {
      var x :| x in A;
      SubsetCard(A - {x}, B - {x});
    }
  }

  /** A repetition-free sequence drawn from `K` is no longer than `K`. */
  lemma NoDupWithin<T>(s: seq<T>, K: set<T>)
    requires NoDup(s)
    requires forall x :: x in s ==> x in K
    ensures |s| <= |K|
  {
    ElemsCard(s);
    SubsetCard(Elems(s), K);
  }

  /** A repetition-free sequence drawn from `K` and as long as `K` lists all of `K`. */
  lemma NoDupCovers<T>(s: seq<T>, K: set<T>)
    requires NoDup(s)
    requires forall x :: x in s ==> x in K
    requires |s| == |K|
    ensures forall x :: x in K ==> x in s
  {
    ElemsCard(s);
    var E := Elems(s);
    assert E <= K;
    forall x | x in K ensures x in s {
      if x !in s {
        SubsetCard(E, K - {x});
        assert false;
      }
    }
  }

  /** In a repetition-free sequence every element occurs once. */
  lemma {:induction false} NoDupCount<T>(s: seq<T>, x: T)
    requires NoDup(s)
    ensures multiset(s)[x] == if x in s then 1 else 0
  {
    if s != [] {
      var p := s[..|s| - 1];
      assert s == p + [s[|s| - 1]];
      assert NoDup(p) by {
        forall i, j | 0 <= i < j < |p| ensures p[i] != p[j] {
          assert p[i] == s[i] && p[j] == s[j];
        }
      }
      NoDupCount(p, x);
      if x in p {
        var k :| 0 <= k < |p| && p[k] == x;
        assert s[k] == x;
        assert s[|s| - 1] != x;
      }
    }
  }

  /** Two repetition-free sequences with the same elements are permutations of each other. */
  lemma SameElemsPermutation<T>(a: seq<T>, b: seq<T>)
    requires NoDup(a) && NoDup(b)
    requires forall x :: x in a <==> x in b
    ensures multiset(a) == multiset(b)
  {
    forall x ensures multiset(a)[x] == multiset(b)[x] {
      NoDupCount(a, x);
      NoDupCount(b, x);
    }
  }
}
