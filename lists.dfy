/**
 * Sequence operations the engines perform on their pid lists and queues:
 * the "rebuild the deque without pid" loops and Python's `list.remove`.
 */
module Lists {

  /** No element occurs twice. */
  predicate Distinct(s: seq<int>) {
    forall i, j :: 0 <= i < j < |s| ==> s[i] != s[j]
  }

  /** `s` with every occurrence of `x` dropped, the others kept in order. */
  function Without(s: seq<int>, x: int): (r: seq<int>)
    ensures forall y :: y in r <==> y in s && y != x
    ensures |r| <= |s|
  {
    if s == [] then []
    else Without(s[..|s| - 1], x) + (if s[|s| - 1] == x then [] else [s[|s| - 1]])
  }

  /** Python's `list.remove(x)`: drops the first occurrence; `s` itself when absent. */
  function RemoveFirst(s: seq<int>, x: int): (r: seq<int>)
    ensures x in s ==> |r| == |s| - 1
    ensures x !in s ==> r == s
    ensures forall y :: y in r ==> y in s
  {
    if s == [] then []
    else if s[0] == x then s[1..]
    else [s[0]] + RemoveFirst(s[1..], x)
  }

  /** Removing all occurrences distributes over concatenation: relative order is kept. */
  lemma {:induction false} WithoutConcat(a: seq<int>, b: seq<int>, x: int)
    ensures Without(a + b, x) == Without(a, x) + Without(b, x)
    decreases |b|
  {
    if b == [] {
      assert a + b == a;
    } else {
      var b' := b[..|b| - 1];
      assert (a + b)[..|a + b| - 1] == a + b';
      WithoutConcat(a, b', x);
    }
  }

  /** Exactly the occurrences of `x` are gone; every other element keeps its count. */
  lemma {:induction false} WithoutMultiset(s: seq<int>, x: int)
    ensures multiset(Without(s, x)) == multiset(s)[x := 0]
  {
    if s != [] {
      var s' := s[..|s| - 1];
      WithoutMultiset(s', x);
      assert s == s' + [s[|s| - 1]];
    }
  }

  /** Removing from a non-empty sequence: the head is kept unless it is `x`, then the rest follows. */
  lemma WithoutFront(s: seq<int>, x: int)
    requires s != []
    ensures Without(s, x) == (if s[0] == x then [] else [s[0]]) + Without(s[1..], x)
  {
    WithoutConcat([s[0]], s[1..], x);
    assert [s[0]] + s[1..] == s;
    assert [s[0]][..0] == [];
  }

  /** Removing an absent element changes nothing. */
  lemma {:induction false} WithoutAbsent(s: seq<int>, x: int)
    requires x !in s
    ensures Without(s, x) == s
  {
    if s != [] {
      WithoutAbsent(s[..|s| - 1], x);
    }
  }

  /** Removal keeps a duplicate-free sequence duplicate-free. */
  lemma {:induction false} WithoutDistinct(s: seq<int>, x: int)
    requires Distinct(s)
    ensures Distinct(Without(s, x))
  {
    if s != [] {
      var s', last := s[..|s| - 1], s[|s| - 1];
      WithoutDistinct(s', x);
      assert last !in s' by {
        assert forall i :: 0 <= i < |s'| ==> s'[i] == s[i];
      }
      assert last !in Without(s', x);
    }
  }

  /** On a duplicate-free list, `list.remove` removes every occurrence. */
  lemma {:induction false} RemoveFirstDistinct(s: seq<int>, x: int)
    requires Distinct(s)
    ensures RemoveFirst(s, x) == Without(s, x)
  {
    if s != [] {
      WithoutConcat([s[0]], s[1..], x);
      assert [s[0]] + s[1..] == s;
      assert Without([s[0]], x) == if s[0] == x then [] else [s[0]] by {
        assert [s[0]][..0] == [];
      }
      if s[0] == x {
        WithoutAbsent(s[1..], x);
      } else {
        RemoveFirstDistinct(s[1..], x);
      }
    }
  }

  /** `list.remove` takes away one copy of `x` and nothing else. */
  lemma {:induction false} RemoveFirstMultiset(s: seq<int>, x: int)
    requires x in s
    ensures multiset(RemoveFirst(s, x)) == multiset(s) - multiset{x}
  {
    assert s == [s[0]] + s[1..];
    if s[0] != x {
      RemoveFirstMultiset(s[1..], x);
    }
  }

  /** `list.remove` keeps a duplicate-free list duplicate-free. */
  lemma RemoveFirstKeepsDistinct(s: seq<int>, x: int)
    requires Distinct(s)
    ensures Distinct(RemoveFirst(s, x))
    ensures forall y :: y in RemoveFirst(s, x) <==> y in s && y != x
  {
    RemoveFirstDistinct(s, x);
    WithoutDistinct(s, x);
  }

  /** An element of neither part is not in the concatenation. */
  lemma NotInConcat(a: seq<int>, b: seq<int>, x: int)
    requires x !in a && x !in b
    ensures x !in a + b
  {
  }

  /** The front of a duplicate-free list is duplicate-free and misses the last element. */
  lemma DistinctInit(s: seq<int>)
    requires Distinct(s) && s != []
    ensures Distinct(s[..|s| - 1]) && s[|s| - 1] !in s[..|s| - 1]
    ensures forall y :: y in s <==> y in s[..|s| - 1] || y == s[|s| - 1]
  {
    assert s == s[..|s| - 1] + [s[|s| - 1]];
  }

  /** `list.remove` of each element of `u` in turn. */
  function RemoveAll(s: seq<int>, u: seq<int>): seq<int> {
    if u == [] then s else RemoveFirst(RemoveAll(s, u[..|u| - 1]), u[|u| - 1])
  }

  /** On a duplicate-free list, removing each of `u` leaves exactly the elements not in `u`. */
  lemma {:induction false} RemoveAllDistinct(s: seq<int>, u: seq<int>)
    requires Distinct(s)
    ensures Distinct(RemoveAll(s, u))
    ensures forall y :: y in RemoveAll(s, u) <==> y in s && y !in u
  {
    if u != [] {
      RemoveAllDistinct(s, u[..|u| - 1]);
      RemoveFirstKeepsDistinct(RemoveAll(s, u[..|u| - 1]), u[|u| - 1]);
    }
  }

  /** Joining two duplicate-free lists with no common element gives a duplicate-free list. */
  lemma DistinctConcat(a: seq<int>, b: seq<int>)
    requires Distinct(a) && Distinct(b) && forall x :: x in a ==> x !in b
    ensures Distinct(a + b)
  {
    forall i, j | 0 <= i < j < |a + b|
      ensures (a + b)[i] != (a + b)[j]
    {
      if i < |a| && j >= |a| {
        assert (a + b)[i] in a && (a + b)[j] in b;
      }
    }
  }

  /** A duplicate-free list has as many elements as the set of its elements. */
  lemma {:induction false} DistinctSetSize(s: seq<int>)
    requires Distinct(s)
    ensures |set x | x in s| == |s|
  {
    if s != [] {
      var front := s[..|s| - 1];
      DistinctInit(s);
      DistinctSetSize(front);
      assert (set x | x in s) == (set x | x in front) + {s[|s| - 1]};
    }
  }

  /**
   * The pids `0 .. n-1` in ascending order: the iteration order of an engine table
   * keyed by the pids handed out so far.
   */
  function PidOrder(n: int): (r: seq<int>)
    ensures |r| == if n > 0 then n else 0
    ensures Distinct(r)
    ensures forall k :: k in r <==> 0 <= k < n
    decreases n
  {
    if n <= 0 then []
    else
      var front := PidOrder(n - 1);
      DistinctConcat(front, [n - 1]);
      front + [n - 1]
  }
}
