/**
 * pendingBuys.sort((a, b) => b.allocationDifference - a.allocationDifference): a stable sort by
 * descending weight (Array.prototype.sort is stable), specified as insertion into a sorted prefix
 * and carried out in place on an array.
 */
module Sorting {
  import opened Drift

  /** Non-increasing weights. */
  predicate ByWeight(s: seq<Pending>) {
    forall i, j :: 0 <= i < j < |s| ==> s[i].weight >= s[j].weight
  }

  /**
   * Inserts x into a sorted list after every element whose weight is at least its own, so the
   * comparator's zero (a tie) keeps x behind the earlier elements.
   */
  function Insert(s: seq<Pending>, x: Pending): seq<Pending> {
    if s == [] then [x]
    else if s[|s| - 1].weight < x.weight then Insert(s[..|s| - 1], x) + [s[|s| - 1]]
    else s + [x]
  }

  /** The stable descending sort of s. */
  function SortByWeight(s: seq<Pending>): seq<Pending> {
    if s == [] then [] else Insert(SortByWeight(s[..|s| - 1]), s[|s| - 1])
  }

  /** The elements of s with weight w, in their order in s. */
  function WithWeight(s: seq<Pending>, w: real): seq<Pending> {
    if s == [] then []
    else if s[0].weight == w then [s[0]] + WithWeight(s[1..], w)
    else WithWeight(s[1..], w)
  }

  lemma {:induction false} WithWeightConcat(a: seq<Pending>, b: seq<Pending>, w: real)
    ensures WithWeight(a + b, w) == WithWeight(a, w) + WithWeight(b, w)
  {
    if a == [] {
      assert [] + b == b;
    } else {
      assert (a + b)[1..] == a[1..] + b;
      WithWeightConcat(a[1..], b, w);
    }
  }

  lemma {:induction false} InsertPermutes(s: seq<Pending>, x: Pending)
    ensures multiset(Insert(s, x)) == multiset(s) + multiset{x}
  {
    if s != [] && s[|s| - 1].weight < x.weight {
      InsertPermutes(s[..|s| - 1], x);
      assert s == s[..|s| - 1] + [s[|s| - 1]];
    }
  }

  lemma {:induction false} InsertSorted(s: seq<Pending>, x: Pending)
    requires ByWeight(s)
    ensures ByWeight(Insert(s, x))
  {
    if s != [] && s[|s| - 1].weight < x.weight {
      var init, last := s[..|s| - 1], s[|s| - 1];
      InsertSorted(init, x);
      InsertPermutes(init, x);
      var r := Insert(init, x);
      forall i | 0 <= i < |r|
        ensures r[i].weight >= last.weight
      {
        assert r[i] in multiset(r);
        assert r[i] in multiset(init) || r[i] == x;
        if r[i] != x {
          var j :| 0 <= j < |init| && init[j] == r[i];
        }
      }
    }
  }

  lemma {:induction false} InsertWithWeight(s: seq<Pending>, x: Pending, w: real)
    ensures WithWeight(Insert(s, x), w) == WithWeight(s, w) + WithWeight([x], w)
  {
    if s == [] {
    } else if s[|s| - 1].weight < x.weight {
      var init, last := s[..|s| - 1], s[|s| - 1];
      InsertWithWeight(init, x, w);
      WithWeightConcat(Insert(init, x), [last], w);
      WithWeightConcat(init, [last], w);
      assert s == init + [last];
      if x.weight == w {
        assert WithWeight([last], w) == [];
        assert [last][1..] == [];
      } else {
        assert WithWeight([x], w) == [];
        assert [x][1..] == [];
      }
    } else {
      WithWeightConcat(s, [x], w);
    }
  }

  /** The sort's result is ordered by non-increasing weight. */
  lemma {:induction false} SortIsOrdered(s: seq<Pending>)
    ensures ByWeight(SortByWeight(s))
  {
    if s != [] {
      SortIsOrdered(s[..|s| - 1]);
      InsertSorted(SortByWeight(s[..|s| - 1]), s[|s| - 1]);
    }
  }

  /** The sort's result is a permutation of its input. */
  lemma {:induction false} SortPermutes(s: seq<Pending>)
    ensures multiset(SortByWeight(s)) == multiset(s)
  {
    if s != [] {
      var init, last := s[..|s| - 1], s[|s| - 1];
      var sorted := SortByWeight(init);
      SortPermutes(init);
      InsertPermutes(sorted, last);
      assert SortByWeight(s) == Insert(sorted, last);
      assert s == init + [last];
      assert multiset(s) == multiset(init) + multiset{last};
    }
  }

  /** The sort is stable: for every weight, the elements of that weight keep their input order. */
  lemma {:induction false} SortIsStable(s: seq<Pending>, w: real)
    ensures WithWeight(SortByWeight(s), w) == WithWeight(s, w)
  {
    if s != [] {
      var init, last := s[..|s| - 1], s[|s| - 1];
      SortIsStable(init, w);
      InsertWithWeight(SortByWeight(init), last, w);
      WithWeightConcat(init, [last], w);
      assert s == init + [last];
    }
  }

  /** Equal weights come in increasing position order. */
  predicate TiesIncrease(s: seq<Pending>) {
    forall i, j :: 0 <= i < j < |s| && s[i].weight == s[j].weight ==> s[i].index < s[j].index
  }

  lemma {:induction false} InsertTies(s: seq<Pending>, x: Pending)
    requires TiesIncrease(s)
    requires forall i :: 0 <= i < |s| ==> s[i].index < x.index
    ensures TiesIncrease(Insert(s, x))
  {
    if s != [] && s[|s| - 1].weight < x.weight {
      var init, last := s[..|s| - 1], s[|s| - 1];
      assert forall i :: 0 <= i < |init| ==> init[i] == s[i];
      InsertTies(init, x);
      InsertPermutes(init, x);
      var r := Insert(init, x);
      forall i | 0 <= i < |r| && r[i].weight == last.weight
        ensures r[i].index < last.index
      {
        assert r[i] != x;
        assert r[i] in multiset(r);
        assert r[i] in multiset(init);
        var j :| 0 <= j < |init| && init[j] == r[i];
      }
    }
  }

  /**
   * Discovery order is position order, so stability means: among the sorted elements of equal
   * weight, the one for the earlier position comes first.
   */
  lemma {:induction false} SortTies(s: seq<Pending>)
    requires IndicesIncrease(s)
    ensures TiesIncrease(SortByWeight(s))
  {
    if s != [] {
      var init, last := s[..|s| - 1], s[|s| - 1];
      assert IndicesIncrease(init);
      SortTies(init);
      SortPermutes(init);
      var sorted := SortByWeight(init);
      forall i | 0 <= i < |sorted| ensures sorted[i].index < last.index {
        assert sorted[i] in multiset(init);
        var j :| 0 <= j < |init| && init[j] == sorted[i];
      }
      InsertTies(sorted, last);
    }
  }

  /** Insertion sort in place: each element in turn is moved left into the sorted prefix before it. */
  method SortInPlace(a: array<Pending>)
    modifies a
    ensures a[..] == SortByWeight(old(a[..]))
  {
    ghost var input := a[..];
    var i := 0;
    while i < a.Length
      invariant 0 <= i <= a.Length
      invariant a[..i] == SortByWeight(input[..i])
      invariant a[i..] == input[i..]
    {
      InsertAt(a, i);
      assert input[..i + 1][..i] == input[..i];
      assert a[i + 1..] == input[i + 1..];
      i := i + 1;
    }
    assert a[..] == a[..a.Length];
    assert input == input[..a.Length];
  }

  /** A new array holding s sorted by weight: the filtered list the sort works on in place. */
  method SortedCopy(s: seq<Pending>) returns (a: array<Pending>)
    ensures fresh(a) && a[..] == SortByWeight(s)
  {
    a := new Pending[|s|](k requires 0 <= k < |s| => s[k]);
    assert a[..] == s;
    SortInPlace(a);
  }

  /**
   * Insert puts x right after the last element at least as heavy as x: with every element from j on
   * lighter than x, and the one before j (if any) at least as heavy, x lands at j.
   */
  lemma {:induction false} InsertAtPoint(s: seq<Pending>, x: Pending, j: nat)
    requires j <= |s|
    requires forall k :: j <= k < |s| ==> s[k].weight < x.weight
    requires j > 0 ==> s[j - 1].weight >= x.weight
    ensures Insert(s, x) == s[..j] + [x] + s[j..]
    decreases |s|
  {
    if j < |s| {
      var init := s[..|s| - 1];
      assert forall k :: j <= k < |init| ==> init[k] == s[k];
      InsertAtPoint(init, x, j);
      assert init[..j] == s[..j];
      assert s[j..] == init[j..] + [s[|s| - 1]];
    } else if s != [] {
      assert s[..j] == s;
    }
  }

  /** Moves a[i] left past every lighter element of the prefix a[..i], leaving the rest of the array alone. */
  method InsertAt(a: array<Pending>, i: nat)
    requires i < a.Length
    modifies a
    ensures a[..i + 1] == Insert(old(a[..i]), old(a[i]))
    ensures a[i + 1..] == old(a[i + 1..])
  {
    ghost var s := a[..];
    ghost var x := a[i];
    var j := i;
    while j > 0 && a[j - 1].weight < a[j].weight
      invariant 0 <= j <= i
      invariant a[..] == s[..j] + [x] + s[j..i] + s[i + 1..]
      invariant forall k :: j <= k < i ==> s[k].weight < x.weight
    {
      assert a[j - 1] == s[j - 1] && a[j] == x;
      a[j - 1], a[j] := a[j], a[j - 1];
      assert a[..] == s[..j - 1] + [x] + s[j - 1..i] + s[i + 1..];
      j := j - 1;
    }
    assert j > 0 ==> a[j - 1] == s[j - 1] && a[j] == x;
    InsertAtPoint(s[..i], x, j);
    assert s[..i][..j] == s[..j] && s[..i][j..] == s[j..i];
    assert a[..i + 1] == a[..][..i + 1];
  }
}
