/**
 * `indexmap::IndexSet` as the type line uses it: a sequence without duplicates whose
 * order is the order of first insertion. `insert` leaves a present element where it
 * is, `remove` is `swap_remove` (the last element moves into the hole), and two sets
 * are equal when they hold the same elements, whatever their order.
 */
module IndexSets {

  /** No element occurs twice. */
  predicate NoDup<T(==)>(s: seq<T>)
  {
    forall i, j :: 0 <= i < j < |s| ==> s[i] != s[j]
  }

  /** The elements of `s`, forgetting order. */
  function Elements<T>(s: seq<T>): set<T>
  {
    set x | x in s
  }

  /** `IndexSet::insert`: a new element goes to the end, a present one stays where it is. */
  function Insert<T(==)>(s: seq<T>, x: T): (r: seq<T>)
    ensures Elements(r) == Elements(s) + {x}
    ensures |s| <= |r| <= |s| + 1 && r[..|s|] == s
    ensures x in s ==> r == s
    ensures NoDup(s) ==> NoDup(r)
  {
    if x in s then s else s + [x]
  }

  /** The position of `x` in `s`: the first one. */
  function IndexOf<T(==)>(s: seq<T>, x: T): (i: nat)
    requires x in s
    ensures i < |s| && s[i] == x && x !in s[..i]
  {
    if s[0] == x then 0 else 1 + IndexOf(s[1..], x)
  }

  /**
   * `IndexSet::swap_remove`: an absent element changes nothing; otherwise the last
   * element takes the place of the removed one, and everything before and after it
   * stays put.
   */
  function SwapRemove<T(==)>(s: seq<T>, x: T): (r: seq<T>)
    ensures x !in s ==> r == s
    ensures x in s ==> |r| == |s| - 1 && r[..IndexOf(s, x)] == s[..IndexOf(s, x)]
    ensures x in s && IndexOf(s, x) < |s| - 1 ==> r[IndexOf(s, x)] == s[|s| - 1]
    ensures x in s && IndexOf(s, x) < |s| - 1 ==> r[IndexOf(s, x) + 1..] == s[IndexOf(s, x) + 1..|s| - 1]
    ensures NoDup(s) ==> NoDup(r) && Elements(r) == Elements(s) - {x}
  {
    if x !in s then s
    else
      var i := IndexOf(s, x);
      SwapRemoveAt(s, i);
      if i == |s| - 1 then s[..i] else s[..i] + [s[|s| - 1]] + s[i + 1..|s| - 1]
  }

  /** Taking out position `i`, the last element filling the hole, keeps the other elements and adds no duplicate. */
  lemma SwapRemoveAt<T>(s: seq<T>, i: nat)
    requires i < |s|
    ensures var r := if i == |s| - 1 then s[..i] else s[..i] + [s[|s| - 1]] + s[i + 1..|s| - 1];
      NoDup(s) ==> NoDup(r) && Elements(r) == Elements(s) - {s[i]}
  {
    var r := if i == |s| - 1 then s[..i] else s[..i] + [s[|s| - 1]] + s[i + 1..|s| - 1];
    if NoDup(s) {
      assert |r| == |s| - 1;
      // Each position of r holds the same position of s, except the hole, which holds the last one.
      assert forall k :: 0 <= k < |r| ==> r[k] == s[if k == i then |s| - 1 else k];
      forall y | y in Elements(s) - {s[i]}
        ensures y in Elements(r)
      {
        var j :| 0 <= j < |s| && s[j] == y;
        assert j != i;
        if j == |s| - 1 {
          assert r[i] == y;
        } else {
          assert r[j] == y;
        }
      }
    }
  }

  /** `IndexSet::from_iter`: the elements inserted one after the other. */
  function FromSeq<T(==)>(xs: seq<T>): (r: seq<T>)
    ensures NoDup(r)
    ensures Elements(r) == Elements(xs)
  {
    if xs == [] then [] else Insert(FromSeq(xs[..|xs| - 1]), xs[|xs| - 1])
  }

  /** A sequence without duplicates is its own `from_iter`. */
  lemma {:induction false} FromSeqOfNoDup<T>(xs: seq<T>)
    requires NoDup(xs)
    ensures FromSeq(xs) == xs
  {
    if xs != [] {
      var init := xs[..|xs| - 1];
      assert NoDup(init);
      FromSeqOfNoDup(init);
      assert xs[|xs| - 1] !in init;
      assert init + [xs[|xs| - 1]] == xs;
    }
  }

  /** `PartialEq for IndexSet`: the same length, and every element of one is in the other. */
  predicate SameSet<T(==)>(a: seq<T>, b: seq<T>)
  {
    |a| == |b| && forall x :: x in a ==> x in b
  }

  /** A sequence without duplicates has as many elements as it is long. */
  lemma {:induction false} CardinalityOfNoDup<T>(s: seq<T>)
    requires NoDup(s)
    ensures |Elements(s)| == |s|
  {
    if s != [] {
      var init := s[..|s| - 1];
      assert NoDup(init);
      CardinalityOfNoDup(init);
      assert s == init + [s[|s| - 1]];
      assert s[|s| - 1] !in init;
      assert Elements(s) == Elements(init) + {s[|s| - 1]};
    }
  }

  /** A subset exactly as large as its superset is the whole of it. */
  lemma SubsetOfSameSize<T>(a: set<T>, b: set<T>)
    requires a <= b && |a| == |b|
    ensures a == b
  {
    var d := b - a;
    assert b == a + d;
    assert a * d == {};
    assert |d| == 0;
  }

  /** On duplicate-free sequences, `IndexSet` equality is equality of the element sets. */
  lemma SameSetIsSetEquality<T>(a: seq<T>, b: seq<T>)
    requires NoDup(a) && NoDup(b)
    ensures SameSet(a, b) <==> Elements(a) == Elements(b)
  {
    CardinalityOfNoDup(a);
    CardinalityOfNoDup(b);
    if SameSet(a, b) {
      SubsetOfSameSize(Elements(a), Elements(b));
    }
    if Elements(a) == Elements(b) {
      forall x | x in a
        ensures x in b
      {
        assert x in Elements(a);
      }
    }
  }

  /** `IndexSet` equality is an equivalence on duplicate-free sequences. */
  lemma SameSetIsEquivalence<T>(a: seq<T>, b: seq<T>, c: seq<T>)
    requires NoDup(a) && NoDup(b) && NoDup(c)
    ensures SameSet(a, a)
    ensures SameSet(a, b) ==> SameSet(b, a)
    ensures SameSet(a, b) && SameSet(b, c) ==> SameSet(a, c)
  {
    SameSetIsSetEquality(a, b);
    SameSetIsSetEquality(b, a);
    SameSetIsSetEquality(b, c);
    SameSetIsSetEquality(a, c);
  }

  /** Inserting twice is inserting once. */
  lemma InsertIsIdempotent<T>(s: seq<T>, x: T)
    ensures Insert(Insert(s, x), x) == Insert(s, x)
  {
  }

  /** Inserting two elements in either order gives the same set. */
  lemma InsertCommutes<T>(s: seq<T>, x: T, y: T)
    requires NoDup(s)
    ensures SameSet(Insert(Insert(s, x), y), Insert(Insert(s, y), x))
  {
    var a := Insert(Insert(s, x), y);
    var b := Insert(Insert(s, y), x);
    assert Elements(a) == Elements(b);
    SameSetIsSetEquality(a, b);
  }

  /** Removing an element and inserting it again gives back the same set. */
  lemma RemoveThenInsert<T>(s: seq<T>, x: T)
    requires NoDup(s) && x in s
    ensures SameSet(Insert(SwapRemove(s, x), x), s)
  {
    var r := Insert(SwapRemove(s, x), x);
    assert Elements(r) == Elements(s);
    SameSetIsSetEquality(r, s);
  }
}
