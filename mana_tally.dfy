/**
 * The counting machinery both mana-cost implementations share: the comparator that
 * `ManaCostComparator::new` builds (three counters and three counting maps), the
 * `entry(k).or_insert(0) += 1` idiom, the key a hybrid is counted under, and sums
 * over a sequence of symbols.
 */
module ManaTally {

  import opened Wrappers
  import opened Colors

  // ---------------------------------------------------------------------------
  // Counting maps.

  /** What a counting map holds for `k`, as `entry(k).or_insert(0)` reads it: 0 when absent. */
  function Count<K(==,!new)>(m: map<K, nat>, k: K): nat
  {
    if k in m then m[k] else 0
  }

  /** `*m.entry(k).or_insert(0) += 1`: one more for `k`, nothing else changes. */
  function Bump<K(==,!new)>(m: map<K, nat>, k: K): (r: map<K, nat>)
    ensures Count(r, k) == Count(m, k) + 1
    ensures forall j :: j != k ==> Count(r, j) == Count(m, j)
    ensures r.Keys == m.Keys + {k}
  {
    m[k := Count(m, k) + 1]
  }

  /** Every key present has a positive count: a map built by `Bump` alone never holds a 0. */
  predicate AllPositive<K(==,!new)>(m: map<K, nat>)
  {
    forall k :: k in m ==> m[k] > 0
  }

  /** Bumping keeps every count positive. */
  lemma BumpKeepsPositive<K(!new)>(m: map<K, nat>, k: K)
    requires AllPositive(m)
    ensures AllPositive(Bump(m, k))
  {
    forall j | j in Bump(m, k)
      ensures Bump(m, k)[j] > 0
    {
      if j != k {
        assert Count(Bump(m, k), j) == Count(m, j);
      }
    }
  }

  /** Two maps built by bumping are equal exactly when they count every key alike. */
  lemma CountsDetermineMap<K(!new)>(m1: map<K, nat>, m2: map<K, nat>)
    requires AllPositive(m1) && AllPositive(m2)
    ensures m1 == m2 <==> forall k :: Count(m1, k) == Count(m2, k)
  {
    if forall k :: Count(m1, k) == Count(m2, k) {
      forall k | k in m1
        ensures k in m2
      {
        assert Count(m1, k) > 0;
      }
      forall k | k in m2
        ensures k in m1
      {
        assert Count(m2, k) > 0;
      }
      assert m1.Keys == m2.Keys;
      forall k | k in m1
        ensures m1[k] == m2[k]
      {
        assert Count(m1, k) == Count(m2, k);
      }
    }
  }

  // ---------------------------------------------------------------------------
  // The comparator.

  /** `ManaCostComparator`: generic total, variable and snow counts, and three counting maps. */
  datatype Comparator = Comparator(
    generic: nat,
    variable: nat,
    snow: nat,
    colors: map<Option<Color>, nat>,
    hybrids: map<(Color, Option<Color>), nat>,
    phyrexian: map<Color, nat>)

  /** `ManaCostComparator::default()`. */
  const Empty: Comparator := Comparator(0, 0, 0, map[], map[], map[])

  /** The maps of a comparator hold only positive counts. */
  predicate Counted(c: Comparator)
  {
    AllPositive(c.colors) && AllPositive(c.hybrids) && AllPositive(c.phyrexian)
  }

  /**
   * The key a two-color hybrid is counted under: its pair in color-pie order, the
   * second color present. Single-color hybrids are counted under `(c, None)`.
   */
  function HybridKey(c1: Color, c2: Color): (k: (Color, Option<Color>))
    ensures k.1.Some?
    ensures ColorPieOrder(k.0, k.1.value) == (k.0, k.1.value)
    ensures k == (c1, Some(c2)) || k == (c2, Some(c1))
  {
    ColorPieOrderIsIdempotent(c1, c2);
    ColorPieOrderIsPermutation(c1, c2);
    var (a, b) := ColorPieOrder(c1, c2);
    (a, Some(b))
  }

  /** Both orientations of a hybrid are counted under the same key. */
  lemma HybridKeyIsSymmetric(c1: Color, c2: Color)
    ensures HybridKey(c1, c2) == HybridKey(c2, c1)
  {
    ColorPieOrderIsSymmetric(c1, c2);
  }

  // ---------------------------------------------------------------------------
  // Sums over a sequence (`iter().map(f).sum()`).

  /** The sum of `f` over `s`, from the first element to the last. */
  function Total<T>(f: T -> nat, s: seq<T>): nat
  {
    if s == [] then 0 else Total(f, s[..|s| - 1]) + f(s[|s| - 1])
  }

  /** A sum over two sequences one after the other is the sum of the two sums. */
  lemma {:induction false} TotalOfConcat<T>(f: T -> nat, a: seq<T>, b: seq<T>)
    ensures Total(f, a + b) == Total(f, a) + Total(f, b)
    decreases |b|
  {
    if b == [] {
      assert a + b == a;
    } else {
      var init := b[..|b| - 1];
      assert (a + b)[..|a + b| - 1] == a + init;
      assert (a + b)[|a + b| - 1] == b[|b| - 1];
      TotalOfConcat(f, a, init);
    }
  }

  /** The sum over one element is its value. */
  lemma TotalOfSingleton<T>(f: T -> nat, x: T)
    ensures Total(f, [x]) == f(x)
  {
    assert [x][..0] == [];
  }

  /** A sum over three sequences one after the other. */
  lemma TotalOfThree<T>(f: T -> nat, a: seq<T>, b: seq<T>, c: seq<T>)
    ensures Total(f, a + b + c) == Total(f, a) + Total(f, b) + Total(f, c)
  {
    TotalOfConcat(f, a + b, c);
    TotalOfConcat(f, a, b);
  }

  /** The same element added to two multisets leaves them equal only if they were. */
  lemma CancelOne<T>(r: multiset<T>, m: multiset<T>, x: T)
    requires r + multiset{x} == m + multiset{x}
    ensures r == m
  {
    forall y
      ensures r[y] == m[y]
    {
      assert (r + multiset{x})[y] == (m + multiset{x})[y];
    }
  }

  /** Taking the same element out of two permutations of each other leaves permutations of each other. */
  lemma RemoveFromPermutation<T>(a: seq<T>, b: seq<T>, i: nat)
    requires multiset(a) == multiset(b) && a != [] && i < |b| && b[i] == a[|a| - 1]
    ensures multiset(b[..i] + b[i + 1..]) == multiset(a[..|a| - 1])
  {
    var x := b[i];
    var init := a[..|a| - 1];
    assert a == init + [x];
    assert b == b[..i] + [x] + b[i + 1..];
    assert multiset(b) == multiset(b[..i]) + multiset{x} + multiset(b[i + 1..]);
    assert multiset(b[..i] + b[i + 1..]) == multiset(b[..i]) + multiset(b[i + 1..]);
    CancelOne(multiset(b[..i] + b[i + 1..]), multiset(init), x);
  }

  /** The sum does not depend on the order of the elements. */
  lemma {:induction false} TotalOfPermutation<T>(f: T -> nat, a: seq<T>, b: seq<T>)
    requires multiset(a) == multiset(b)
    ensures Total(f, a) == Total(f, b)
    decreases |a|
  {
    if a != [] {
      var x := a[|a| - 1];
      var init := a[..|a| - 1];
      assert a == init + [x];
      assert x in multiset(b);
      var i :| 0 <= i < |b| && b[i] == x;
      var rest := b[..i] + b[i + 1..];
      assert b == b[..i] + [x] + b[i + 1..];
      RemoveFromPermutation(a, b, i);
      TotalOfPermutation(f, init, rest);
      TotalOfConcat(f, b[..i] + [x], b[i + 1..]);
      TotalOfConcat(f, b[..i], [x]);
      TotalOfConcat(f, b[..i], b[i + 1..]);
      TotalOfSingleton(f, x);
    }
  }
}
