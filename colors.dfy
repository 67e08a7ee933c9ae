/**
 * The five colors of the game, their fixed ordinals, the color-pie ordering of a
 * pair, and the color-identity bitset (src/lib.rs).
 */
module Colors {

  datatype Color = White | Blue | Black | Red | Green

  /** The discriminant `color as u8`. */
  function Ordinal(c: Color): (n: nat)
    ensures n < 5
  {
    match c
    case White => 0
    case Blue => 1
    case Black => 2
    case Red => 3
    case Green => 4
  }

  /** The colors in the order `Color::iterator` yields them. */
  const AllColors: seq<Color> := [White, Blue, Black, Red, Green]

  lemma OrdinalsAreFixed()
    ensures Ordinal(White) == 0 && Ordinal(Blue) == 1 && Ordinal(Black) == 2
    ensures Ordinal(Red) == 3 && Ordinal(Green) == 4
  {
  }

  /** The iterator yields every color exactly once, in ordinal order. */
  lemma AllColorsInOrdinalOrder()
    ensures |AllColors| == 5
    ensures forall i :: 0 <= i < 5 ==> Ordinal(AllColors[i]) == i
    ensures forall c :: c in AllColors
  {
    forall c: Color ensures c in AllColors {
      assert AllColors[Ordinal(c)] == c;
    }
  }

  /**
   * Orders a pair of colors around the color wheel: the pair is first put in
   * ordinal order, and when the two ordinals are more than two apart the
   * "short way round" puts the higher one first.
   */
  function ColorPieOrder(c1: Color, c2: Color): (Color, Color)
    decreases if Ordinal(c1) > Ordinal(c2) then 1 else 0
  {
    if Ordinal(c1) > Ordinal(c2) then ColorPieOrder(c2, c1)
    else if Ordinal(c2) - Ordinal(c1) > 2 then (c2, c1)
    else (c1, c2)
  }

  /** The ten wheel-adjacent (or one-apart) ordered pairs listed by the tests of src/lib.rs. */
  const ValidPairs: seq<(Color, Color)> := [
    (White, Blue), (White, Black), (Blue, Black), (Blue, Red), (Black, Red),
    (Black, Green), (Red, Green), (Red, White), (Green, White), (Green, Blue)
  ]

  lemma {:induction false} ColorPieOrderIsPermutation(c1: Color, c2: Color)
    decreases if Ordinal(c1) > Ordinal(c2) then 1 else 0
    ensures ColorPieOrder(c1, c2) == (c1, c2) || ColorPieOrder(c1, c2) == (c2, c1)
  {
    if Ordinal(c1) > Ordinal(c2) {
      ColorPieOrderIsPermutation(c2, c1);
    }
  }

  lemma ColorPieOrderIsSymmetric(c1: Color, c2: Color)
    ensures ColorPieOrder(c1, c2) == ColorPieOrder(c2, c1)
  {
  }

  /** For two distinct colors the result is one of the ten listed pairs. */
  lemma ColorPieOrderIsValidPair(c1: Color, c2: Color)
    requires c1 != c2
    ensures ColorPieOrder(c1, c2) in ValidPairs
  {
  }

  /** When the ordinals are more than two apart the pair comes out (high, low), otherwise (low, high). */
  lemma ColorPieOrderByGap(c1: Color, c2: Color)
    ensures var (a, b) := ColorPieOrder(c1, c2);
      var lo := if Ordinal(c1) <= Ordinal(c2) then c1 else c2;
      var hi := if Ordinal(c1) <= Ordinal(c2) then c2 else c1;
      if Ordinal(hi) - Ordinal(lo) > 2 then a == hi && b == lo else a == lo && b == hi
  {
  }

  lemma ColorPieOrderIsIdempotent(c1: Color, c2: Color)
    ensures var (a, b) := ColorPieOrder(c1, c2); ColorPieOrder(a, b) == (a, b)
  {
  }

  /** The one-letter code of a color. */
  function Initial(c: Color): char
  {
    match c
    case White => 'W'
    case Blue => 'U'
    case Black => 'B'
    case Red => 'R'
    case Green => 'G'
  }

  lemma InitialIsInjective(c1: Color, c2: Color)
    ensures Initial(c1) == Initial(c2) <==> c1 == c2
  {
  }

  function Initials(cs: seq<Color>): (s: string)
    ensures |s| == |cs|
    ensures forall i :: 0 <= i < |cs| ==> s[i] == Initial(cs[i])
  {
    if cs == [] then "" else [Initial(cs[0])] + Initials(cs[1..])
  }

  // ---------------------------------------------------------------------------
  // Color identity: a `u8` whose bit `Ordinal(c)` records the presence of `c`.

  /** The bit of color `c`, `1 << c as u8`, written out per color. */
  function Bit(c: Color): (b: bv8)
    ensures b == (1 as bv8) << Ordinal(c)
  {
    match c
    case White => 0x01
    case Blue => 0x02
    case Black => 0x04
    case Red => 0x08
    case Green => 0x10
  }

  /** Bit `j` of `b` is set. */
  predicate BitSet(b: bv8, j: nat)
    requires j < 8
  {
    b & ((1 as bv8) << j) != 0
  }

  /** `has`: the color's bit is set. */
  predicate HasColor(bits: bv8, c: Color)
  {
    bits & Bit(c) != 0
  }

  /** `u8::trailing_zeros`: the number of clear bits below the lowest set bit, 8 for zero. */
  function TrailingZeros(b: bv8): (n: nat)
    ensures n <= 8
  {
    TrailingZerosFrom(b, 0)
  }

  function TrailingZerosFrom(b: bv8, i: nat): (n: nat)
    requires i <= 8
    ensures n <= 8 - i
    decreases 8 - i
  {
    if i == 8 then 0
    else if BitSet(b, i) then 0
    else 1 + TrailingZerosFrom(b, i + 1)
  }

  /** `is_colorless`: at least five trailing zeros. */
  predicate ColorlessBits(bits: bv8)
  {
    TrailingZeros(bits) >= 5
  }

  /** Colorless exactly when no color is present, whatever the three high bits hold. */
  lemma ColorlessBitsIffNoColor(bits: bv8)
    ensures ColorlessBits(bits) <==> forall c: Color :: !HasColor(bits, c)
  {
    TrailingZerosAtLeast(bits, 0, 5);
    forall c: Color ensures HasColor(bits, c) <==> BitSet(bits, Ordinal(c)) {
    }
    forall j | 0 <= j < 5 ensures BitSet(bits, j) <==> HasColor(bits, AllColors[j]) {
      assert Ordinal(AllColors[j]) == j;
    }
  }

  /** `TrailingZerosFrom(b, i) >= k` exactly when the `k` bits from `i` upward are clear. */
  lemma {:induction false} TrailingZerosAtLeast(b: bv8, i: nat, k: nat)
    requires i + k <= 8
    ensures TrailingZerosFrom(b, i) >= k <==> forall j :: i <= j < i + k ==> !BitSet(b, j)
    decreases k
  {
    if k > 0 {
      TrailingZerosAtLeast(b, i + 1, k - 1);
    }
  }

  /** `add` on the raw bits: `bits | 1 << c`. */
  function AddColor(bits: bv8, c: Color): (r: bv8)
    ensures HasColor(r, c)
    ensures forall d :: d != c ==> (HasColor(r, d) <==> HasColor(bits, d))
    ensures r & 0xE0 == bits & 0xE0
  {
    bits | Bit(c)
  }

  /** `remove` on the raw bits: `bits & !(1 << c)`. */
  function RemoveColor(bits: bv8, c: Color): (r: bv8)
    ensures !HasColor(r, c)
    ensures forall d :: d != c ==> (HasColor(r, d) <==> HasColor(bits, d))
    ensures r & 0xE0 == bits & 0xE0
  {
    bits & !Bit(c)
  }

  /** The colors of `cs` whose bit is set in `bits`, in the order of `cs`. */
  function Present(bits: bv8, cs: seq<Color>): seq<Color>
  {
    if cs == [] then [] else Present(bits, cs[..|cs| - 1]) + IfPresent(bits, cs[|cs| - 1])
  }

  /** The one-element sequence `[c]` when `c` is present, else empty. */
  function IfPresent(bits: bv8, c: Color): seq<Color>
  {
    if HasColor(bits, c) then [c] else []
  }

  /** The filter keeps exactly the present colors of `cs`. */
  lemma {:induction false} PresentMembership(bits: bv8, cs: seq<Color>)
    ensures forall c :: c in Present(bits, cs) <==> c in cs && HasColor(bits, c)
  {
    if cs != [] {
      var init := cs[..|cs| - 1];
      PresentMembership(bits, init);
      assert cs == init + [cs[|cs| - 1]];
    }
  }

  /** `colors()`: the present colors, filtered from the iterator. */
  function ColorsOf(bits: bv8): seq<Color>
  {
    Present(bits, AllColors)
  }

  /** Ordinals strictly increase along `cs` (so no color repeats). */
  predicate Ascending(cs: seq<Color>)
  {
    forall i, j :: 0 <= i < j < |cs| ==> Ordinal(cs[i]) < Ordinal(cs[j])
  }

  /** A filtered subsequence of an ascending sequence is ascending. */
  lemma {:induction false} PresentKeepsOrder(bits: bv8, cs: seq<Color>)
    requires Ascending(cs)
    ensures Ascending(Present(bits, cs))
  {
    if cs != [] {
      var init := cs[..|cs| - 1];
      var last := cs[|cs| - 1];
      assert Ascending(init) by {
        forall i, j | 0 <= i < j < |init| ensures Ordinal(init[i]) < Ordinal(init[j]) {
          assert init[i] == cs[i] && init[j] == cs[j];
        }
      }
      PresentKeepsOrder(bits, init);
      PresentMembership(bits, init);
      var p := Present(bits, init);
      var r := Present(bits, cs);
      if HasColor(bits, last) {
        assert r == p + [last];
        forall i, j | 0 <= i < j < |r| ensures Ordinal(r[i]) < Ordinal(r[j]) {
          if j == |p| {
            assert r[i] == p[i] && p[i] in p;
            var k :| 0 <= k < |init| && init[k] == p[i];
            assert cs[k] == p[i];
          } else {
            assert r[i] == p[i] && r[j] == p[j];
          }
        }
      } else {
        assert r == p;
      }
    }
  }

  /** `colors()` holds exactly the present colors, in ordinal order, without repetition. */
  lemma ColorsOfIsOrderedMembership(bits: bv8)
    ensures forall c :: c in ColorsOf(bits) <==> HasColor(bits, c)
    ensures Ascending(ColorsOf(bits))
  {
    AllColorsInOrdinalOrder();
    PresentMembership(bits, AllColors);
    PresentKeepsOrder(bits, AllColors);
  }

  /** The `Display` text of an identity. */
  function Render(bits: bv8): string
  {
    if ColorlessBits(bits) then "C" else Initials(ColorsOf(bits))
  }

  /** Rendering is "C" exactly when no color is present, and otherwise the present initials in ordinal order. */
  lemma RenderMeaning(bits: bv8)
    ensures (Render(bits) == "C") <==> forall c: Color :: !HasColor(bits, c)
    ensures !ColorlessBits(bits) ==>
      |Render(bits)| == |ColorsOf(bits)| &&
      forall i :: 0 <= i < |ColorsOf(bits)| ==> Render(bits)[i] == Initial(ColorsOf(bits)[i])
  {
    ColorlessBitsIffNoColor(bits);
    ColorsOfIsOrderedMembership(bits);
  }

  /** `colors()` spelled out color by color. */
  lemma ColorsOfExplicit(bits: bv8)
    ensures ColorsOf(bits) == IfPresent(bits, White) + IfPresent(bits, Blue) +
      IfPresent(bits, Black) + IfPresent(bits, Red) + IfPresent(bits, Green)
  {
    var w, u, b, r, g := IfPresent(bits, White), IfPresent(bits, Blue),
      IfPresent(bits, Black), IfPresent(bits, Red), IfPresent(bits, Green);
    assert AllColors[..0] == [];
    PresentStep(bits, AllColors, 0);
    assert Present(bits, AllColors[..1]) == w;
    PresentStep(bits, AllColors, 1);
    assert Present(bits, AllColors[..2]) == w + u;
    PresentStep(bits, AllColors, 2);
    assert Present(bits, AllColors[..3]) == w + u + b;
    PresentStep(bits, AllColors, 3);
    assert Present(bits, AllColors[..4]) == w + u + b + r;
    PresentStep(bits, AllColors, 4);
    assert AllColors[..5] == AllColors;
  }

  /** The identity with bits 0b10001 renders "WG" (as the tests of src/lib.rs check). */
  lemma RenderWhiteGreen()
    ensures Render(0x11) == "WG"
  {
    ColorlessBitsIffNoColor(0x11);
    ColorsOfExplicit(0x11);
    assert HasColor(0x11, White) && !HasColor(0x11, Blue) && !HasColor(0x11, Black);
    assert !HasColor(0x11, Red) && HasColor(0x11, Green);
    assert ColorsOf(0x11) == [White, Green];
  }

  /** 0b01110 renders "UBR". */
  lemma RenderBlueBlackRed()
    ensures Render(0x0E) == "UBR"
  {
    var cs := ColorsOf(0x0E);
    assert cs == [Blue, Black, Red] by {
      ColorsOfExplicit(0x0E);
      assert !HasColor(0x0E, White) && HasColor(0x0E, Blue) && HasColor(0x0E, Black);
      assert HasColor(0x0E, Red) && !HasColor(0x0E, Green);
    }
    assert !ColorlessBits(0x0E) by {
      ColorlessBitsIffNoColor(0x0E);
      assert HasColor(0x0E, Blue);
    }
    assert Initials(cs) == "UBR";
  }

  /** 0b01000 renders "R", and the empty identity renders "C". */
  lemma RenderRedAndColorless()
    ensures Render(0x08) == "R"
    ensures Render(0x00) == "C"
  {
    ColorlessBitsIffNoColor(0x08);
    ColorlessBitsIffNoColor(0x00);
    ColorsOfExplicit(0x08);
    assert !HasColor(0x08, White) && !HasColor(0x08, Blue) && !HasColor(0x08, Black);
    assert HasColor(0x08, Red) && !HasColor(0x08, Green);
    assert ColorsOf(0x08) == [Red];
  }

  /** `from_iter`: `add` folded over the input, starting from the empty identity. */
  function FoldAdd(bits: bv8, cs: seq<Color>): (r: bv8)
    ensures forall c :: HasColor(r, c) <==> HasColor(bits, c) || c in cs
    ensures r & 0xE0 == bits & 0xE0
  {
    if cs == [] then bits else AddColor(FoldAdd(bits, cs[..|cs| - 1]), cs[|cs| - 1])
  }

  /** Two identities that agree on every color and have the same unused high bits are equal. */
  lemma BitsExtensional(x: bv8, y: bv8)
    requires x & 0xE0 == y & 0xE0
    requires forall c: Color :: HasColor(x, c) <==> HasColor(y, c)
    ensures x == y
  {
    assert HasColor(x, White) <==> HasColor(y, White);
    assert HasColor(x, Blue) <==> HasColor(y, Blue);
    assert HasColor(x, Black) <==> HasColor(y, Black);
    assert HasColor(x, Red) <==> HasColor(y, Red);
    assert HasColor(x, Green) <==> HasColor(y, Green);
  }

  /** `from_iter` depends only on which colors occur, not on their order or repetition. */
  lemma FoldAddIgnoresOrder(cs: seq<Color>, ds: seq<Color>)
    requires forall c :: c in cs <==> c in ds
    ensures FoldAdd(0, cs) == FoldAdd(0, ds)
  {
    BitsExtensional(FoldAdd(0, cs), FoldAdd(0, ds));
  }

  /** A color identity: the `u8` bitset that `add` and `remove` update in place. */
  class ColorIdentity {
    var bits: bv8

    /** `new`: the empty identity. */
    constructor ()
      ensures bits == 0
    {
      bits := 0;
    }

    /** The tuple constructor `ColorIdentity(b)`. */
    constructor FromBits(b: bv8)
      ensures bits == b
    {
      bits := b;
    }

    predicate Has(c: Color)
      reads this
    {
      HasColor(bits, c)
    }

    predicate IsColorless()
      reads this
    {
      ColorlessBits(bits)
    }

    function Colors(): seq<Color>
      reads this
    {
      ColorsOf(bits)
    }

    method Add(c: Color)
      modifies this
      ensures bits == AddColor(old(bits), c)
      ensures Has(c)
      ensures forall d :: d != c ==> (Has(d) <==> old(Has(d)))
    {
      bits := AddColor(bits, c);
    }

    method Remove(c: Color)
      modifies this
      ensures bits == RemoveColor(old(bits), c)
      ensures !Has(c)
      ensures forall d :: d != c ==> (Has(d) <==> old(Has(d)))
    {
      bits := RemoveColor(bits, c);
    }

    /** `from_iter`: a fresh identity with `add` applied to each color in turn. */
    static method FromIter(cs: seq<Color>) returns (r: ColorIdentity)
      ensures fresh(r)
      ensures r.bits == FoldAdd(0, cs)
      ensures forall c :: r.Has(c) <==> c in cs
    {
      r := new ColorIdentity();
      var i := 0;
      while i < |cs|
        invariant 0 <= i <= |cs|
        invariant r.bits == FoldAdd(0, cs[..i])
      {
        assert cs[..i + 1][..i] == cs[..i];
        r.Add(cs[i]);
        i := i + 1;
      }
      assert cs[..|cs|] == cs;
    }

    /** `Display`: "C" when colorless, otherwise the initials of the present colors. */
    method Display() returns (s: string)
      ensures s == Render(bits)
    {
      if IsColorless() {
        return "C";
      }
      var b := bits;
      s := "";
      var i := 0;
      while i < |AllColors|
        invariant 0 <= i <= |AllColors|
        invariant s == Initials(Present(b, AllColors[..i]))
      {
        var c := AllColors[i];
        PresentStep(b, AllColors, i);
        if HasColor(b, c) {
          InitialsAppend(Present(b, AllColors[..i]), c);
          s := s + [Initial(c)];
        } else {
          assert Present(b, AllColors[..i + 1]) == Present(b, AllColors[..i]) + [];
        }
        i := i + 1;
      }
      assert AllColors[..i] == AllColors;
    }
  }

  /** Extending the filtered prefix by one element. */
  lemma PresentStep(bits: bv8, cs: seq<Color>, i: nat)
    requires i < |cs|
    ensures Present(bits, cs[..i + 1]) == Present(bits, cs[..i]) + IfPresent(bits, cs[i])
  {
    assert cs[..i + 1][..i] == cs[..i];
  }

  lemma InitialsAppend(cs: seq<Color>, c: Color)
    ensures Initials(cs + [c]) == Initials(cs) + [Initial(c)]
  {
  }
}
