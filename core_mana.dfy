/**
 * Mana symbols and mana costs as `magic_core/src/mana.rs` has them: colored and
 * colorless mana are separate symbols, a generic amount is a `u16`, a hybrid keeps
 * its colors in the order given and is printed in color-pie order. Two costs are
 * equal when the comparators counted from their symbols are equal.
 */
module CoreMana {

  import opened Wrappers
  import opened Colors
  import opened Text
  import opened ManaTally

  /** `u16`: the generic amounts a symbol can hold. */
  newtype u16 = x: int | 0 <= x < 0x1_0000

  /** `ManaSymbol`. */
  datatype Symbol =
    | Generic(amount: u16)
    | Colored(color: Color)
    | Colorless
    | Variable
    | Hybrid(c1: Color, c2: Color)
    | MonoHybrid(c: Color)
    | Phyrexian(c: Color)
    | Snow

  /** `ManaCost`: the symbols in the order they were collected. */
  datatype ManaCost = ManaCost(symbols: seq<Symbol>)

  /** A symbol with a hybrid's pair put in color-pie order; every other symbol unchanged. */
  function Canon(x: Symbol): (r: Symbol)
    ensures r.Hybrid? <==> x.Hybrid?
    ensures x.Hybrid? ==> ((r.c1, r.c2) == (x.c1, x.c2) || (r.c1, r.c2) == (x.c2, x.c1))
    ensures x.Hybrid? ==> ColorPieOrder(r.c1, r.c2) == (r.c1, r.c2)
    ensures !x.Hybrid? ==> r == x
  {
    if x.Hybrid? then
      ColorPieOrderIsPermutation(x.c1, x.c2);
      ColorPieOrderIsIdempotent(x.c1, x.c2);
      var (a, b) := ColorPieOrder(x.c1, x.c2);
      Hybrid(a, b)
    else x
  }

  /** Both orientations of a hybrid put in color-pie order are the same symbol. */
  lemma CanonHybridIsSymmetric(c1: Color, c2: Color)
    ensures Canon(Hybrid(c1, c2)) == Canon(Hybrid(c2, c1))
  {
    ColorPieOrderIsSymmetric(c1, c2);
  }

  // ---------------------------------------------------------------------------
  // Printing.

  /** The text inside the braces of a symbol; a hybrid's colors in color-pie order. */
  function Body(x: Symbol): (s: string)
    ensures s != [] && '{' !in s && '}' !in s
  {
    match x
    case Generic(n) => NatToDecimal(n as nat)
    case Colored(c) => [Initial(c)]
    case Colorless => "C"
    case Variable => "X"
    case Hybrid(c1, c2) =>
      var (a, b) := ColorPieOrder(c1, c2);
      [Initial(a), '/', Initial(b)]
    case MonoHybrid(c) => [Initial(c), '/', '2']
    case Phyrexian(c) => [Initial(c), '/', 'P']
    case Snow => "S"
  }

  /** `Display for ManaSymbol`: the body in braces. */
  function SymbolText(x: Symbol): string
  {
    "{" + Body(x) + "}"
  }

  /** The printed symbols one after the other (`Display for ManaCost`). */
  function SymbolsText(s: seq<Symbol>): string
  {
    if s == [] then "" else SymbolText(s[0]) + SymbolsText(s[1..])
  }

  /** The text of a sequence is its first symbol's text followed by the rest. */
  lemma SymbolsTextOfCons(x: Symbol, rest: seq<Symbol>)
    ensures SymbolsText([x] + rest) == SymbolText(x) + SymbolsText(rest)
  {
    assert ([x] + rest)[1..] == rest;
  }

  /** `Display for ManaCost`. */
  function CostText(cost: ManaCost): string
  {
    SymbolsText(cost.symbols)
  }

  /** A body starts with a digit exactly when it is a generic amount. */
  lemma BodyStartsWithDigit(x: Symbol)
    ensures '0' <= Body(x)[0] <= '9' <==> x.Generic?
  {
  }

  /** A symbol prints as its color-pie form does. */
  lemma BodyOfCanon(x: Symbol)
    ensures Body(Canon(x)) == Body(x)
  {
    if x.Hybrid? {
      ColorPieOrderIsIdempotent(x.c1, x.c2);
    }
  }

  /** Symbols have the same body exactly when their color-pie forms are equal. */
  lemma BodyIsInjective(x: Symbol, y: Symbol)
    ensures Body(x) == Body(y) <==> Canon(x) == Canon(y)
  {
    BodyOfCanon(x);
    BodyOfCanon(y);
    if Body(x) == Body(y) {
      BodyStartsWithDigit(x);
      BodyStartsWithDigit(y);
      if x.Generic? && y.Generic? {
        NatToDecimalRoundTrip(x.amount as nat);
        NatToDecimalRoundTrip(y.amount as nat);
      } else if x.Hybrid? && y.Hybrid? {
        var (a, b) := ColorPieOrder(x.c1, x.c2);
        var (a', b') := ColorPieOrder(y.c1, y.c2);
        InitialIsInjective(a, a');
        InitialIsInjective(b, b');
      }
    }
  }

  /** A printed symbol followed by more text determines the symbol's color-pie form and the rest. */
  lemma SymbolTextThenRest(x: Symbol, y: Symbol, r1: string, r2: string)
    requires SymbolText(x) + r1 == SymbolText(y) + r2
    ensures Canon(x) == Canon(y) && r1 == r2
  {
    var s1, s2 := SymbolText(x), SymbolText(y);
    var t := s1 + r1;
    assert s1[|s1| - 1] == '}' && s2[|s2| - 1] == '}';
    assert forall i :: 0 <= i < |s1| - 1 ==> s1[i] != '}' by {
      assert s1[1..|s1| - 1] == Body(x);
    }
    assert forall i :: 0 <= i < |s2| - 1 ==> s2[i] != '}' by {
      assert s2[1..|s2| - 1] == Body(y);
    }
    assert |s1| == |s2| by {
      assert t[|s1| - 1] == '}' && t[|s2| - 1] == '}';
    }
    assert s1 == t[..|s1|] == s2;
    assert Body(x) == s1[1..|s1| - 1] == Body(y);
    BodyIsInjective(x, y);
    assert r1 == t[|s1|..] == r2;
  }

  /** Two symbols print alike exactly when they are equal once hybrids are in color-pie order. */
  lemma SymbolTextIsInjective(x: Symbol, y: Symbol)
    ensures SymbolText(x) == SymbolText(y) <==> Canon(x) == Canon(y)
  {
    BodyIsInjective(x, y);
    if SymbolText(x) == SymbolText(y) {
      assert SymbolText(x) + "" == SymbolText(y) + "";
      SymbolTextThenRest(x, y, "", "");
    }
  }

  /** Every symbol of a sequence in color-pie form. */
  function CanonAll(s: seq<Symbol>): (r: seq<Symbol>)
    ensures |r| == |s| && forall i :: 0 <= i < |s| ==> r[i] == Canon(s[i])
  {
    seq(|s|, i requires 0 <= i < |s| => Canon(s[i]))
  }

  /** Two non-empty sequences agree in color-pie form exactly when their heads and their tails do. */
  lemma CanonAllOfCons(a: seq<Symbol>, b: seq<Symbol>)
    requires a != [] && b != []
    ensures CanonAll(a) == CanonAll(b) <==> Canon(a[0]) == Canon(b[0]) && CanonAll(a[1..]) == CanonAll(b[1..])
  {
    assert CanonAll(a) == [Canon(a[0])] + CanonAll(a[1..]);
    assert CanonAll(b) == [Canon(b[0])] + CanonAll(b[1..]);
  }

  /** Only the empty sequence prints as the empty text. */
  lemma SymbolsTextIsEmpty(s: seq<Symbol>)
    ensures SymbolsText(s) == [] <==> s == []
  {
  }

  /** Two symbol sequences print alike exactly when they are equal once every hybrid is in color-pie order. */
  lemma {:induction false} SymbolsTextIsInjective(a: seq<Symbol>, b: seq<Symbol>)
    ensures SymbolsText(a) == SymbolsText(b) <==> CanonAll(a) == CanonAll(b)
  {
    SymbolsTextIsEmpty(a);
    SymbolsTextIsEmpty(b);
    if a != [] && b != [] {
      SymbolsTextIsInjective(a[1..], b[1..]);
      SymbolTextIsInjective(a[0], b[0]);
      CanonAllOfCons(a, b);
      if SymbolsText(a) == SymbolsText(b) {
        SymbolTextThenRest(a[0], b[0], SymbolsText(a[1..]), SymbolsText(b[1..]));
      }
    }
  }

  // ---------------------------------------------------------------------------
  // Converted mana cost.

  /** `ConvertedManaCost for ManaSymbol`. */
  function SymbolCmc(x: Symbol): nat
  {
    match x
    case Generic(n) => n as nat
    case Colored(_) => 1
    case Colorless => 1
    case Variable => 0
    case Hybrid(_, _) => 1
    case MonoHybrid(_) => 2
    case Phyrexian(_) => 1
    case Snow => 1
  }

  /** `ConvertedManaCost for ManaCost`: the sum over the symbols. */
  function Cmc(cost: ManaCost): nat
  {
    Total(SymbolCmc, cost.symbols)
  }

  /** The converted mana cost does not depend on the order of the symbols. */
  lemma CmcIgnoresOrder(a: ManaCost, b: ManaCost)
    requires multiset(a.symbols) == multiset(b.symbols)
    ensures Cmc(a) == Cmc(b)
  {
    TotalOfPermutation(SymbolCmc, a.symbols, b.symbols);
  }

  // ---------------------------------------------------------------------------
  // The comparator.

  /** The counting the comparator does for one symbol. */
  function Step(t: Comparator, x: Symbol): Comparator
  {
    match x
    case Generic(n) => t.(generic := t.generic + n as nat)
    case Colored(c) => t.(colors := Bump(t.colors, Some(c)))
    case Colorless => t.(colors := Bump(t.colors, None))
    case Variable => t.(variable := t.variable + 1)
    case Hybrid(c1, c2) => t.(hybrids := Bump(t.hybrids, HybridKey(c1, c2)))
    case MonoHybrid(c) => t.(hybrids := Bump(t.hybrids, (c, None)))
    case Phyrexian(c) => t.(phyrexian := Bump(t.phyrexian, c))
    case Snow => t.(snow := t.snow + 1)
  }

  /** A step keeps the counts of the maps positive. */
  lemma StepKeepsCounted(t: Comparator, x: Symbol)
    requires Counted(t)
    ensures Counted(Step(t, x))
  {
    match x
    case Colored(c) => BumpKeepsPositive(t.colors, Some(c));
    case Colorless => BumpKeepsPositive(t.colors, None);
    case Hybrid(c1, c2) => BumpKeepsPositive(t.hybrids, HybridKey(c1, c2));
    case MonoHybrid(c) => BumpKeepsPositive(t.hybrids, (c, None));
    case Phyrexian(c) => BumpKeepsPositive(t.phyrexian, c);
    case _ =>
  }

  /** The comparator of a symbol sequence: every symbol counted, first to last. */
  function ComparatorOf(s: seq<Symbol>): (r: Comparator)
    ensures Counted(r)
  {
    if s == [] then Empty
    else
      var t := ComparatorOf(s[..|s| - 1]);
      StepKeepsCounted(t, s[|s| - 1]);
      Step(t, s[|s| - 1])
  }

  /** The comparator of one more symbol is one more step. */
  lemma ComparatorOfPrefix(s: seq<Symbol>, i: nat)
    requires i < |s|
    ensures ComparatorOf(s[..i + 1]) == Step(ComparatorOf(s[..i]), s[i])
  {
    assert s[..i + 1][..i] == s[..i];
  }

  /** `ManaCostComparator::new`: one pass over the symbols, updating the counters in place. */
  method NewComparator(cost: ManaCost) returns (res: Comparator)
    ensures res == ComparatorOf(cost.symbols)
  {
    var s := cost.symbols;
    var generic, variable, snow := 0, 0, 0;
    var colors: map<Option<Color>, nat> := map[];
    var hybrids: map<(Color, Option<Color>), nat> := map[];
    var phyrexian: map<Color, nat> := map[];
    for i := 0 to |s|
      invariant Comparator(generic, variable, snow, colors, hybrids, phyrexian) == ComparatorOf(s[..i])
    {
      ComparatorOfPrefix(s, i);
      match s[i]
      case Generic(n) => generic := generic + n as nat;
      case Colored(c) => colors := Bump(colors, Some(c));
      case Colorless => colors := Bump(colors, None);
      case Variable => variable := variable + 1;
      case Hybrid(c1, c2) =>
        hybrids := Bump(hybrids, HybridKey(c1, c2));
      case MonoHybrid(c) => hybrids := Bump(hybrids, (c, None));
      case Phyrexian(c) => phyrexian := Bump(phyrexian, c);
      case Snow => snow := snow + 1;
    }
    assert s[..|s|] == s;
    res := Comparator(generic, variable, snow, colors, hybrids, phyrexian);
  }

  /** `PartialEq for ManaCost`: the two comparators are equal. */
  predicate Equal(a: ManaCost, b: ManaCost)
  {
    ComparatorOf(a.symbols) == ComparatorOf(b.symbols)
  }

  /** `PartialEq::eq`: builds both comparators and compares them. */
  method Equals(a: ManaCost, b: ManaCost) returns (r: bool)
    ensures r == Equal(a, b)
    ensures r <==> SameCost(a.symbols, b.symbols)
  {
    var ca := NewComparator(a);
    var cb := NewComparator(b);
    r := ca == cb;
    EqualIffSameCost(a.symbols, b.symbols);
  }

  // ---------------------------------------------------------------------------
  // What the comparator counts.

  /** The generic amount of a symbol, 0 for the others. */
  function GenericAmount(x: Symbol): nat
  {
    if x.Generic? then x.amount as nat else 0
  }

  /** The generic amounts of a sequence, summed. */
  function GenericTotal(s: seq<Symbol>): nat
  {
    Total(GenericAmount, s)
  }

  /** The symbols of `s` other than generic amounts, with hybrids in color-pie order. */
  function NonGeneric(s: seq<Symbol>): (r: seq<Symbol>)
    ensures forall i :: 0 <= i < |r| ==> !r[i].Generic?
  {
    if s == [] then []
    else NonGeneric(s[..|s| - 1]) + (if s[|s| - 1].Generic? then [] else [Canon(s[|s| - 1])])
  }

  /**
   * The meaning of cost equality: the same generic total, and the same symbols
   * otherwise, counted with multiplicity and with a hybrid's two orientations alike.
   */
  predicate SameCost(a: seq<Symbol>, b: seq<Symbol>)
  {
    GenericTotal(a) == GenericTotal(b) && multiset(NonGeneric(a)) == multiset(NonGeneric(b))
  }

  /** What counting `x` adds to the non-generic symbols: nothing for a generic amount, else `x` in color-pie order. */
  function Added(x: Symbol): multiset<Symbol>
  {
    if x.Generic? then multiset{} else multiset{Canon(x)}
  }

  /** One more symbol at the end adds `Added` of it to the non-generic symbols. */
  lemma NonGenericStep(s: seq<Symbol>)
    requires s != []
    ensures multiset(NonGeneric(s)) == multiset(NonGeneric(s[..|s| - 1])) + Added(s[|s| - 1])
  {
  }

  /**
   * `t` counts generic total `g` and the non-generic symbols `m`: the counters hold `g`
   * and the numbers of `X` and snow symbols, and each map entry the number of symbols
   * of its key.
   */
  ghost predicate Counts(t: Comparator, g: nat, m: multiset<Symbol>)
  {
    && t.generic == g
    && t.variable == m[Variable]
    && t.snow == m[Snow]
    && (forall c :: Count(t.colors, Some(c)) == m[Colored(c)])
    && Count(t.colors, None) == m[Colorless]
    && (forall c :: Count(t.hybrids, (c, None)) == m[MonoHybrid(c)])
    && (forall c1, c2 :: Count(t.hybrids, (c1, Some(c2))) == m[Hybrid(c1, c2)])
    && (forall c :: Count(t.phyrexian, c) == m[Phyrexian(c)])
  }

  /** Counting a generic amount adds it to the generic total and nothing else. */
  lemma GenericStepCounts(t: Comparator, g: nat, m: multiset<Symbol>, n: u16)
    requires Counts(t, g, m)
    ensures Counts(Step(t, Generic(n)), g + n as nat, m)
  {
  }

  /** Counting variable or snow mana adds one to its counter. */
  lemma CounterStepCounts(t: Comparator, g: nat, m: multiset<Symbol>, x: Symbol)
    requires Counts(t, g, m) && (x == Variable || x == Snow)
    ensures Counts(Step(t, x), g, m + multiset{x})
  {
  }

  /** Counting colored mana bumps the entry of its color. */
  lemma ColoredStepCounts(t: Comparator, g: nat, m: multiset<Symbol>, c: Color)
    requires Counts(t, g, m)
    ensures Counts(Step(t, Colored(c)), g, m + multiset{Colored(c)})
  {
  }

  /** Counting colorless mana bumps the entry with no color. */
  lemma ColorlessStepCounts(t: Comparator, g: nat, m: multiset<Symbol>)
    requires Counts(t, g, m)
    ensures Counts(Step(t, Colorless), g, m + multiset{Colorless})
  {
  }

  /** Counting a single-color hybrid bumps the entry of its color with no second color. */
  lemma MonoHybridStepCounts(t: Comparator, g: nat, m: multiset<Symbol>, c: Color)
    requires Counts(t, g, m)
    ensures Counts(Step(t, MonoHybrid(c)), g, m + multiset{MonoHybrid(c)})
  {
  }

  /** Counting Phyrexian mana bumps the entry of its color. */
  lemma PhyrexianStepCounts(t: Comparator, g: nat, m: multiset<Symbol>, c: Color)
    requires Counts(t, g, m)
    ensures Counts(Step(t, Phyrexian(c)), g, m + multiset{Phyrexian(c)})
  {
  }

  /** Counting a two-color hybrid bumps the entry of its color-pie pair, which is the symbol `Added` records. */
  lemma HybridStepCounts(t: Comparator, g: nat, m: multiset<Symbol>, c1: Color, c2: Color)
    requires Counts(t, g, m)
    ensures Counts(Step(t, Hybrid(c1, c2)), g, m + multiset{Canon(Hybrid(c1, c2))})
  {
    var key := HybridKey(c1, c2);
    var h := Canon(Hybrid(c1, c2));
    assert h == Hybrid(key.0, key.1.value);
    var t' := Step(t, Hybrid(c1, c2));
    var m' := m + multiset{h};
    forall a, b
      ensures Count(t'.hybrids, (a, Some(b))) == m'[Hybrid(a, b)]
    {
      if (a, Some(b)) != key {
        assert Count(t'.hybrids, (a, Some(b))) == Count(t.hybrids, (a, Some(b)));
      }
    }
  }

  /** Counting one symbol keeps `Counts`, adding its generic amount and `Added` of it. */
  lemma StepCounts(t: Comparator, g: nat, m: multiset<Symbol>, x: Symbol)
    requires Counts(t, g, m)
    ensures Counts(Step(t, x), g + GenericAmount(x), m + Added(x))
  {
    match x
    case Generic(n) =>
      assert m + Added(x) == m;
      GenericStepCounts(t, g, m, n);
    case Hybrid(c1, c2) =>
      HybridStepCounts(t, g, m, c1, c2);
    case Colored(c) =>
      ColoredStepCounts(t, g, m, c);
    case Colorless =>
      ColorlessStepCounts(t, g, m);
    case Variable =>
      CounterStepCounts(t, g, m, x);
    case MonoHybrid(c) =>
      MonoHybridStepCounts(t, g, m, c);
    case Phyrexian(c) =>
      PhyrexianStepCounts(t, g, m, c);
    case Snow =>
      CounterStepCounts(t, g, m, x);
  }

  /** The comparator of a sequence counts its generic total and its non-generic symbols. */
  lemma {:induction false} ComparatorCounts(s: seq<Symbol>)
    ensures Counts(ComparatorOf(s), GenericTotal(s), multiset(NonGeneric(s)))
  {
    if s != [] {
      var init, x := s[..|s| - 1], s[|s| - 1];
      ComparatorCounts(init);
      StepCounts(ComparatorOf(init), GenericTotal(init), multiset(NonGeneric(init)), x);
      NonGenericStep(s);
    }
  }

  /** Two costs compare equal exactly when they have the same generic total and the same other symbols. */
  lemma EqualIffSameCost(a: seq<Symbol>, b: seq<Symbol>)
    ensures ComparatorOf(a) == ComparatorOf(b) <==> SameCost(a, b)
  {
    ComparatorCounts(a);
    ComparatorCounts(b);
    var ca, cb := ComparatorOf(a), ComparatorOf(b);
    var ma, mb := multiset(NonGeneric(a)), multiset(NonGeneric(b));
    CountsDetermineMap(ca.colors, cb.colors);
    CountsDetermineMap(ca.hybrids, cb.hybrids);
    CountsDetermineMap(ca.phyrexian, cb.phyrexian);
    if ca == cb {
      forall y
        ensures ma[y] == mb[y]
      {
        match y
        case Generic(n) =>
          assert Generic(n) !in ma && Generic(n) !in mb;
        case Colored(c) =>
        case Colorless =>
        case Variable =>
        case Hybrid(c1, c2) =>
        case MonoHybrid(c) =>
        case Phyrexian(c) =>
        case Snow =>
      }
      assert ma == mb;
    }
    if SameCost(a, b) {
      forall k: Option<Color>
        ensures Count(ca.colors, k) == Count(cb.colors, k)
      {
        if k.Some? {
          assert Count(ca.colors, Some(k.value)) == ma[Colored(k.value)];
        }
      }
      forall key: (Color, Option<Color>)
        ensures Count(ca.hybrids, key) == Count(cb.hybrids, key)
      {
        if key.1.None? {
          assert Count(ca.hybrids, (key.0, None)) == ma[MonoHybrid(key.0)];
        } else {
          assert Count(ca.hybrids, (key.0, Some(key.1.value))) == ma[Hybrid(key.0, key.1.value)];
        }
      }
    }
  }

  // ---------------------------------------------------------------------------
  // Consequences for cost equality.

  /** The indicator of the symbols that count as `y` among the non-generic ones. */
  function Hits(y: Symbol): Symbol -> nat
  {
    (x: Symbol) => if !x.Generic? && Canon(x) == y then 1 else 0
  }

  /** How often `y` occurs among the non-generic symbols is a sum over the sequence. */
  lemma {:induction false} NonGenericCount(s: seq<Symbol>, y: Symbol)
    ensures multiset(NonGeneric(s))[y] == Total(Hits(y), s)
  {
    if s != [] {
      NonGenericCount(s[..|s| - 1], y);
      NonGenericStep(s);
    }
  }

  /** Two sequences with the same generic total and the same sum of every indicator have the same cost. */
  lemma SameCostByCounts(a: seq<Symbol>, b: seq<Symbol>)
    requires GenericTotal(a) == GenericTotal(b)
    requires forall y :: Total(Hits(y), a) == Total(Hits(y), b)
    ensures SameCost(a, b)
  {
    forall y
      ensures multiset(NonGeneric(a))[y] == multiset(NonGeneric(b))[y]
    {
      NonGenericCount(a, y);
      NonGenericCount(b, y);
    }
  }

  /** Cost equality does not depend on the order of the symbols. */
  lemma EqualIgnoresOrder(a: ManaCost, b: ManaCost)
    requires multiset(a.symbols) == multiset(b.symbols)
    ensures Equal(a, b)
  {
    TotalOfPermutation(GenericAmount, a.symbols, b.symbols);
    forall y
      ensures Total(Hits(y), a.symbols) == Total(Hits(y), b.symbols)
    {
      TotalOfPermutation(Hits(y), a.symbols, b.symbols);
    }
    SameCostByCounts(a.symbols, b.symbols);
    EqualIffSameCost(a.symbols, b.symbols);
  }

  /** Replacing one symbol of a cost by another changes neither the generic total nor an indicator sum when the two agree on them. */
  lemma ReplaceOne(pre: seq<Symbol>, post: seq<Symbol>, x: seq<Symbol>, x': seq<Symbol>)
    requires GenericTotal(x) == GenericTotal(x')
    requires forall y :: Total(Hits(y), x) == Total(Hits(y), x')
    ensures Equal(ManaCost(pre + x + post), ManaCost(pre + x' + post))
  {
    TotalOfThree(GenericAmount, pre, x, post);
    TotalOfThree(GenericAmount, pre, x', post);
    forall y
      ensures Total(Hits(y), pre + x + post) == Total(Hits(y), pre + x' + post)
    {
      TotalOfThree(Hits(y), pre, x, post);
      TotalOfThree(Hits(y), pre, x', post);
    }
    SameCostByCounts(pre + x + post, pre + x' + post);
    EqualIffSameCost(pre + x + post, pre + x' + post);
  }

  /** A hybrid counts the same whichever way round its colors are stored, wherever it stands in the cost. */
  lemma HybridOrientationIsIgnored(pre: seq<Symbol>, post: seq<Symbol>, c1: Color, c2: Color)
    ensures Equal(ManaCost(pre + [Hybrid(c1, c2)] + post), ManaCost(pre + [Hybrid(c2, c1)] + post))
  {
    CanonHybridIsSymmetric(c1, c2);
    TotalOfSingleton(GenericAmount, Hybrid(c1, c2));
    TotalOfSingleton(GenericAmount, Hybrid(c2, c1));
    forall y
      ensures Total(Hits(y), [Hybrid(c1, c2)]) == Total(Hits(y), [Hybrid(c2, c1)])
    {
      TotalOfSingleton(Hits(y), Hybrid(c1, c2));
      TotalOfSingleton(Hits(y), Hybrid(c2, c1));
    }
    ReplaceOne(pre, post, [Hybrid(c1, c2)], [Hybrid(c2, c1)]);
  }

  /** Generic amounts are added up: two generic symbols count as one holding their sum. */
  lemma GenericAmountsAreSummed(pre: seq<Symbol>, post: seq<Symbol>, m: u16, n: u16)
    requires m as int + n as int < 0x1_0000
    ensures Equal(ManaCost(pre + [Generic(m), Generic(n)] + post), ManaCost(pre + [Generic(m + n)] + post))
  {
    var two, one := [Generic(m), Generic(n)], [Generic(m + n)];
    assert two == [Generic(m)] + [Generic(n)];
    TotalOfConcat(GenericAmount, [Generic(m)], [Generic(n)]);
    TotalOfSingleton(GenericAmount, Generic(m));
    TotalOfSingleton(GenericAmount, Generic(n));
    TotalOfSingleton(GenericAmount, Generic(m + n));
    forall y
      ensures Total(Hits(y), two) == Total(Hits(y), one)
    {
      TotalOfConcat(Hits(y), [Generic(m)], [Generic(n)]);
      TotalOfSingleton(Hits(y), Generic(m));
      TotalOfSingleton(Hits(y), Generic(n));
      TotalOfSingleton(Hits(y), Generic(m + n));
    }
    ReplaceOne(pre, post, two, one);
  }

  /** A cost with one more `y` than another, and the same generic total, is not equal to it. */
  lemma OneMoreIsUnequal(a: seq<Symbol>, b: seq<Symbol>, y: Symbol)
    requires Total(Hits(y), a) != Total(Hits(y), b)
    ensures !Equal(ManaCost(a), ManaCost(b))
  {
    NonGenericCount(a, y);
    NonGenericCount(b, y);
    EqualIffSameCost(a, b);
  }

  /** A single-color hybrid is counted apart from every two-color hybrid: the costs differ. */
  lemma MonoHybridIsNotHybrid(pre: seq<Symbol>, c: Color, c1: Color, c2: Color)
    ensures !Equal(ManaCost(pre + [MonoHybrid(c)]), ManaCost(pre + [Hybrid(c1, c2)]))
  {
    var y := MonoHybrid(c);
    TotalOfConcat(Hits(y), pre, [MonoHybrid(c)]);
    TotalOfConcat(Hits(y), pre, [Hybrid(c1, c2)]);
    TotalOfSingleton(Hits(y), MonoHybrid(c));
    TotalOfSingleton(Hits(y), Hybrid(c1, c2));
    OneMoreIsUnequal(pre + [MonoHybrid(c)], pre + [Hybrid(c1, c2)], y);
  }

  /** `Colorless` is counted under `None` and `Colored(c)` under `Some(c)`: the costs differ. */
  lemma ColorlessIsNotColored(pre: seq<Symbol>, c: Color)
    ensures !Equal(ManaCost(pre + [Colorless]), ManaCost(pre + [Colored(c)]))
  {
    var y := Colorless;
    TotalOfConcat(Hits(y), pre, [Colorless]);
    TotalOfConcat(Hits(y), pre, [Colored(c)]);
    TotalOfSingleton(Hits(y), Colorless);
    TotalOfSingleton(Hits(y), Colored(c));
    OneMoreIsUnequal(pre + [Colorless], pre + [Colored(c)], y);
  }

  /** The converted mana cost is the generic total plus the cost of the other symbols. */
  lemma {:induction false} CmcSplits(s: seq<Symbol>)
    ensures Total(SymbolCmc, s) == GenericTotal(s) + Total(SymbolCmc, NonGeneric(s))
  {
    if s != [] {
      var init, x := s[..|s| - 1], s[|s| - 1];
      CmcSplits(init);
      var tail := if x.Generic? then [] else [Canon(x)];
      TotalOfConcat(SymbolCmc, NonGeneric(init), tail);
      if !x.Generic? {
        TotalOfSingleton(SymbolCmc, Canon(x));
      }
    }
  }

  /** Costs that compare equal have the same converted mana cost. */
  lemma EqualCostsHaveEqualCmc(a: ManaCost, b: ManaCost)
    requires Equal(a, b)
    ensures Cmc(a) == Cmc(b)
  {
    EqualIffSameCost(a.symbols, b.symbols);
    CmcSplits(a.symbols);
    CmcSplits(b.symbols);
    TotalOfPermutation(SymbolCmc, NonGeneric(a.symbols), NonGeneric(b.symbols));
  }

  // ---------------------------------------------------------------------------
  // The examples of the tests.

  /** `Phyrexian(Blue)` prints `{U/P}` and `Generic(0)` prints `{0}`. */
  lemma SymbolTextExamples()
    ensures SymbolText(Phyrexian(Blue)) == "{U/P}"
    ensures SymbolText(Generic(0)) == "{0}"
  {
  }

  /** The cost of the printing test: five generic, colorless, green and a black-white hybrid. */
  const SampleCost: ManaCost := ManaCost([Generic(5), Colorless, Colored(Green), Hybrid(Black, White)])

  /** The last symbol of the sample cost prints `{W/B}`. */
  lemma SampleCostLastText()
    ensures SymbolsText([Hybrid(Black, White)]) == "{W/B}"
  {
    assert ColorPieOrder(Black, White) == (White, Black);
    SymbolsTextOfCons(Hybrid(Black, White), []);
    assert [Hybrid(Black, White)] == [Hybrid(Black, White)] + [];
  }

  /** The last two symbols of the sample cost print `{G}{W/B}`. */
  lemma SampleCostLastTwoText()
    ensures SymbolsText([Colored(Green), Hybrid(Black, White)]) == "{G}{W/B}"
  {
    SampleCostLastText();
    SymbolsTextOfCons(Colored(Green), [Hybrid(Black, White)]);
    assert [Colored(Green), Hybrid(Black, White)] == [Colored(Green)] + [Hybrid(Black, White)];
  }

  /** The last three symbols of the sample cost print `{C}{G}{W/B}`. */
  lemma SampleCostLastThreeText()
    ensures SymbolsText([Colorless, Colored(Green), Hybrid(Black, White)]) == "{C}{G}{W/B}"
  {
    SampleCostLastTwoText();
    SymbolsTextOfCons(Colorless, [Colored(Green), Hybrid(Black, White)]);
    assert [Colorless, Colored(Green), Hybrid(Black, White)] == [Colorless] + [Colored(Green), Hybrid(Black, White)];
  }

  /** The sample cost prints `{5}{C}{G}{W/B}`: the hybrid is printed in color-pie order. */
lemma SampleCostText()
    ensures CostText(SampleCost) == "{5}{C}{G}{W/B}"
  {
    SampleCostLastThreeText();
    SymbolsTextOfCons(Generic(5), [Colorless, Colored(Green), Hybrid(Black, White)]);
    assert SampleCost.symbols == [Generic(5)] + [Colorless, Colored(Green), Hybrid(Black, White)];
  }

    /** The sample cost has converted mana cost 8. */
  lemma SampleCostCmc()
    ensures Cmc(SampleCost) == 8
  {
    var s := SampleCost.symbols;
    assert s[..3] == [Generic(5), Colorless, Colored(Green)];
    assert s[..3][..2] == [Generic(5), Colorless];
    assert s[..3][..2][..1] == [Generic(5)];
    TotalOfSingleton(SymbolCmc, Generic(5));
    assert Total(SymbolCmc, s[..3][..2]) == 6;
    assert Total(SymbolCmc, s[..3]) == 7;
    assert SymbolCmc(s[3]) == 1;
  }

  /** `{2}{3}` equals `{5}`. */
  lemma TwoAndThreeIsFive()
    ensures Equal(ManaCost([Generic(2), Generic(3)]), ManaCost([Generic(5)]))
  {
    GenericAmountsAreSummed([], [], 2, 3);
    assert [] + [Generic(2), Generic(3)] + [] == [Generic(2), Generic(3)];
    assert [] + [Generic(5)] + [] == [Generic(5)];
  }
}
