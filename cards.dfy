/**
 * Cards (`magic_core/src/card/mod.rs`) and the `Named` trait's default methods
 * (`magic_core/src/traits.rs`). A card is one face of card data, or two faces of a
 * split, flip or double-faced card; only a one-faced card has a single name.
 */
module Cards {

  import opened Wrappers
  import CoreMana
  import TypeLines
  import Types

  /** `i32`, the width of power, toughness and loyalty. */
  newtype i32 = x: int | -0x8000_0000 <= x < 0x8000_0000

  /** `CardData`. The color indicator is a `ColorIdentity`'s bit set. */
  datatype CardData = CardData(
    name: string,
    manaCost: CoreMana.ManaCost,
    colorIndicator: Option<bv8>,
    typeLine: TypeLines.Line,
    powerToughness: Option<(i32, i32)>,
    loyalty: Option<i32>)

  /** `CardData::default()`. */
  const DefaultCardData: CardData := CardData("", CoreMana.ManaCost([]), None, TypeLines.Empty, None, None)

  /** The derived `PartialEq for CardData`: field by field, each with its own equality. */
  predicate SameCardData(a: CardData, b: CardData)
  {
    && a.name == b.name
    && CoreMana.Equal(a.manaCost, b.manaCost)
    && a.colorIndicator == b.colorIndicator
    && TypeLines.SameLine(a.typeLine, b.typeLine)
    && a.powerToughness == b.powerToughness
    && a.loyalty == b.loyalty
  }

  /** Card data equals itself, and listing the mana symbols in another order keeps it equal. */
  lemma ReorderedCostIsSameCard(d: CardData, symbols: seq<CoreMana.Symbol>)
    requires multiset(symbols) == multiset(d.manaCost.symbols)
    ensures SameCardData(d, d)
    ensures SameCardData(d, d.(manaCost := CoreMana.ManaCost(symbols)))
  {
    CoreMana.EqualIgnoresOrder(d.manaCost, d.manaCost);
    CoreMana.EqualIgnoresOrder(d.manaCost, CoreMana.ManaCost(symbols));
  }

  /** `ConvertedManaCost for CardData`: the converted mana cost of the card's mana cost. */
  function CardCmc(d: CardData): nat
  {
    CoreMana.Cmc(d.manaCost)
  }

  /** Equal card data has equal converted mana cost. */
  lemma SameCardsHaveSameCmc(a: CardData, b: CardData)
    requires SameCardData(a, b)
    ensures CardCmc(a) == CardCmc(b)
  {
    CoreMana.EqualCostsHaveEqualCmc(a.manaCost, b.manaCost);
  }

  // ---------------------------------------------------------------------------
  // `Named`: the default methods.

  /** The default `Named::names`: a name, when there is one; with none it aborts. */
  function DefaultNames(name: Option<string>): (r: seq<string>)
    requires name.Some?
    ensures |r| == 1 && r[0] == name.value
  {
    [name.value]
  }

  /** `Named::match_name`: whether any of the names equals the query. */
  function MatchName(names: seq<string>, query: string): (r: bool)
    ensures r <==> query in names
  {
    if names == [] then false
    else names[0] == query || MatchName(names[1..], query)
  }

  /** `Named for CardData`: card data always has its name. */
  function CardDataName(d: CardData): (r: Option<string>)
    ensures r.Some? && r.value == d.name
  {
    Some(d.name)
  }

  /** The names of card data: the default method over its single name. */
  function CardDataNames(d: CardData): (r: seq<string>)
  {
    DefaultNames(CardDataName(d))
  }

  /** Card data matches exactly its own name. */
  lemma CardDataMatchesItsName(d: CardData, query: string)
    ensures CardDataNames(d) == [d.name]
    ensures MatchName(CardDataNames(d), query) <==> query == d.name
  {
  }

  // ---------------------------------------------------------------------------
  // `Card`.

  /** `Card`: one face, or the two faces of a split, flip or double-faced card. */
  datatype Card =
    | Normal(data: CardData)
    | Split(left: CardData, right: CardData, fuse: bool)
    | Flip(top: CardData, bottom: CardData)
    | DoubleFaced(front: CardData, back: CardData)

  /** The faces of a card, in field order. */
  function Faces(c: Card): (r: seq<CardData>)
    ensures |r| == (if c.Normal? then 1 else 2)
  {
    match c
    case Normal(d) => [d]
    case Split(l, r, _) => [l, r]
    case Flip(t, b) => [t, b]
    case DoubleFaced(f, b) => [f, b]
  }

  /** `Named for Card`: only a one-faced card has a single name. */
  function CardName(c: Card): (r: Option<string>)
    ensures r.Some? <==> c.Normal?
    ensures c.Normal? ==> r == CardDataName(c.data)
  {
    match c
    case Normal(d) => CardDataName(d)
    case Split(_, _, _) => None
    case Flip(_, _) => None
    case DoubleFaced(_, _) => None
  }

  /** `Named::names for Card`: the name of every face. */
  function CardNames(c: Card): (r: seq<string>)
  {
    match c
    case Normal(d) => [CardDataName(d).value]
    case Split(l, r, _) => [CardDataName(l).value, CardDataName(r).value]
    case Flip(t, b) => [CardDataName(t).value, CardDataName(b).value]
    case DoubleFaced(f, b) => [CardDataName(f).value, CardDataName(b).value]
  }

  /** A card's names are the names of its faces, in field order. */
  lemma CardNamesAreFaceNames(c: Card)
    ensures |CardNames(c)| == |Faces(c)|
    ensures forall i :: 0 <= i < |Faces(c)| ==> CardNames(c)[i] == Faces(c)[i].name
  {
  }

  /** For a one-faced card the override gives what the default method would. */
  lemma NormalNamesAreDefault(c: Card)
    requires c.Normal?
    ensures CardNames(c) == DefaultNames(CardName(c))
  {
  }

  /** A card matches a query exactly when one of its faces is named so. */
  lemma CardMatchesAFace(c: Card, query: string)
    ensures MatchName(CardNames(c), query) <==> exists i :: 0 <= i < |Faces(c)| && Faces(c)[i].name == query
  {
    CardNamesAreFaceNames(c);
    if MatchName(CardNames(c), query) {
      var i :| 0 <= i < |CardNames(c)| && CardNames(c)[i] == query;
      assert Faces(c)[i].name == query;
    }
  }

  /** A basic Mountain with every other field at its default. */
  const MountainCard: Card := Normal(DefaultCardData.(
    name := "Mountain",
    typeLine := TypeLines.Line([Types.Supertype.Basic], [Types.Type.Land], [Types.Subtype.Land(Types.LandType.Mountain)])))

  /** The Mountain is named "Mountain" and matches that name. */
  lemma MountainCardName()
    ensures CardName(MountainCard) == Some("Mountain")
    ensures MatchName(CardNames(MountainCard), "Mountain")
  {
  }
}
