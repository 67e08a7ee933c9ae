# magic: colors, types, type lines, mana and turns, in Dafny

A model of the rules engine at the heart of the `magic` crates:

- **Colors and color identity.**
  - The five colors have fixed ordinals and one-letter initials.
  - The color-pie ordering puts a pair of colors the short way round the wheel.
  - A color identity is a `u8` bitset that is updated in place and printed as its initials.
- **Type vocabulary.**
  - It covers the card types, supertypes and seven categories of subtypes of rules 205.2a, 205.3g–n and 205.4c of the Magic: The Gathering Comprehensive Rules.
  - Each has explicit name tables, including the renamed entries ("Power-Plant", "Urza's", "Assembly-Worker", "Bolas's Meditation Realm").
  - A subtype name is read by trying the categories in declaration order.
  - A subtype→type compatibility table is included.
- **Card type lines.**
  - A type line holds three insertion-ordered sets, supertypes, types and subtypes, that a `TypeLine` object updates in place.
  - Removal has `swap_remove` semantics.
  - The type line has a validity test and a canonical printer.
  - It has a two-phase greedy reader that splits on the em dash U+2014.
- **Mana symbols and costs,** in the two variants of the code base:
  - `src/mana.rs`, where a symbol `Color(Option<Color>)` is colored or colorless and `hybrid` stores its pair in color-pie order;
  - `magic_core/src/mana.rs`, with separate `Colored`/`Colorless` symbols, a `u16` generic amount, and hybrids canonicalised when printed.

  Each variant has its per-symbol converted mana cost, its sum over a cost, and the order-insensitive cost equality computed by counting into a comparator.
- **Turn structure.** The thirteen steps, their phases, the derived orderings and the priority rule.
- **MTG JSON formats.** Abbreviated colors, release-date padding and `is_default`.
- **Cards.** Card faces, names and name matching in the `Named` trait.

Mutable state keeps the source's form:

- `Colors.ColorIdentity` is a class over a `bv8` field.
- `TypeLines.TypeLine` is a class over three sequence fields.
- The comparator construction, the identity's `from_iter` and `Display`, the type-line writer and reader loops, and the date padding are methods with loops.

Each method is proved against a specification function. The properties the code promises are proved about those functions.

The modules are:

- `Wrappers`: `Option` and `Result`.
- `Colors`: `src/lib.rs`.
- `Text`: the standard string operations the type line relies on, namely Unicode white space, `split_whitespace`, `trim`, `split` on a character and decimal printing.
- `Types`: `src/type_.rs`.
- `IndexSets`: `IndexSet` as a duplicate-free sequence.
- `TypeLines`: `src/card/type_line.rs`.
- `TypeLineExamples`: the test lines of that file.
- `ManaTally`: the counting shared by both mana files.
- `Mana`: `src/mana.rs`.
- `CoreMana`: `magic_core/src/mana.rs`.
- `Phases`: `src/phase.rs`.
- `MtgJson`: `mtgjson/src/lib.rs`.
- `Cards`: `magic_core/src/card/mod.rs` and `magic_core/src/traits.rs`.

## Model

| member | source | states |
|---|---|---|
| Colors.Ordinal | src/lib.rs:13-20 | a color's discriminant is below 5 |
| Colors.OrdinalsAreFixed | src/lib.rs:13-20 | White, Blue, Black, Red, Green have discriminants 0, 1, 2, 3, 4 |
| Colors.AllColorsInOrdinalOrder | src/lib.rs:22-35 | the iterator yields five colors, the i-th having ordinal i, and every color occurs in it |
| Colors.ColorPieOrderIsPermutation | src/lib.rs:37-46 | the color-pie order of a pair is the pair itself or the pair swapped |
| Colors.ColorPieOrderIsSymmetric | src/lib.rs:37-46 | ordering (a, b) and (b, a) gives the same pair |
| Colors.ColorPieOrderIsValidPair | src/lib.rs:37-46 | for two distinct colors the result is one of the ten wheel pairs listed in the test (src/lib.rs:141-152) |
| Colors.ColorPieOrderByGap | src/lib.rs:41-44 | the pair comes out (high, low) when the ordinals are more than two apart, else (low, high) |
| Colors.ColorPieOrderIsIdempotent | src/lib.rs:37-46 | ordering an ordered pair again leaves it unchanged |
| Colors.InitialIsInjective | src/lib.rs:48-58 | two colors have the same initial exactly when they are the same color |
| Colors.Initials | src/lib.rs:105-107 | the initials of a color sequence hold, position by position, each color's initial |
| Colors.Bit | src/lib.rs:74 | the mask of a color is 1 shifted left by its ordinal |
| Colors.TrailingZeros | src/lib.rs:70 | `u8::trailing_zeros` is at most 8 |
| Colors.ColorlessBitsIffNoColor | src/lib.rs:69-75 | `is_colorless` (five or more trailing zeros) holds exactly when no color is present |
| Colors.TrailingZerosAtLeast | src/lib.rs:70 | at least k trailing zeros from bit i means bits i to i+k-1 are all clear, and back |
| Colors.AddColor | src/lib.rs:77-79 | after `add(c)`, c is present, every other color's presence is unchanged, and the three high bits are untouched |
| Colors.RemoveColor | src/lib.rs:81-83 | after `remove(c)`, c is absent, every other color's presence is unchanged, and the three high bits are untouched |
| Colors.PresentMembership | src/lib.rs:85-87 | filtering colors by the bitset keeps exactly the listed colors that are present |
| Colors.PresentKeepsOrder | src/lib.rs:85-87 | filtering an ordinal-ascending list keeps it ascending |
| Colors.ColorsOfIsOrderedMembership | src/lib.rs:85-87 | `colors()` holds exactly the present colors, in strictly ascending ordinal order |
| Colors.RenderMeaning | src/lib.rs:100-112 | the display is "C" exactly when no color is present; otherwise it holds one initial per present color, in `colors()` order |
| Colors.ColorsOfExplicit | src/lib.rs:85-87 | `colors()` is White, Blue, Black, Red, Green each kept when present |
| Colors.RenderWhiteGreen | src/lib.rs:132 | 0b10001 displays as "WG" |
| Colors.RenderBlueBlackRed | src/lib.rs:133 | 0b01110 displays as "UBR" |
| Colors.RenderRedAndColorless | src/lib.rs:131-134 | 0b01000 displays as "R" and 0 displays as "C" |
| Colors.FoldAdd | src/lib.rs:90-98 | adding a sequence of colors makes present exactly the colors already present or in the sequence, and leaves the high bits alone |
| Colors.BitsExtensional | src/lib.rs:61-62 | two identities are equal when their high bits agree and they hold the same colors |
| Colors.FoldAddIgnoresOrder | src/lib.rs:90-98 | two color sequences with the same members collect into the same identity, whatever their order or repetitions |
| Colors.ColorIdentity.constructor | src/lib.rs:65-67 | `new` is the empty bitset |
| Colors.ColorIdentity.FromBits | src/lib.rs:62 | the tuple constructor stores the given bits |
| Colors.ColorIdentity.Add | src/lib.rs:77-79 | updates the bits in place to `AddColor` of the old bits: c is present, the others are unchanged |
| Colors.ColorIdentity.Remove | src/lib.rs:81-83 | updates the bits in place to `RemoveColor` of the old bits: c is absent, the others are unchanged |
| Colors.ColorIdentity.FromIter | src/lib.rs:90-98 | the loop yields a fresh identity whose colors are exactly those of the input |
| Colors.ColorIdentity.Display | src/lib.rs:100-112 | the write loop produces `Render` of the bits |
| Text.EmDashIsNotWhitespace | src/card/type_line.rs:7 | the em dash is not Unicode white space |
| Text.TokensAreWords | src/card/type_line.rs:137 | every token of `split_whitespace` is a non-empty run without white space |
| Text.TokensOfBlank | src/card/type_line.rs:137 | white space alone yields no token |
| Text.TrimStart | src/card/type_line.rs:168 | the result is a suffix of the input; it starts with no white space; everything dropped was white space |
| Text.TrimEnd | src/card/type_line.rs:168 | the result is a prefix of the input; it ends with no white space; everything dropped was white space |
| Text.TrimOfTrimmed | src/card/type_line.rs:168 | trimming text that neither starts nor ends with white space changes nothing |
| Text.Before | src/card/type_line.rs:128 | the first piece of `split` is the longest dash-free prefix, followed by the dash if any text remains |
| Text.After | src/card/type_line.rs:128 | the rest after the first dash exists exactly when the text holds a dash, and the text is first piece + dash + rest |
| Text.PiecesOf | src/card/type_line.rs:128 | for a dash-free a, `split` of a + dash + b gives a, then the first piece of b |
| Text.PiecesOfUnsplit | src/card/type_line.rs:128 | dash-free text splits into itself alone |
| Text.NatToDecimal | src/mana.rs:61 | `to_string` of a number is non-empty and all decimal digits |
| Text.NatToDecimalRoundTrip | src/mana.rs:61 | the decimal text of n reads back as n |
| Types.ParseType | src/type_.rs:23-42 | a parsed type prints as the text it was parsed from |
| Types.ParseArtifactType | src/type_.rs:74-86 | a parsed artifact subtype prints as its text |
| Types.ParseEnchantmentType | src/type_.rs:88-99 | a parsed enchantment subtype prints as its text |
| Types.ParseLandType | src/type_.rs:101-120 | a parsed land subtype prints as its text (including "Power-Plant" and "Urza's") |
| Types.ParseSpellType | src/type_.rs:177-185 | a parsed spell subtype prints as its text |
| Types.ParseSupertype | src/type_.rs:487-498 | a parsed supertype prints as its text |
| Types.ValidForSameNamedType | src/type_.rs:60-72 | artifact, enchantment, land, planeswalker and plane subtypes are valid for exactly their same-named type |
| Types.ValidForSpellAndCreature | src/type_.rs:60-72 | spell subtypes are valid exactly for Instant or Sorcery; creature subtypes exactly for Creature or Tribal |
| Types.ValidForSomeType | src/type_.rs:60-72 | no subtype is valid for Conspiracy, Phenomenon, Scheme or Vanguard, and every subtype is valid for some type |
| Types.TypeNameRoundTrip | src/type_.rs:23-42 | every type's name parses back to that type |
| Types.SupertypeNameRoundTrip | src/type_.rs:487-498 | every supertype's name parses back to that supertype |
| Types.TypeNamesAreWords | src/type_.rs:23-42 | every type name is one whitespace-free word without an em dash |
| Types.SupertypeNamesAreWords | src/type_.rs:487-498 | every supertype name is one whitespace-free word without an em dash |
| Types.SupertypeAndTypeNamesDisjoint | src/type_.rs:25-39 | no supertype name parses as a type and no type name parses as a supertype |
| Types.ParseSubtypeFirstMatch | src/type_.rs:44-58 | parsing a subtype yields the subtype of the first category, in declaration order, whose reader accepts the text |
| Types.ArtifactNameRoundTrip | src/type_.rs:74-86 | every artifact subtype's name reads back to it |
| Types.EnchantmentNameRoundTrip | src/type_.rs:88-99 | every enchantment subtype's name reads back to it and is no artifact name |
| Types.LandNameRoundTrip | src/type_.rs:101-120 | every land subtype's name reads back to it and belongs to no earlier category |
| Types.SpellNameRoundTrip | src/type_.rs:177-185 | every spell subtype's name reads back to it and belongs to no earlier category |
| Types.PlaneswalkerNameRoundTrip | src/type_.rs:122-175 | every planeswalker subtype's name reads back to it and belongs to no earlier category |
| Types.SmallSubtypeRoundTrip | src/type_.rs:44-58 | an artifact, enchantment, land, planeswalker or spell subtype's name parses back, through the untagged first-match reader, to that subtype |
| Types.ArtifactNamesAreWords | src/type_.rs:74-86 | artifact subtype names are words without an em dash |
| Types.EnchantmentNamesAreWords | src/type_.rs:88-99 | enchantment subtype names are words without an em dash |
| Types.LandNamesAreWords | src/type_.rs:101-120 | land subtype names are words without an em dash |
| Types.SpellNamesAreWords | src/type_.rs:177-185 | spell subtype names are words without an em dash |
| Types.CreatureReadsBack | src/type_.rs:44-58 | a creature subtype reads back when the creature table knows its name and no earlier category claims it |
| Types.CreatureTestNames | src/type_.rs:187-434 | Vampire, Merfolk, Wizard, Construct and God print as themselves and AssemblyWorker prints as "Assembly-Worker" (src/type_.rs:200) |
| Types.CreatureTestParses | src/type_.rs:187-434 | those six names parse back to those creature types |
| Types.CreatureTestNamesUnknownBefore | src/type_.rs:44-58 | no category before Creature claims any of those six names |
| Types.CreatureTestSubtypesReadBack | src/type_.rs:44-58 | those six creature subtypes round-trip through the subtype reader |
| Types.HumanReadsBack | src/type_.rs:187-434 | the creature subtype Human prints as "Human" and reads back (src/type_.rs:44-58) |
| Types.LorwynReadsBack | src/type_.rs:436-485 | the plane Lorwyn prints as "Lorwyn" and reads back |
| Types.SampleSubtypesPrint | src/type_.rs:505-529 | the seven test subtypes print, in order, as the seven test names (serialisation, src/type_.rs:540-547) |
| Types.SampleNamesRead | src/type_.rs:505-538 | the seven test names parse, in order, as the seven test subtypes (deserialisation) |
| Types.MountainIsLand | src/type_.rs:554-557 | "Mountain" parses as the land subtype Mountain |
| Types.RenamedEntriesRoundTrip | src/type_.rs:113-116 | Power-Plant and Urza's print under their renames and read back |
| Types.BolasRealmRoundTrip | src/type_.rs:443 | Bolas's Meditation Realm prints as "Bolas's Meditation Realm" (src/type_.rs:559-567) and reads back |
| IndexSets.Insert | src/card/type_line.rs:35-45 | `IndexSet::insert` adds x to the set's elements, keeps the existing order as a prefix, is a no-op when x is already there, and keeps the set duplicate-free |
| IndexSets.IndexOf | src/card/type_line.rs:59-69 | the position of x is the first one holding x |
| IndexSets.SwapRemove | src/card/type_line.rs:59-69 | removing x moves the last element into x's slot, keeps what came before and after that slot, and removes exactly x from the elements; removing a missing x changes nothing |
| IndexSets.FromSeq | src/card/type_line.rs:21-33 | collecting into an `IndexSet` is duplicate-free with the same elements |
| IndexSets.FromSeqOfNoDup | src/card/type_line.rs:21-33 | collecting a duplicate-free sequence keeps it as it is |
| IndexSets.CardinalityOfNoDup | src/card/type_line.rs:9-14 | a duplicate-free sequence has as many elements as its length |
| IndexSets.SameSetIsSetEquality | src/card/type_line.rs:9-14 | the derived `IndexSet` equality (same length, each element of one in the other) is equality of the element sets |
| IndexSets.SameSetIsEquivalence | src/card/type_line.rs:9-14 | that equality is reflexive, symmetric and transitive |
| IndexSets.InsertIsIdempotent | src/card/type_line.rs:35-45 | inserting twice is inserting once |
| IndexSets.InsertCommutes | src/card/type_line.rs:35-45 | the order of two insertions does not matter to set equality |
| IndexSets.RemoveThenInsert | src/card/type_line.rs:35-69 | removing a present element and inserting it again gives an equal set |
| TypeLines.SupertypeNames | src/card/type_line.rs:93-95 | supertype names are listed position by position |
| TypeLines.TypeNames | src/card/type_line.rs:97-99 | type names are listed position by position |
| TypeLines.SubtypeNames | src/card/type_line.rs:104-106 | subtype names are listed position by position |
| TypeLines.RenderByNames | src/card/type_line.rs:91-110 | the display is each supertype followed by a space, then the types joined by spaces, then, if there are subtypes, " —" and " name" for each |
| TypeLines.ReadGreedy | src/card/type_line.rs:140-158 | the greedy loop stops at the end or at the first token its reader rejects, and keeps the set duplicate-free |
| TypeLines.ReadGreedyStep | src/card/type_line.rs:140-158 | an accepted token is inserted and reading continues with the next |
| TypeLines.ReadGreedyStop | src/card/type_line.rs:140-158 | at a rejected token or at the end, reading stops with the tokens left |
| TypeLines.ReadPostDash | src/card/type_line.rs:166-190 | the post-dash half gives duplicate-free subtypes, or `ExtraParts` of a token that is no subtype |
| TypeLines.ReadSubtypeTokens | src/card/type_line.rs:172-186 | token by token, the subtypes are duplicate-free, or the first rejected token is `ExtraParts` |
| TypeLines.ReadPreDash | src/card/type_line.rs:133-163 | the pre-dash half gives duplicate-free supertypes and types, or `ExtraParts` of the first token after them, which is no type |
| TypeLines.ParseLine | src/card/type_line.rs:124-194 | `from_str` yields a well-formed type line or an `ExtraParts` error; `NotAnEmDash` is never produced |
| TypeLines.PreDashErrorToken | src/card/type_line.rs:160-162 | for text without a dash, the error token is one that does not parse as a type |
| TypeLines.ParseBlank | src/card/type_line.rs:127-193 | text of white space only parses to the empty type line |
| TypeLines.ParseIgnoresAfterSecondDash | src/card/type_line.rs:128 | anything after a second em dash is ignored |
| TypeLines.InsertAll | src/card/type_line.rs:140-187 | inserting several elements adds exactly those elements |
| TypeLines.InsertAllFresh | src/card/type_line.rs:140-187 | inserting fresh elements appends them in order |
| TypeLines.ReadGreedyReadsAll | src/card/type_line.rs:140-158 | tokens that all parse are all inserted, and reading stops at the first rejected token |
| TypeLines.PreDashIsDashFree | src/card/type_line.rs:93-99 | the printed supertypes and types hold no em dash |
| TypeLines.PreDashTokens | src/card/type_line.rs:93-99 | the printed supertypes and types split back into their names |
| TypeLines.SupertypePhaseReadsBack | src/card/type_line.rs:142-149 | the supertype phase consumes exactly the printed supertypes and stops at the first type name |
| TypeLines.TypePhaseReadsBack | src/card/type_line.rs:151-158 | the type phase consumes exactly the printed types |
| TypeLines.SubtypesReadBackByNames | src/card/type_line.rs:166-190 | several subtypes read back when their names are dash-free words that each read back and do not read together as one subtype |
| TypeLines.SubtypeReadsBackAlone | src/card/type_line.rs:169-170 | one subtype reads back when its name has no dash and no surrounding white space |
| TypeLines.PostDashReadsBackOne | src/card/type_line.rs:168-170 | one printed subtype is read back whole by the trimmed-remainder attempt |
| TypeLines.SpacedWordsTrim | src/card/type_line.rs:104-106 | " w1 w2 …" trims to "w1 w2 …", which splits back into its words |
| TypeLines.SubtypeTokensReadBack | src/card/type_line.rs:172-186 | the names of subtypes that each read back are read back token by token |
| TypeLines.PostDashReadsBackMany | src/card/type_line.rs:166-190 | several printed subtypes are read back token by token |
| TypeLines.ReadPostDashWhole | src/card/type_line.rs:168-170 | a remainder that trims to one subtype name gives exactly that subtype |
| TypeLines.ReadPostDashByTokens | src/card/type_line.rs:171-186 | otherwise the tokens are read greedily, and a leftover token is `ExtraParts` |
| TypeLines.PostDashReadsBack | src/card/type_line.rs:166-190 | printed subtypes read back as the same subtypes |
| TypeLines.ParseLineOfOnePiece | src/card/type_line.rs:128-163 | text without a dash parses to the pre-dash reading and no subtypes |
| TypeLines.ParseLineOfTwoPieces | src/card/type_line.rs:128-190 | text with a dash parses to the pre-dash and post-dash readings together |
| TypeLines.PreDashReadsBack | src/card/type_line.rs:133-163 | the printed supertypes and types, with any trailing white space, read back as themselves |
| TypeLines.PhasesLeaveExtraWord | src/card/type_line.rs:142-158 | a non-type word after the types is left over by both phases |
| TypeLines.WordAfterTypesIsExtra | src/card/type_line.rs:160-162 | a non-type word after the types is reported as `ExtraParts` of that word |
| TypeLines.SupertypeAfterTypesIsExtra | src/card/type_line.rs:160-162 | a supertype after the types is `ExtraParts`, because the supertype phase is over |
| TypeLines.PiecesOfRenderWithoutSubtypes | src/card/type_line.rs:101-103 | a line without subtypes prints without a dash |
| TypeLines.PiecesAroundDash | src/card/type_line.rs:128 | "pre —post" splits into "pre " and "post" |
| TypeLines.PiecesOfDashedText | src/card/type_line.rs:128-163 | a printed line with subtypes splits at its dash, and the first piece reads back |
| TypeLines.RenderReadsBackWithoutSubtypes | src/card/type_line.rs:91-194 | a well-formed line without subtypes parses back from its display |
| TypeLines.RenderReadsBackWithSubtypes | src/card/type_line.rs:91-194 | a well-formed line whose subtypes read back parses back from its display |
| TypeLines.RenderReadsBack | src/card/type_line.rs:91-194 | display then `from_str` is the identity on well-formed lines whose subtype names read back |
| TypeLines.ParseLineFailsAfterDash | src/card/type_line.rs:165-187 | when the text before the dash reads and the text after it does not, `from_str` fails with the error of the text after the dash |
| TypeLines.IsValidLine | src/card/type_line.rs:83-88 | a line is valid exactly when some card type is present and every subtype present goes with one of the card types present |
| TypeLines.ValidityFollowsElements | src/card/type_line.rs:83-88 | validity carries over to any line with the same card types and subtypes, whatever their order or multiplicity |
| TypeLines.ValidityIgnoresOrder | src/card/type_line.rs:83-88 | two well-formed lines that are equal as `TypeLine`s (src/card/type_line.rs:8-13) are both valid or both invalid |
| TypeLines.TypeLine.constructor | src/card/type_line.rs:17-19 | `new` holds three empty sets |
| TypeLines.TypeLine.FromIters | src/card/type_line.rs:21-33 | each set is collected from its sequence |
| TypeLines.TypeLine.AddSupertype | src/card/type_line.rs:35-37 | updates the supertypes to the insertion, leaves the other sets alone, makes `has_supertype` true and keeps the sets duplicate-free |
| TypeLines.TypeLine.AddType | src/card/type_line.rs:39-41 | the same for types |
| TypeLines.TypeLine.AddSubtype | src/card/type_line.rs:43-45 | the same for subtypes |
| TypeLines.TypeLine.RemoveSupertype | src/card/type_line.rs:59-61 | the supertypes become their swap-removal, the other sets are unchanged, and x is then absent |
| TypeLines.TypeLine.RemoveType | src/card/type_line.rs:63-65 | the same for types |
| TypeLines.TypeLine.RemoveSubtype | src/card/type_line.rs:67-69 | the same for subtypes |
| TypeLines.TypeLine.IsValid | src/card/type_line.rs:83-88 | `is_valid` holds exactly when the object's card types are not empty and each of its subtypes goes with one of its card types |
| TypeLines.TypeLine.Display | src/card/type_line.rs:91-110 | the writer produces `Render` of the current value |
| TypeLines.TypeLine.WriteSupertypes | src/card/type_line.rs:93-95 | each supertype followed by a space |
| TypeLines.TypeLine.WriteTypes | src/card/type_line.rs:97-99 | the types joined by single spaces |
| TypeLines.TypeLine.WriteSubtypes | src/card/type_line.rs:104-106 | a space before each subtype |
| TypeLines.TypeLine.FromStr | src/card/type_line.rs:124-194 | builds a fresh type line by insertion that is exactly `ParseLine` of the text, or fails with `ParseLine`'s error |
| TypeLines.ReadPreDashInto | src/card/type_line.rs:133-163 | the pre-dash loops fill an empty line with `ReadPreDash`'s result, or return its error |
| TypeLines.AddSupertypesWhileRead | src/card/type_line.rs:142-149 | the supertype loop inserts what `ReadGreedy` reads and stops where it stops |
| TypeLines.AddTypesWhileRead | src/card/type_line.rs:151-158 | the type loop inserts what `ReadGreedy` reads and stops where it stops |
| TypeLines.AddSubtypesWhileRead | src/card/type_line.rs:176-183 | the subtype loop inserts what `ReadGreedy` reads and stops where it stops |
| TypeLines.ReadPostDashInto | src/card/type_line.rs:166-190 | the post-dash code adds `ReadPostDash`'s subtypes, or returns its error |
| TypeLineExamples.GodLineRoundTrip | src/card/type_line.rs:251-252 | "Legendary Enchantment Creature — God" is the display of its line, parses back to it, and the line is valid |
| TypeLineExamples.ConstructLineRoundTrip | src/card/type_line.rs:255-256 | "Artifact Creature — Construct" prints, parses back and is valid |
| TypeLineExamples.MerfolkWizardLineRoundTrip | src/card/type_line.rs:259-260 | "Creature — Merfolk Wizard" prints, parses back and is valid |
| TypeLineExamples.LandLineRoundTrip | src/card/type_line.rs:262 | "Land" prints, parses back and is valid |
| TypeLineExamples.KarnLineRoundTrip | src/card/type_line.rs:264-265 | "Legendary Planeswalker — Karn" prints, parses back and is valid |
| TypeLineExamples.AuraCurseLineRoundTrip | src/card/type_line.rs:268-269 | "Enchantment — Aura Curse" prints, parses back and is valid |
| TypeLineExamples.MountainLineRoundTrip | src/card/type_line.rs:272-273 | "Basic Snow Land — Mountain" prints, parses back and is valid |
| TypeLineExamples.ArcaneLineRoundTrip | src/card/type_line.rs:275 | "Instant — Arcane" prints, parses back and is valid |
| TypeLineExamples.BolasRealmLineRoundTrip | src/card/type_line.rs:277-278 | "Plane — Bolas's Meditation Realm" prints, parses back and is valid |
| TypeLineExamples.GodLineIsValid | src/card/type_line.rs:83-88 | the God line passes `is_valid` |
| TypeLineExamples.ConstructLineIsValid | src/card/type_line.rs:83-88 | the Construct line passes `is_valid` |
| TypeLineExamples.MerfolkWizardLineIsValid | src/card/type_line.rs:83-88 | the Merfolk Wizard line passes `is_valid` |
| TypeLineExamples.LandLineIsValid | src/card/type_line.rs:83-88 | the Land line passes `is_valid` |
| TypeLineExamples.KarnLineIsValid | src/card/type_line.rs:83-88 | the Karn line passes `is_valid` |
| TypeLineExamples.AuraCurseLineIsValid | src/card/type_line.rs:83-88 | the Aura Curse line passes `is_valid` |
| TypeLineExamples.MountainLineIsValid | src/card/type_line.rs:83-88 | the Mountain line passes `is_valid` |
| TypeLineExamples.ArcaneLineIsValid | src/card/type_line.rs:83-88 | the Arcane line passes `is_valid` |
| TypeLineExamples.BolasRealmLineIsValid | src/card/type_line.rs:83-88 | the Bolas's Meditation Realm line passes `is_valid` |
| TypeLineExamples.HumanArtifactLineIsInvalid | src/card/type_line.rs:292 | Artifact — Human fails `is_valid` |
| TypeLineExamples.JaceEnchantmentCreatureLineIsInvalid | src/card/type_line.rs:293 | Enchantment Creature — Jace fails `is_valid` |
| TypeLineExamples.CurseLandLineIsInvalid | src/card/type_line.rs:294 | Legendary Snow Land — Curse fails `is_valid` |
| TypeLineExamples.InvalidLineReadsBack | src/card/type_line.rs:124-194 | "Artifact — Human" is the display of the Human-artifact line and `from_str` reads it back, though the line fails `is_valid`: reading never checks validity |
| TypeLineExamples.TwoPlanesPostDash | src/card/type_line.rs:166-187 | " Bolas's Meditation Realm Lorwyn" after the dash trims to no subtype, and its first token "Bolas's" is reported as `ExtraParts` |
| TypeLineExamples.SpacedNameAmongSeveralDoesNotReadBack | src/card/type_line.rs:91-194 | the well-formed line Plane — Bolas's Meditation Realm Lorwyn displays as text that `from_str` rejects with `ExtraParts("Bolas's")` |
| ManaTally.Bump | src/mana.rs:118 | `*entry(k).or_insert(0) += 1` adds one to k's count, leaves every other count alone and adds k to the keys |
| ManaTally.BumpKeepsPositive | src/mana.rs:118-125 | maps built by bumping hold only positive counts |
| ManaTally.CountsDetermineMap | src/mana.rs:99-107 | two such maps are equal exactly when they count every key alike |
| ManaTally.HybridKey | src/mana.rs:120-123 | a hybrid is counted under its pair in color-pie order, with the second color present, and that pair is the stored pair or its swap |
| ManaTally.HybridKeyIsSymmetric | src/mana.rs:120-123 | both orientations of a hybrid are counted under the same key |
| ManaTally.TotalOfConcat | src/mana.rs:161-165 | the sum over a concatenation is the sum of the sums |
| ManaTally.TotalOfPermutation | src/mana.rs:161-165 | the sum over the symbols does not depend on their order |
| Mana.HybridOf | src/mana.rs:35-38 | `hybrid(a, b)` stores the pair or its swap, in color-pie order |
| Mana.HybridOfIsSymmetric | src/mana.rs:35-38 | `hybrid(a, b) == hybrid(b, a)` |
| Mana.Body | src/mana.rs:57-70 | the text inside the braces is non-empty and holds no brace |
| Mana.BodyStartsWithDigit | src/mana.rs:61 | the text starts with a digit exactly for generic mana |
| Mana.BodyIsInjective | src/mana.rs:57-70 | different symbols print differently inside the braces, the stored hybrid order included |
| Mana.SymbolTextIsInjective | src/mana.rs:53-72 | two symbols print the same exactly when they are the same |
| Mana.SymbolTextThenRest | src/mana.rs:53-72 | a printed symbol followed by more text is read unambiguously |
| Mana.SymbolsTextIsEmpty | src/mana.rs:153-159 | a cost prints as empty text exactly when it has no symbol |
| Mana.SymbolsTextIsInjective | src/mana.rs:153-159 | two symbol sequences print the same exactly when they are the same sequence |
| Mana.CmcIgnoresOrder | src/mana.rs:161-165 | permuting the symbols keeps the converted mana cost |
| Mana.ComparatorOf | src/mana.rs:109-132 | the comparator of a cost holds only positive counts |
| Mana.ComparatorOfPrefix | src/mana.rs:115-128 | counting one more symbol is one more step of the loop |
| Mana.NewComparator | src/mana.rs:109-132 | the loop with in-place counters and `entry` updates builds exactly `ComparatorOf` the symbols |
| Mana.Equals | src/mana.rs:134-138 | the equality builds both comparators, and its result says: the same generic total and the same multiset of non-generic symbols, hybrids in color-pie order |
| Mana.NonGeneric | src/mana.rs:115-128 | the non-generic symbols hold no generic amount |
| Mana.StepCounts | src/mana.rs:116-127 | one step adds the symbol's generic amount to the total and the symbol, hybrid canonicalised, to the counted multiset |
| Mana.ComparatorCounts | src/mana.rs:109-132 | the comparator holds the generic total and the counts of the non-generic symbols |
| Mana.EqualIffSameCost | src/mana.rs:134-138 | two comparators are equal exactly when the generic totals are equal and the non-generic symbols agree as multisets |
| Mana.NonGenericCount | src/mana.rs:115-128 | how often a symbol is counted is a sum over the sequence |
| Mana.SameCostByCounts | src/mana.rs:134-138 | costs agreeing in generic total and every count are equal |
| Mana.EqualIgnoresOrder | src/mana.rs:134-138 | any permutation of the symbols compares equal |
| Mana.ReplaceOne | src/mana.rs:134-138 | replacing a piece by one with the same generic total and counts keeps the cost equal |
| Mana.HybridOrientationIsIgnored | src/mana.rs:120-123 | Hybrid(a, b) and Hybrid(b, a) make equal costs |
| Mana.GenericAmountsAreSummed | src/mana.rs:117 | {m}{n} equals {m+n} in any context |
| Mana.OneMoreIsUnequal | src/mana.rs:134-138 | costs counting some symbol differently are unequal |
| Mana.MonoHybridIsNotHybrid | src/mana.rs:120-124 | a single-color hybrid (keyed (c, None)) never equals a two-color hybrid |
| Mana.ColorlessIsNotColored | src/mana.rs:118 | colorless mana never equals colored mana |
| Mana.CmcSplits | src/mana.rs:78-92 | the converted mana cost is the generic total plus the cost of the other symbols |
| Mana.EqualCostsHaveEqualCmc | src/mana.rs:134-165 | equal costs have equal converted mana cost |
| Mana.SymbolTextExamples | src/mana.rs:172-176 | phyrexian(Blue) prints "{U/P}" and generic(0) prints "{0}" |
| Mana.SampleCostText | src/mana.rs:178-188 | [5, C, G, hybrid(Black, White)] prints "{5}{C}{G}{W/B}" |
| Mana.SampleCostCmc | src/mana.rs:78-92 | that cost has converted mana cost 5+1+1+1 = 8 |
| Mana.TwoAndThreeIsFive | src/mana.rs:117 | {2}{3} equals {5} |
| CoreMana.Canon | magic_core/src/mana.rs:29-32 | only a hybrid is changed, to its pair or the swap in color-pie order |
| CoreMana.CanonHybridIsSymmetric | magic_core/src/mana.rs:91-94 | both orientations of a hybrid canonicalise alike |
| CoreMana.Body | magic_core/src/mana.rs:19-39 | the text inside the braces is non-empty and holds no brace |
| CoreMana.BodyStartsWithDigit | magic_core/src/mana.rs:25 | the text starts with a digit exactly for generic mana |
| CoreMana.BodyOfCanon | magic_core/src/mana.rs:29-32 | a hybrid prints as its color-pie ordered pair whatever the stored order |
| CoreMana.BodyIsInjective | magic_core/src/mana.rs:19-39 | two symbols print alike exactly when they are equal up to hybrid orientation |
| CoreMana.SymbolTextIsInjective | magic_core/src/mana.rs:19-39 | the same, for the braced text |
| CoreMana.SymbolTextThenRest | magic_core/src/mana.rs:19-39 | a printed symbol followed by more text is read unambiguously, up to hybrid orientation |
| CoreMana.CanonAll | magic_core/src/mana.rs:124-128 | canonicalising a sequence canonicalises each symbol |
| CoreMana.SymbolsTextIsEmpty | magic_core/src/mana.rs:124-128 | a cost prints as empty text exactly when it has no symbol |
| CoreMana.SymbolsTextIsInjective | magic_core/src/mana.rs:124-128 | two costs print alike exactly when they agree symbol by symbol up to hybrid orientation |
| CoreMana.CmcIgnoresOrder | magic_core/src/mana.rs:130-134 | permuting the symbols keeps the converted mana cost |
| CoreMana.ComparatorOf | magic_core/src/mana.rs:77-103 | the comparator holds only positive counts |
| CoreMana.ComparatorOfPrefix | magic_core/src/mana.rs:83-99 | counting one more symbol is one more step of the loop |
| CoreMana.NewComparator | magic_core/src/mana.rs:77-103 | the loop builds exactly `ComparatorOf` the symbols, widening each `u16` amount |
| CoreMana.Equals | magic_core/src/mana.rs:105-109 | equality of comparators means the same generic total and the same multiset of non-generic symbols, hybrids canonicalised |
| CoreMana.NonGeneric | magic_core/src/mana.rs:83-99 | the non-generic symbols hold no generic amount |
| CoreMana.StepCounts | magic_core/src/mana.rs:86-98 | one step adds the symbol's generic amount, or the symbol with its hybrid canonicalised |
| CoreMana.ColoredStepCounts | magic_core/src/mana.rs:88 | a colored symbol is counted under Some(c) |
| CoreMana.ColorlessStepCounts | magic_core/src/mana.rs:89 | colorless is counted under None |
| CoreMana.ComparatorCounts | magic_core/src/mana.rs:77-103 | the comparator holds the generic total and the non-generic counts |
| CoreMana.EqualIffSameCost | magic_core/src/mana.rs:105-109 | comparators are equal exactly when generic totals and non-generic multisets agree |
| CoreMana.NonGenericCount | magic_core/src/mana.rs:83-99 | how often a symbol is counted is a sum over the sequence |
| CoreMana.SameCostByCounts | magic_core/src/mana.rs:105-109 | costs agreeing in generic total and every count are equal |
| CoreMana.EqualIgnoresOrder | magic_core/src/mana.rs:105-109 | any permutation of the symbols compares equal |
| CoreMana.ReplaceOne | magic_core/src/mana.rs:105-109 | replacing a piece by one with the same totals keeps the cost equal |
| CoreMana.HybridOrientationIsIgnored | magic_core/src/mana.rs:91-94 | Hybrid(a, b) and Hybrid(b, a) make equal costs |
| CoreMana.GenericAmountsAreSummed | magic_core/src/mana.rs:87 | {m}{n} equals {m+n} whenever m+n fits a `u16` |
| CoreMana.OneMoreIsUnequal | magic_core/src/mana.rs:105-109 | costs counting some symbol differently are unequal |
| CoreMana.MonoHybridIsNotHybrid | magic_core/src/mana.rs:91-95 | a single-color hybrid never equals a two-color hybrid |
| CoreMana.ColorlessIsNotColored | magic_core/src/mana.rs:88-89 | Colorless and Colored(c) are never interchangeable |
| CoreMana.CmcSplits | magic_core/src/mana.rs:45-60 | the converted mana cost is the generic total plus the cost of the others |
| CoreMana.EqualCostsHaveEqualCmc | magic_core/src/mana.rs:105-134 | equal costs have equal converted mana cost |
| CoreMana.SymbolTextExamples | magic_core/src/mana.rs:142-146 | Phyrexian(Blue) prints "{U/P}" and Generic(0) prints "{0}" |
| CoreMana.SampleCostLastText | magic_core/src/mana.rs:29-32 | Hybrid(Black, White) prints "{W/B}" |
| CoreMana.SampleCostText | magic_core/src/mana.rs:148-158 | [5, Colorless, Colored(Green), Hybrid(Black, White)] prints "{5}{C}{G}{W/B}" |
| CoreMana.SampleCostCmc | magic_core/src/mana.rs:45-60 | that cost has converted mana cost 8 |
| CoreMana.TwoAndThreeIsFive | magic_core/src/mana.rs:87 | {2}{3} equals {5} |
| Phases.IndicesDetermineStep | src/phase.rs:1-31 | a step is determined by its variant and the step it carries |
| Phases.StepLessIsStrictTotalOrder | src/phase.rs:1-31 | the derived step order is irreflexive, transitive and total |
| Phases.TurnPosition | src/phase.rs:42-61 | every step has a position in the iterator holding that step |
| Phases.StepLessIsTurnOrder | src/phase.rs:1-61 | the derived order is the order of positions in the iterator |
| Phases.StepsAreDistinct | src/phase.rs:44-58 | each step occurs once in the iterator, at its position |
| Phases.StepsAreSortedAndComplete | src/phase.rs:42-61 | the iterator has thirteen steps, contains every step, and is strictly increasing |
| Phases.PhaseOf | src/phase.rs:63-71 | beginning, combat and ending steps map to their phases, and each main phase to itself, and nothing else maps there |
| Phases.PhaseIsMonotone | src/phase.rs:33-71 | a later step never has an earlier phase |
| Phases.PhasesFollowTurn | src/phase.rs:44-71 | the phase is non-decreasing along the iterator |
| Phases.HasPriority | src/phase.rs:73-78 | there is no priority exactly in Untap and Cleanup |
| Phases.NoPriorityAtTheEdges | src/phase.rs:44-78 | the steps without priority are exactly the first and last of the turn |
| MtgJson.AbbreviatedColorText | mtgjson/src/lib.rs:52-56 | a color displays as one of the five letters |
| MtgJson.ParseAbbreviatedColor | mtgjson/src/lib.rs:78-94 | exactly "W", "U", "B", "R" and "G" are accepted |
| MtgJson.AbbreviatedColorRoundTrip | mtgjson/src/lib.rs:52-94 | display then parse is the identity, and an accepted string is the display of what it parses to |
| MtgJson.AbbreviatedOptionText | mtgjson/src/lib.rs:58-65 | no color displays "C", and a color displays as itself |
| MtgJson.ParseAbbreviatedOption | mtgjson/src/lib.rs:96-105 | "C" is no color; any other text is accepted exactly when the color parser accepts it, wrapped in Some |
| MtgJson.AbbreviatedOptionRoundTrip | mtgjson/src/lib.rs:58-105 | display then parse is the identity for optional colors, and an accepted string is a display |
| MtgJson.PaddedDate | mtgjson/src/lib.rs:129-141 | lengths 10, 7 and 4 are accepted and padded to 10 keeping the input as prefix with the tail of "0000-01-01"; other lengths fail with "invalid date length" |
| MtgJson.PadDate | mtgjson/src/lib.rs:129-141 | the in-place appending computes `PaddedDate` |
| MtgJson.PaddingIsIdempotent | mtgjson/src/lib.rs:129-141 | padding a padded date changes nothing |
| MtgJson.PaddingExamples | mtgjson/src/lib.rs:130-140 | "1993-08" pads to "1993-08-01", "1993" to "1993-01-01", a full date is kept, "1993-8" fails |
| MtgJson.IsDefault | mtgjson/src/lib.rs:151-153 | `is_default` holds exactly for the empty value |
| MtgJson.IsDefaultRejectsAnyElement | mtgjson/src/lib.rs:151-158 | a default value holds no element, and a value with an element is not default |
| Cards.ReorderedCostIsSameCard | magic_core/src/card/mod.rs:18-26 | card data equals itself, and reordering its mana symbols keeps it equal |
| Cards.SameCardsHaveSameCmc | magic_core/src/card/mod.rs:28-32 | equal card data has equal converted mana cost |
| Cards.DefaultNames | magic_core/src/traits.rs:9-16 | the default `names` is the singleton of the name |
| Cards.MatchName | magic_core/src/traits.rs:19-21 | `match_name(q)` holds exactly when q is among the names |
| Cards.CardDataName | magic_core/src/card/mod.rs:34-38 | card data always has its stored name |
| Cards.CardDataMatchesItsName | magic_core/src/traits.rs:9-21 | card data's names are its one name, and it matches exactly that name |
| Cards.Faces | magic_core/src/card/mod.rs:40-55 | a normal card has one face, the others two |
| Cards.CardName | magic_core/src/card/mod.rs:57-65 | a card has a name exactly when it is Normal, and then it is its data's name |
| Cards.CardNamesAreFaceNames | magic_core/src/card/mod.rs:67-74 | a card's names are its faces' names, in field order |
| Cards.NormalNamesAreDefault | magic_core/src/card/mod.rs:67-74 | for a Normal card the override agrees with the default method |
| Cards.CardMatchesAFace | magic_core/src/card/mod.rs:67-74 | a card matches a query exactly when one of its faces has that name |
| Cards.MountainCardName | magic_core/src/card/mod.rs:81-90 | the Normal Mountain card reports the name "Mountain" and matches it |

## Left out

- The creature vocabulary (241 names) and the planar vocabulary are tables in the model, but both universal round trips are left out. "The name of every creature or planar subtype reads back" is not proved for every entry, because solver cost over those tables is too high. Round trips are proved for every type, supertype, artifact, enchantment, land, spell and planeswalker subtype. For creature and planar subtypes they are proved for the entries the tests use: Vampire, Merfolk, Wizard, Construct, God, Assembly-Worker, Lorwyn and Bolas's Meditation Realm.
- Types.ParseSubtype, Types.ParseCreatureType, Types.ParsePlaneswalkerType, Types.ParsePlanarType: these state no soundness ensures ("a parsed value prints as its text"). The same cost is the reason. Soundness is stated only for the small tables.
- Types.CreatureType: a number in declaration order with a named constant per variant, not an enum, for the same reason.
- TypeLines.RenderReadsBack: proved under the hypothesis `SubtypesReadBack`. It asks that each subtype's name reads back. It also asks that, when there are several subtypes, each name is one word and the joined text is no subtype. The hypothesis is close to necessary. The reader cannot read back several subtypes when one name has a space: the trimmed text is no subtype (src/card/type_line.rs:168-170), and reading token by token splits the spaced name (172-186). `TypeLineExamples.SpacedNameAmongSeveralDoesNotReadBack` shows this for Plane — Bolas's Meditation Realm Lorwyn. The hypothesis is discharged for the nine test lines.
- `TypeLineReadError`'s `Display` forwards to `Debug` formatting, which is not modelled.
- magic_core/src/card/type_line.rs is not part of this model. The type line of `Cards.CardData` is the `TypeLines.Line` of src/card/type_line.rs.
- `ColorIdentity` of magic_core is not part of this model. The color indicator of card data is the same bitset as in src/lib.rs.
- The `Display` of the `Color` type used by magic_core/src/mana.rs and mtgjson/src/lib.rs is not part of these files. It is taken to print the initial, as `Color::initial`, which the magic_core mana tests corroborate.
- Machine integers:
  - `usize` counters and sums are unbounded `nat`s.
  - `u16` generic amounts are a `u16` newtype, widened as `n as usize` in the source.
  - `i32` power, toughness and loyalty are an `i32` newtype.
  - The model leaves out overflow of the `usize` sums.
- `HashMap` is a `map` whose keys have positive counts, which is exactly what `entry(k).or_insert(0) += 1` produces. Hashing is not modelled.
- `IndexSet` is a duplicate-free sequence, and its hashing internals are not modelled.
- Iterators (`Color::iterator`, `colors()`, `Step::iterator`, the `*_iter` accessors of `TypeLine`) are sequences.
- String length (`String::len`) is counted in characters rather than UTF-8 bytes. The two agree for the ASCII dates it is applied to.
- The `unimplemented!()` abort in the default `Named::names` for an unnamed object is the precondition of Cards.DefaultNames.
- `ParseAbbreviatedColorError` displays "provided string was a recognized abbreviated color". The model keeps that message word for word, although it evidently lacks a "not".
- The chrono `NaiveDate` parse after padding is a foreign library call, and is left out.
- The serde derives and macros are left out; the name tables stand in for them. So are the scryfall client and object types, and the JSON schema structs of mtgjson, including `Hex` and `read_all_sets`. All of these are I/O, foreign types or schema declarations without behaviour.
- The `type_line!` macro is compile-time syntax and is left out. The test lines are written as values instead.
