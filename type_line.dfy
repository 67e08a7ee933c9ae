/**
 * A card's type line: its supertypes, card types and subtypes, each an insertion-ordered
 * set, printed as "Legendary Enchantment Creature \u{2014} God" and read back greedily.
 *
 * `Line` is the value of a type line; `TypeLine` is the mutable object the program
 * works with, whose methods are specified in terms of `Line`.
 */
module TypeLines {

  import opened Wrappers
  import opened Text
  import opened Types
  import opened IndexSets

  /** The three sets of a type line, in insertion order. */
  datatype Line = Line(supertypes: seq<Supertype>, types: seq<Type>, subtypes: seq<Subtype>)

  /** `TypeLine::new`: nothing in any of the three sets. */
  const Empty: Line := Line([], [], [])

  /** None of the three sequences holds an element twice, as for `IndexSet`s. */
  predicate WellFormed(l: Line)
  {
    NoDup(l.supertypes) && NoDup(l.types) && NoDup(l.subtypes)
  }

  /** `PartialEq for TypeLine`: each of the three sets equal, order aside. */
  predicate SameLine(a: Line, b: Line)
  {
    SameSet(a.supertypes, b.supertypes) && SameSet(a.types, b.types) && SameSet(a.subtypes, b.subtypes)
  }

  /**
   * `TypeLine::is_valid`: there is at least one card type, and every subtype goes with
   * one of the card types present.
   */
  predicate IsValidLine(l: Line): (r: bool)
    ensures r <==> l.types != [] && forall st :: st in l.subtypes ==> exists t :: t in l.types && ValidFor(st, t)
  {
    PositionsAndMembers(l);
    |l.types| > 0 && SubtypesFit(l)
  }

  /** The subtype at each position goes with the card type at some position. */
  predicate SubtypesFit(l: Line)
  {
    forall i :: 0 <= i < |l.subtypes| ==> exists j :: 0 <= j < |l.types| && ValidFor(l.subtypes[i], l.types[j])
  }

  /** Every subtype position has a matching type position exactly when every subtype present has a matching type present. */
  lemma PositionsAndMembers(l: Line)
    ensures SubtypesFit(l) <==> (forall st :: st in l.subtypes ==> exists t :: t in l.types && ValidFor(st, t))
  {
    if forall i :: 0 <= i < |l.subtypes| ==> exists j :: 0 <= j < |l.types| && ValidFor(l.subtypes[i], l.types[j]) {
      forall st | st in l.subtypes
        ensures exists t :: t in l.types && ValidFor(st, t)
      {
        var i :| 0 <= i < |l.subtypes| && l.subtypes[i] == st;
        var j :| 0 <= j < |l.types| && ValidFor(l.subtypes[i], l.types[j]);
        assert l.types[j] in l.types;
      }
    }
    if forall st :: st in l.subtypes ==> exists t :: t in l.types && ValidFor(st, t) {
      forall i | 0 <= i < |l.subtypes|
        ensures exists j :: 0 <= j < |l.types| && ValidFor(l.subtypes[i], l.types[j])
      {
        assert l.subtypes[i] in l.subtypes;
        var t :| t in l.types && ValidFor(l.subtypes[i], t);
        var j :| 0 <= j < |l.types| && l.types[j] == t;
      }
    }
  }

  /** Validity is a property of the three sets, not of their order: lines equal as `TypeLine`s are valid together. */
  lemma ValidityIgnoresOrder(a: Line, b: Line)
    requires WellFormed(a) && WellFormed(b) && SameLine(a, b)
    ensures IsValidLine(a) <==> IsValidLine(b)
  {
    SameSetIsSetEquality(a.types, b.types);
    SameSetIsSetEquality(a.subtypes, b.subtypes);
    if IsValidLine(a) {
      ValidityFollowsElements(a, b);
    }
    if IsValidLine(b) {
      ValidityFollowsElements(b, a);
    }
  }

  /** A valid line's validity carries over to a line with the same types and subtypes. */
  lemma ValidityFollowsElements(a: Line, b: Line)
    requires Elements(a.types) == Elements(b.types) && Elements(a.subtypes) == Elements(b.subtypes)
    requires IsValidLine(a)
    ensures IsValidLine(b)
  {
    assert a.types[0] in Elements(b.types);
    forall st | st in b.subtypes
      ensures exists t :: t in b.types && ValidFor(st, t)
    {
      assert st in Elements(a.subtypes);
      var t :| t in a.types && ValidFor(st, t);
      assert t in Elements(b.types);
    }
  }

  // ---------------------------------------------------------------------------
  // Printing.

  function SupertypeNames(xs: seq<Supertype>): (r: seq<string>)
    ensures |r| == |xs| && forall i :: 0 <= i < |xs| ==> r[i] == SupertypeName(xs[i])
  {
    seq(|xs|, i requires 0 <= i < |xs| => SupertypeName(xs[i]))
  }

  function TypeNames(xs: seq<Type>): (r: seq<string>)
    ensures |r| == |xs| && forall i :: 0 <= i < |xs| ==> r[i] == TypeName(xs[i])
  {
    seq(|xs|, i requires 0 <= i < |xs| => TypeName(xs[i]))
  }

  function SubtypeNames(xs: seq<Subtype>): (r: seq<string>)
    ensures |r| == |xs| && forall i :: 0 <= i < |xs| ==> r[i] == SubtypeName(xs[i])
  {
    seq(|xs|, i requires 0 <= i < |xs| => SubtypeName(xs[i]))
  }

  /** The text before the dash: each supertype followed by a space, then the types joined by spaces. */
  function PreDash(l: Line): string
  {
    SpaceAfterEach(SupertypeNames(l.supertypes)) + JoinSpaced(TypeNames(l.types))
  }

  /**
   * `Display for TypeLine`: the text before the dash, then, when there are subtypes,
   * a space and the em dash, and a space before each subtype.
   */
  function Render(l: Line): string
  {
    if l.subtypes == [] then PreDash(l)
    else PreDash(l) + " " + [EmDash] + SpaceBeforeEach(SubtypeNames(l.subtypes))
  }

  /** The printed text of a line, given the names of its parts. */
  lemma RenderByNames(l: Line, sn: seq<string>, tn: seq<string>, un: seq<string>)
    requires SupertypeNames(l.supertypes) == sn && TypeNames(l.types) == tn && SubtypeNames(l.subtypes) == un
    ensures Render(l) == if un == [] then SpaceAfterEach(sn) + JoinSpaced(tn)
                         else SpaceAfterEach(sn) + JoinSpaced(tn) + " " + [EmDash] + SpaceBeforeEach(un)
  {
  }

  // ---------------------------------------------------------------------------
  // Reading.

  /** `TypeLineReadError`. */
  datatype ReadError = NotAnEmDash(text: string) | ExtraParts(part: string)

  /**
   * One greedy phase of the reader: while the next token reads as a value, insert the
   * value and move on; stop at the first token that does not read. Answers the values
   * and the tokens left.
   */
  function ReadGreedy<T(==)>(parse: string -> Option<T>, acc: seq<T>, ts: seq<string>): (r: (seq<T>, seq<string>))
    ensures r.1 == [] || parse(r.1[0]).None?
    ensures NoDup(acc) ==> NoDup(r.0)
    decreases |ts|
  {
    if ts != [] && parse(ts[0]).Some? then ReadGreedy(parse, Insert(acc, parse(ts[0]).value), ts[1..]) else (acc, ts)
  }

  /** One step of a greedy phase: a token that reads is inserted and the phase goes on with the next. */
  lemma ReadGreedyStep<T>(parse: string -> Option<T>, acc: seq<T>, ts: seq<string>, k: nat)
    requires k < |ts| && parse(ts[k]).Some?
    ensures ReadGreedy(parse, acc, ts[k..]) == ReadGreedy(parse, Insert(acc, parse(ts[k]).value), ts[k + 1..])
  {
    assert ts[k..][1..] == ts[k + 1..];
  }

  /** A greedy phase stops at once at a token that does not read, or at the end. */
  lemma ReadGreedyStop<T>(parse: string -> Option<T>, acc: seq<T>, ts: seq<string>, k: nat)
    requires k <= |ts| && (k == |ts| || parse(ts[k]).None?)
    ensures ReadGreedy(parse, acc, ts[k..]) == (acc, ts[k..])
  {
  }

  /**
   * The text after the dash. The whole of it, trimmed, is first read as one subtype;
   * otherwise its tokens are read as subtypes, and the first that does not read is
   * the error.
   */
  function ReadPostDash(post: string): (r: Result<seq<Subtype>, ReadError>)
    ensures r.Ok? ==> NoDup(r.value)
    ensures r.Err? ==> r.error.ExtraParts? && ParseSubtype(r.error.part).None?
  {
    var body := Trim(post);
    match ParseSubtype(body)
    case Some(st) => Ok([st])
    case None => ReadSubtypeTokens(Tokens(body))
  }

  /** The tokens after the dash read greedily as subtypes; a token left over is the error. */
  function ReadSubtypeTokens(ts: seq<string>): (r: Result<seq<Subtype>, ReadError>)
    ensures r.Ok? ==> NoDup(r.value)
    ensures r.Err? ==> r.error.ExtraParts? && ParseSubtype(r.error.part).None?
  {
    var (subs, rest) := ReadGreedy(ParseSubtype, [], ts);
    if rest != [] then Err(ExtraParts(rest[0])) else Ok(subs)
  }

  /** The text before the dash: its tokens read greedily as supertypes, then as types; a token left over is the error. */
  function ReadPreDash(pre: string): (r: Result<(seq<Supertype>, seq<Type>), ReadError>)
    ensures r.Ok? ==> NoDup(r.value.0) && NoDup(r.value.1)
    ensures r.Err? ==> r.error.ExtraParts? && ParseType(r.error.part).None?
  {
    var (sups, afterSups) := ReadGreedy(ParseSupertype, [], Tokens(pre));
    var (tys, rest) := ReadGreedy(ParseType, [], afterSups);
    if rest != [] then Err(ExtraParts(rest[0])) else Ok((sups, tys))
  }

  /**
   * `FromStr for TypeLine`, as a value. The text is split at em dashes and only the
   * first two pieces are read: the first by `ReadPreDash`, the second, if there is
   * one, by `ReadPostDash`.
   */
  function ParseLine(s: string): (r: Result<Line, ReadError>)
    ensures r.Ok? ==> WellFormed(r.value)
    ensures r.Err? ==> r.error.ExtraParts?
  {
    match ReadPreDash(FirstPiece(s, EmDash))
    case Err(e) => Err(e)
    case Ok((sups, tys)) =>
      match SecondPiece(s, EmDash)
      case None => Ok(Line(sups, tys, []))
      case Some(post) =>
        match ReadPostDash(post)
        case Err(e) => Err(e)
        case Ok(subs) => Ok(Line(sups, tys, subs))
  }

  // ---------------------------------------------------------------------------
  // Properties of the reader.

  /** A token left over before the dash is one that reads neither as a supertype (when types were read) nor as a type. */
  lemma PreDashErrorToken(s: string)
    requires ParseLine(s).Err? && SecondPiece(s, EmDash).None?
    ensures ParseType(ParseLine(s).error.part).None?
  {
  }

  /** Text without tokens and without a dash reads as the empty type line. */
  lemma ParseBlank(s: string)
    requires forall i :: 0 <= i < |s| ==> IsWhitespace(s[i])
    ensures ParseLine(s) == Ok(Empty)
  {
    EmDashIsNotWhitespace();
    PiecesOfUnsplit(s, EmDash);
    TokensOfBlank(s);
  }

  /** Whatever follows a second em dash is ignored. */
  lemma ParseIgnoresAfterSecondDash(a: string, b: string, c: string)
    requires EmDash !in a && EmDash !in b
    ensures ParseLine(a + [EmDash] + b + [EmDash] + c) == ParseLine(a + [EmDash] + b)
  {
    var longer := a + [EmDash] + b + [EmDash] + c;
    assert longer == a + [EmDash] + (b + [EmDash] + c);
    PiecesOf(a, EmDash, b + [EmDash] + c);
    BeforeOfConcat(b, EmDash, c);
    PiecesOf(a, EmDash, b);
    PiecesOfUnsplit(b, EmDash);
  }

  /** Inserting values one after the other, from left to right. */
  function InsertAll<T(==)>(acc: seq<T>, xs: seq<T>): (r: seq<T>)
    ensures Elements(r) == Elements(acc) + Elements(xs)
    decreases |xs|
  {
    if xs == [] then acc else InsertAll(Insert(acc, xs[0]), xs[1..])
  }

  /** Inserting values that are all new appends them. */
  lemma {:induction false} InsertAllFresh<T>(acc: seq<T>, xs: seq<T>)
    requires NoDup(acc + xs)
    ensures InsertAll(acc, xs) == acc + xs
    decreases |xs|
  {
    if xs != [] {
      assert xs[0] !in acc by {
        forall j | 0 <= j < |acc|
          ensures acc[j] != xs[0]
        {
          assert (acc + xs)[j] == acc[j];
          assert (acc + xs)[|acc|] == xs[0];
        }
      }
      assert acc + xs == (acc + [xs[0]]) + xs[1..];
      InsertAllFresh(acc + [xs[0]], xs[1..]);
    }
  }

  /** A run of tokens that all read, followed by one that does not (or by nothing), is read in full. */
  lemma {:induction false} ReadGreedyReadsAll<T>(parse: string -> Option<T>, acc: seq<T>, xs: seq<T>, ws: seq<string>, rest: seq<string>)
    requires |ws| == |xs|
    requires forall i :: 0 <= i < |ws| ==> parse(ws[i]) == Some(xs[i])
    requires rest == [] || parse(rest[0]).None?
    ensures ReadGreedy(parse, acc, ws + rest) == (InsertAll(acc, xs), rest)
    decreases |ws|
  {
    if ws == [] {
      assert ws + rest == rest;
    } else {
      SplitFirst(ws, rest);
      assert (ws + rest)[1..] == ws[1..] + rest by {
        assert [ws[0]] + (ws[1..] + rest) == ws + rest;
      }
      ReadGreedyReadsAll(parse, Insert(acc, xs[0]), xs[1..], ws[1..], rest);
    }
  }

  // ---------------------------------------------------------------------------
  // Printing and reading back.

  /** Names that are single words free of the em dash. */
  predicate DashFreeWords(ws: seq<string>)
  {
    forall i :: 0 <= i < |ws| ==> IsWord(ws[i]) && EmDash !in ws[i]
  }

  /**
   * What the reader needs of the subtypes to read them back: one subtype whose name
   * reads back, has no em dash and no white space at either end (it may have spaces
   * inside); or several single-word subtypes that each read back and whose joined
   * text is not itself a subtype name.
   */
  predicate SubtypesReadBack(subs: seq<Subtype>)
  {
    (forall i :: 0 <= i < |subs| ==> ReadsBack(subs[i])) &&
    (|subs| == 1 ==>
       var n := SubtypeName(subs[0]);
       n != [] && EmDash !in n && !IsWhitespace(n[0]) && !IsWhitespace(n[|n| - 1])) &&
    (|subs| > 1 ==>
       DashFreeWords(SubtypeNames(subs)) && ParseSubtype(JoinSpaced(SubtypeNames(subs))).None?)
  }

  /** The pre-dash text has no em dash. */
  lemma PreDashIsDashFree(l: Line)
    ensures EmDash !in PreDash(l)
  {
    PreDashTokens(l, "");
  }

  /** Several subtypes read back when, given their names, each reads back, the names are dash-free words, and their joined text is no subtype. */
  lemma SubtypesReadBackByNames(subs: seq<Subtype>, un: seq<string>)
    requires |subs| > 1 && SubtypeNames(subs) == un
    requires forall i :: 0 <= i < |subs| ==> ReadsBack(subs[i])
    requires DashFreeWords(un) && ParseSubtype(JoinSpaced(un)).None?
    ensures SubtypesReadBack(subs)
  {
  }

  /** One subtype reads back when it reads back and its name, free of the em dash, has no white space at either end. */
  lemma SubtypeReadsBackAlone(st: Subtype, n: string)
    requires SubtypeName(st) == n && ReadsBack(st)
    requires n != [] && EmDash !in n && !IsWhitespace(n[0]) && !IsWhitespace(n[|n| - 1])
    ensures SubtypesReadBack([st])
  {
  }

  /** The supertype and type names of a line are dash-free words, and the pre-dash text tokenizes into them. */
  lemma PreDashTokens(l: Line, rest: string)
    requires rest == [] || IsWhitespace(rest[0])
    ensures EmDash !in PreDash(l)
    ensures Tokens(PreDash(l) + rest) == SupertypeNames(l.supertypes) + (TypeNames(l.types) + Tokens(rest))
  {
    var sn := SupertypeNames(l.supertypes);
    var tn := TypeNames(l.types);
    forall i | 0 <= i < |sn|
      ensures IsWord(sn[i]) && EmDash !in sn[i]
    {
      SupertypeNamesAreWords(l.supertypes[i]);
    }
    forall i | 0 <= i < |tn|
      ensures IsWord(tn[i]) && EmDash !in tn[i]
    {
      TypeNamesAreWords(l.types[i]);
    }
    JoinsAvoid(sn, EmDash);
    JoinsAvoid(tn, EmDash);
    assert PreDash(l) + rest == SpaceAfterEach(sn) + (JoinSpaced(tn) + rest);
    TokensOfSpaceAfterEach(sn, JoinSpaced(tn) + rest);
    TokensOfJoinSpaced(tn, rest);
  }

  /** The supertype phase reads the supertype names of a well-formed line and stops at its first type name. */
  lemma SupertypePhaseReadsBack(l: Line)
    requires WellFormed(l)
    ensures ReadGreedy(ParseSupertype, [], SupertypeNames(l.supertypes) + TypeNames(l.types))
         == (l.supertypes, TypeNames(l.types))
  {
    var sn := SupertypeNames(l.supertypes);
    var tn := TypeNames(l.types);
    forall i | 0 <= i < |sn|
      ensures ParseSupertype(sn[i]) == Some(l.supertypes[i])
    {
      SupertypeNameRoundTrip(l.supertypes[i]);
    }
    if tn != [] {
      SupertypeAndTypeNamesDisjoint(l.types[0], Supertype.Basic);
    }
    ReadGreedyReadsAll(ParseSupertype, [], l.supertypes, sn, tn);
    InsertAllFresh([], l.supertypes);
    assert [] + l.supertypes == l.supertypes;
  }

  /** The type phase reads the type names of a well-formed line, leaving nothing. */
  lemma TypePhaseReadsBack(l: Line)
    requires WellFormed(l)
    ensures ReadGreedy(ParseType, [], TypeNames(l.types)) == (l.types, [])
  {
    var tn := TypeNames(l.types);
    forall i | 0 <= i < |tn|
      ensures ParseType(tn[i]) == Some(l.types[i])
    {
      TypeNameRoundTrip(l.types[i]);
    }
    ReadGreedyReadsAll(ParseType, [], l.types, tn, []);
    assert tn + [] == tn;
    InsertAllFresh([], l.types);
    assert [] + l.types == l.types;
  }

  /** A single subtype after the dash is read whole, spaces inside its name and all. */
  lemma PostDashReadsBackOne(subs: seq<Subtype>)
    requires |subs| == 1 && SubtypesReadBack(subs)
    ensures EmDash !in SpaceBeforeEach(SubtypeNames(subs))
    ensures ReadPostDash(SpaceBeforeEach(SubtypeNames(subs))) == Ok(subs)
  {
    var n := SubtypeName(subs[0]);
    assert SpaceBeforeEach(SubtypeNames(subs)) == " " + n;
    TrimAfterBlank(" ", n);
    assert ReadsBack(subs[0]);
    ReadPostDashWhole(" " + n, subs[0]);
    assert subs == [subs[0]];
  }

  /** Dash-free words with a space before each trim to the words joined by spaces, whose tokens are the words. */
  lemma SpacedWordsTrim(ws: seq<string>)
    requires ws != [] && DashFreeWords(ws)
    ensures EmDash !in SpaceBeforeEach(ws)
    ensures Trim(SpaceBeforeEach(ws)) == JoinSpaced(ws)
    ensures Tokens(JoinSpaced(ws)) == ws
  {
    var joined := JoinSpaced(ws);
    SpaceBeforeEachIsLeadingSpace(ws);
    JoinsAvoid(ws, EmDash);
    JoinSpacedEnds(ws);
    TrimAfterBlank(" ", joined);
    TokensOfJoinSpaced(ws, "");
    assert joined + "" == joined;
    TokensOfBlank("");
    assert ws + [] == ws;
  }

  /** Subtype names that each read back are read, token by token, as the subtypes. */
  lemma SubtypeTokensReadBack(subs: seq<Subtype>)
    requires NoDup(subs) && forall i :: 0 <= i < |subs| ==> ReadsBack(subs[i])
    ensures ReadGreedy(ParseSubtype, [], SubtypeNames(subs)) == (subs, [])
  {
    var un := SubtypeNames(subs);
    forall i | 0 <= i < |un|
      ensures ParseSubtype(un[i]) == Some(subs[i])
    {
      assert ReadsBack(subs[i]);
    }
    ReadGreedyReadsAll(ParseSubtype, [], subs, un, []);
    assert un + [] == un;
    InsertAllFresh([], subs);
    assert [] + subs == subs;
  }

  /** Several subtypes after the dash are read token by token. */
  lemma PostDashReadsBackMany(subs: seq<Subtype>)
    requires |subs| > 1 && NoDup(subs) && SubtypesReadBack(subs)
    ensures EmDash !in SpaceBeforeEach(SubtypeNames(subs))
    ensures ReadPostDash(SpaceBeforeEach(SubtypeNames(subs))) == Ok(subs)
  {
    SpacedWordsTrim(SubtypeNames(subs));
    SubtypeTokensReadBack(subs);
    ReadPostDashByTokens(SpaceBeforeEach(SubtypeNames(subs)), subs, []);
  }

  /** When the trimmed text is a subtype name, the answer is that one subtype. */
  lemma ReadPostDashWhole(post: string, st: Subtype)
    requires ParseSubtype(Trim(post)) == Some(st)
    ensures ReadPostDash(post) == Ok([st])
  {
  }

  /** When the trimmed text is no subtype name, the answer is that of its tokens: their subtypes, or the first left over. */
  lemma ReadPostDashByTokens(post: string, subs: seq<Subtype>, rest: seq<string>)
    requires ParseSubtype(Trim(post)).None?
    requires ReadGreedy(ParseSubtype, [], Tokens(Trim(post))) == (subs, rest)
    ensures ReadPostDash(post) == if rest != [] then Err(ExtraParts(rest[0])) else Ok(subs)
  {
  }

  /** The text after the dash of a line whose subtypes read back is read as those subtypes. */
  lemma PostDashReadsBack(subs: seq<Subtype>)
    requires subs != [] && NoDup(subs) && SubtypesReadBack(subs)
    ensures EmDash !in SpaceBeforeEach(SubtypeNames(subs))
    ensures ReadPostDash(SpaceBeforeEach(SubtypeNames(subs))) == Ok(subs)
  {
    if |subs| == 1 {
      PostDashReadsBackOne(subs);
    } else {
      PostDashReadsBackMany(subs);
    }
  }

  /** The reader answers `l` when the text is one piece that reads as the supertypes and types of `l`, which has no subtypes. */
  lemma ParseLineOfOnePiece(s: string, l: Line)
    requires l.subtypes == [] && SecondPiece(s, EmDash).None?
    requires ReadPreDash(FirstPiece(s, EmDash)) == Ok((l.supertypes, l.types))
    ensures ParseLine(s) == Ok(l)
  {
  }

  /** The reader answers `l` when the text's two pieces read as the parts of `l`. */
  lemma ParseLineOfTwoPieces(s: string, l: Line, pre: string, post: string)
    requires FirstPiece(s, EmDash) == pre && SecondPiece(s, EmDash) == Some(post)
    requires ReadPreDash(pre) == Ok((l.supertypes, l.types))
    requires ReadPostDash(post) == Ok(l.subtypes)
    ensures ParseLine(s) == Ok(l)
  {
  }

  /** The reader reports the error of the text after the dash when the text before it reads. */
  lemma ParseLineFailsAfterDash(s: string, pre: string, post: string, e: ReadError)
    requires FirstPiece(s, EmDash) == pre && SecondPiece(s, EmDash) == Some(post)
    requires ReadPreDash(pre).Ok? && ReadPostDash(post) == Err(e)
    ensures ParseLine(s) == Err(e)
  {
  }

  /** The text before the dash of a well-formed line reads back as its supertypes and types. */
  lemma PreDashReadsBack(l: Line, rest: string)
    requires WellFormed(l)
    requires forall i :: 0 <= i < |rest| ==> IsWhitespace(rest[i])
    ensures ReadPreDash(PreDash(l) + rest) == Ok((l.supertypes, l.types))
  {
    SupertypePhaseReadsBack(l);
    TypePhaseReadsBack(l);
    PreDashTokens(l, rest);
    TokensOfBlank(rest);
    assert TypeNames(l.types) + [] == TypeNames(l.types);
  }

  /** The two phases over the names of a well-formed line followed by a word that is no type: the word is left over. */
  lemma PhasesLeaveExtraWord(l: Line, w: string)
    requires WellFormed(l) && l.types != [] && ParseType(w).None?
    ensures ReadGreedy(ParseSupertype, [], SupertypeNames(l.supertypes) + (TypeNames(l.types) + [w]))
         == (l.supertypes, TypeNames(l.types) + [w])
    ensures ReadGreedy(ParseType, [], TypeNames(l.types) + [w]) == (l.types, [w])
  {
    var sn := SupertypeNames(l.supertypes);
    var tn := TypeNames(l.types);
    forall i | 0 <= i < |sn|
      ensures ParseSupertype(sn[i]) == Some(l.supertypes[i])
    {
      SupertypeNameRoundTrip(l.supertypes[i]);
    }
    forall i | 0 <= i < |tn|
      ensures ParseType(tn[i]) == Some(l.types[i])
    {
      TypeNameRoundTrip(l.types[i]);
    }
    SupertypeAndTypeNamesDisjoint(l.types[0], Supertype.Basic);
    ReadGreedyReadsAll(ParseSupertype, [], l.supertypes, sn, tn + [w]);
    InsertAllFresh([], l.supertypes);
    ReadGreedyReadsAll(ParseType, [], l.types, tn, [w]);
    InsertAllFresh([], l.types);
    assert [] + l.supertypes == l.supertypes;
    assert [] + l.types == l.types;
  }

  /**
   * A word that is not a type, written after the types of a line, is left over: the
   * reader reports it as an extra part.
   */
  lemma WordAfterTypesIsExtra(l: Line, w: string)
    requires WellFormed(l) && l.types != []
    requires IsWord(w) && EmDash !in w && ParseType(w).None?
    ensures ParseLine(PreDash(l) + " " + w) == Err(ExtraParts(w))
  {
    var s := PreDash(l) + " " + w;
    assert " " + w == SpaceBeforeEach([w]);
    TokensOfSpaceBeforeEach([w]);
    PreDashTokens(l, " " + w);
    assert s == PreDash(l) + (" " + w);
    assert EmDash !in s;
    PiecesOfUnsplit(s, EmDash);
    PhasesLeaveExtraWord(l, w);
  }

  /** In particular a supertype after the types, as in `Creature Legendary`, is an extra part. */
  lemma SupertypeAfterTypesIsExtra(l: Line, x: Supertype)
    requires WellFormed(l) && l.types != []
    ensures ParseLine(PreDash(l) + " " + SupertypeName(x)) == Err(ExtraParts(SupertypeName(x)))
  {
    SupertypeNamesAreWords(x);
    SupertypeAndTypeNamesDisjoint(l.types[0], x);
    WordAfterTypesIsExtra(l, SupertypeName(x));
  }

  /** A printed line without subtypes is one piece: the pre-dash text. */
  lemma PiecesOfRenderWithoutSubtypes(l: Line)
    requires l.subtypes == []
    ensures FirstPiece(Render(l), EmDash) == PreDash(l) && SecondPiece(Render(l), EmDash).None?
  {
    PreDashTokens(l, "");
    PiecesOfUnsplit(PreDash(l), EmDash);
  }

  /** Text, a space, the em dash and dash-free text split into the text with its space, and the rest. */
  lemma PiecesAroundDash(pre: string, post: string)
    requires EmDash !in pre && EmDash !in post
    ensures FirstPiece(pre + " " + [EmDash] + post, EmDash) == pre + " "
    ensures SecondPiece(pre + " " + [EmDash] + post, EmDash) == Some(post)
  {
    assert pre + " " + [EmDash] + post == (pre + " ") + [EmDash] + post;
    assert EmDash !in pre + " ";
    PiecesOf(pre + " ", EmDash, post);
    PiecesOfUnsplit(post, EmDash);
  }

  /** A line without subtypes reads back from its printed text. */
  lemma RenderReadsBackWithoutSubtypes(l: Line)
    requires WellFormed(l) && l.subtypes == []
    ensures ParseLine(Render(l)) == Ok(l)
  {
    PiecesOfRenderWithoutSubtypes(l);
    PreDashReadsBack(l, "");
    assert PreDash(l) + "" == PreDash(l);
    ParseLineOfOnePiece(Render(l), l);
  }

  /** A well-formed line's pre-dash text, a space, the em dash and dash-free text split into pieces that read as the line's supertypes and types, and that text. */
  lemma PiecesOfDashedText(l: Line, post: string)
    requires WellFormed(l) && EmDash !in post
    ensures FirstPiece(PreDash(l) + " " + [EmDash] + post, EmDash) == PreDash(l) + " "
    ensures SecondPiece(PreDash(l) + " " + [EmDash] + post, EmDash) == Some(post)
    ensures ReadPreDash(PreDash(l) + " ") == Ok((l.supertypes, l.types))
  {
    PreDashIsDashFree(l);
    PiecesAroundDash(PreDash(l), post);
    PreDashReadsBack(l, " ");
  }

  /** A line with subtypes that read back reads back from its printed text. */
  lemma RenderReadsBackWithSubtypes(l: Line)
    requires WellFormed(l) && l.subtypes != [] && SubtypesReadBack(l.subtypes)
    ensures ParseLine(Render(l)) == Ok(l)
  {
    var post := SpaceBeforeEach(SubtypeNames(l.subtypes));
    assert Render(l) == PreDash(l) + " " + [EmDash] + post;
    PostDashReadsBack(l.subtypes);
    PiecesOfDashedText(l, post);
    ParseLineOfTwoPieces(Render(l), l, PreDash(l) + " ", post);
  }

  /**
   * A well-formed line whose subtypes read back prints as text that reads back as the
   * same line.
   */
  lemma RenderReadsBack(l: Line)
    requires WellFormed(l) && SubtypesReadBack(l.subtypes)
    ensures ParseLine(Render(l)) == Ok(l)
  {
    if l.subtypes == [] {
      RenderReadsBackWithoutSubtypes(l);
    } else {
      RenderReadsBackWithSubtypes(l);
    }
  }

  // ---------------------------------------------------------------------------
  // The mutable type line.

  /** `TypeLine`: three insertion-ordered sets that the methods below update in place. */
  class TypeLine {
    var supertypes: seq<Supertype>
    var types: seq<Type>
    var subtypes: seq<Subtype>

    /** The value this object currently holds. */
    function Value(): Line
      reads this
    {
      Line(supertypes, types, subtypes)
    }

    /** The three sets hold no element twice. */
    predicate Valid()
      reads this
    {
      WellFormed(Value())
    }

    /** `TypeLine::new`. */
    constructor ()
      ensures Value() == Empty && Valid()
    {
      supertypes, types, subtypes := [], [], [];
    }

    /** `TypeLine::from_iters`: each set collected from its sequence. */
    constructor FromIters(sups: seq<Supertype>, tys: seq<Type>, subs: seq<Subtype>)
      ensures Value() == Line(FromSeq(sups), FromSeq(tys), FromSeq(subs)) && Valid()
    {
      supertypes, types, subtypes := FromSeq(sups), FromSeq(tys), FromSeq(subs);
    }

    predicate HasSupertype(x: Supertype)
      reads this
    {
      x in supertypes
    }

    predicate HasType(x: Type)
      reads this
    {
      x in types
    }

    predicate HasSubtype(x: Subtype)
      reads this
    {
      x in subtypes
    }

    /** `add_supertype`: inserts, keeping the position of an element already there. */
    method AddSupertype(x: Supertype)
      modifies this
      ensures supertypes == Insert(old(supertypes), x)
      ensures types == old(types) && subtypes == old(subtypes)
      ensures HasSupertype(x) && (old(Valid()) ==> Valid())
    {
      supertypes := Insert(supertypes, x);
    }

    /** `add_type`. */
    method AddType(x: Type)
      modifies this
      ensures types == Insert(old(types), x)
      ensures supertypes == old(supertypes) && subtypes == old(subtypes)
      ensures HasType(x) && (old(Valid()) ==> Valid())
    {
      types := Insert(types, x);
    }

    /** `add_subtype`. */
    method AddSubtype(x: Subtype)
      modifies this
      ensures subtypes == Insert(old(subtypes), x)
      ensures supertypes == old(supertypes) && types == old(types)
      ensures HasSubtype(x) && (old(Valid()) ==> Valid())
    {
      subtypes := Insert(subtypes, x);
    }

    /** `remove_supertype`: `swap_remove`. */
    method RemoveSupertype(x: Supertype)
      modifies this
      ensures supertypes == SwapRemove(old(supertypes), x)
      ensures types == old(types) && subtypes == old(subtypes)
      ensures old(Valid()) ==> Valid() && !HasSupertype(x)
    {
      supertypes := SwapRemove(supertypes, x);
    }

    /** `remove_type`: `swap_remove`. */
    method RemoveType(x: Type)
      modifies this
      ensures types == SwapRemove(old(types), x)
      ensures supertypes == old(supertypes) && subtypes == old(subtypes)
      ensures old(Valid()) ==> Valid() && !HasType(x)
    {
      types := SwapRemove(types, x);
    }

    /** `remove_subtype`: `swap_remove`. */
    method RemoveSubtype(x: Subtype)
      modifies this
      ensures subtypes == SwapRemove(old(subtypes), x)
      ensures supertypes == old(supertypes) && types == old(types)
      ensures old(Valid()) ==> Valid() && !HasSubtype(x)
    {
      subtypes := SwapRemove(subtypes, x);
    }

    /** `is_valid`: some card type is present, and each subtype present goes with one of them. */
    predicate IsValid(): (r: bool)
      reads this
      ensures r <==> types != [] && forall st :: st in subtypes ==> exists t :: t in types && ValidFor(st, t)
    {
      IsValidLine(Value())
    }

    /** `Display for TypeLine`, written piece by piece as the source writes it. */
    method Display() returns (s: string)
      ensures s == Render(Value())
    {
      var sups := WriteSupertypes();
      var tys := WriteTypes();
      s := sups + tys;
      if |subtypes| > 0 {
        s := s + " " + [EmDash];
        var subs := WriteSubtypes();
        s := s + subs;
      }
    }

    /** Each supertype followed by a space. */
    method WriteSupertypes() returns (s: string)
      ensures s == SpaceAfterEach(SupertypeNames(supertypes))
    {
      var sts := supertypes;
      var names := SupertypeNames(sts);
      s := "";
      for i := 0 to |names|
        invariant s == SpaceAfterEach(names[..i])
      {
        assert names[..i + 1] == names[..i] + [names[i]];
        SpaceAfterEachAppend(names[..i], names[i]);
        s := s + SupertypeName(sts[i]) + " ";
      }
      assert names[..|names|] == names;
    }

    /** The types, a space between each two. */
    method WriteTypes() returns (s: string)
      ensures s == JoinSpaced(TypeNames(types))
    {
      var ts := types;
      var names := TypeNames(ts);
      s := "";
      for i := 0 to |names|
        invariant s == JoinSpaced(names[..i])
      {
        assert names[..i + 1] == names[..i] + [names[i]];
        JoinSpacedAppend(names[..i], names[i]);
        s := s + (if i > 0 then " " else "") + TypeName(ts[i]);
      }
      assert names[..|names|] == names;
    }

    /** Each subtype after a space. */
    method WriteSubtypes() returns (s: string)
      ensures s == SpaceBeforeEach(SubtypeNames(subtypes))
    {
      var us := subtypes;
      var names := SubtypeNames(us);
      s := "";
      for i := 0 to |names|
        invariant s == SpaceBeforeEach(names[..i])
      {
        assert names[..i + 1] == names[..i] + [names[i]];
        SpaceBeforeEachAppend(names[..i], names[i]);
        s := s + " " + names[i];
      }
      assert names[..|names|] == names;
    }
  
    /**
     * `FromStr for TypeLine`: builds a new type line by insertion, reading the text as
     * `ParseLine` describes.
     */
    static method FromStr(s: string) returns (r: Result<TypeLine, ReadError>)
      ensures r.Ok? <==> ParseLine(s).Ok?
      ensures r.Ok? ==> fresh(r.value) && ParseLine(s) == Ok(r.value.Value())
      ensures r.Err? ==> ParseLine(s) == Err(r.error)
    {
      var line := new TypeLine();
      var pre := ReadPreDashInto(line, FirstPiece(s, EmDash));
      if pre.Some? {
        return Err(pre.value);
      }
      var second := SecondPiece(s, EmDash);
      if second.Some? {
        var post := ReadPostDashInto(line, second.value);
        if post.Some? {
          return Err(post.value);
        }
      }
      return Ok(line);
    }
  }

  /**
   * The pre-dash block of `FromStr for TypeLine`: supertypes are added while the next
   * token reads as one, then types; a token left over is answered as the error.
   */
  method ReadPreDashInto(line: TypeLine, pre: string) returns (err: Option<ReadError>)
    requires line.Value() == Empty
    modifies line
    ensures ReadPreDash(pre).Err? <==> err.Some?
    ensures err.Some? ==> ReadPreDash(pre) == Err(err.value)
    ensures err.None? ==> ReadPreDash(pre) == Ok((line.supertypes, line.types)) && line.subtypes == []
  {
    var parts := Tokens(pre);
    var k := AddSupertypesWhileRead(line, parts, 0);
    var j := AddTypesWhileRead(line, parts, k);
    if j < |parts| {
      return Some(ExtraParts(parts[j]));
    }
    return None;
  }

  /** The supertype loop: from token `from` on, adds supertypes while the token reads as one; answers where it stopped. */
  method AddSupertypesWhileRead(line: TypeLine, parts: seq<string>, from: nat) returns (k: nat)
    requires from <= |parts|
    modifies line
    ensures from <= k <= |parts|
    ensures ReadGreedy(ParseSupertype, old(line.supertypes), parts[from..]) == (line.supertypes, parts[k..])
    ensures line.types == old(line.types) && line.subtypes == old(line.subtypes)
  {
    k := from;
    ghost var goal := ReadGreedy(ParseSupertype, line.supertypes, parts[from..]);
    while k < |parts|
      invariant from <= k <= |parts|
      invariant ReadGreedy(ParseSupertype, line.supertypes, parts[k..]) == goal
      invariant line.types == old(line.types) && line.subtypes == old(line.subtypes)
    {
      var parsed := ParseSupertype(parts[k]);
      if parsed.None? {
        break;
      }
      ReadGreedyStep(ParseSupertype, line.supertypes, parts, k);
      line.AddSupertype(parsed.value);
      k := k + 1;
    }
    ReadGreedyStop(ParseSupertype, line.supertypes, parts, k);
  }

  /** The type loop: from token `from` on, adds types while the token reads as one; answers where it stopped. */
  method AddTypesWhileRead(line: TypeLine, parts: seq<string>, from: nat) returns (k: nat)
    requires from <= |parts|
    modifies line
    ensures from <= k <= |parts|
    ensures ReadGreedy(ParseType, old(line.types), parts[from..]) == (line.types, parts[k..])
    ensures line.supertypes == old(line.supertypes) && line.subtypes == old(line.subtypes)
  {
    k := from;
    ghost var goal := ReadGreedy(ParseType, line.types, parts[from..]);
    while k < |parts|
      invariant from <= k <= |parts|
      invariant ReadGreedy(ParseType, line.types, parts[k..]) == goal
      invariant line.supertypes == old(line.supertypes) && line.subtypes == old(line.subtypes)
    {
      var parsed := ParseType(parts[k]);
      if parsed.None? {
        break;
      }
      ReadGreedyStep(ParseType, line.types, parts, k);
      line.AddType(parsed.value);
      k := k + 1;
    }
    ReadGreedyStop(ParseType, line.types, parts, k);
  }

  /** The subtype loop: from token `from` on, adds subtypes while the token reads as one; answers where it stopped. */
  method AddSubtypesWhileRead(line: TypeLine, parts: seq<string>, from: nat) returns (k: nat)
    requires from <= |parts|
    modifies line
    ensures from <= k <= |parts|
    ensures ReadGreedy(ParseSubtype, old(line.subtypes), parts[from..]) == (line.subtypes, parts[k..])
    ensures line.supertypes == old(line.supertypes) && line.types == old(line.types)
  {
    k := from;
    ghost var goal := ReadGreedy(ParseSubtype, line.subtypes, parts[from..]);
    while k < |parts|
      invariant from <= k <= |parts|
      invariant ReadGreedy(ParseSubtype, line.subtypes, parts[k..]) == goal
      invariant line.supertypes == old(line.supertypes) && line.types == old(line.types)
    {
      var parsed := ParseSubtype(parts[k]);
      if parsed.None? {
        break;
      }
      ReadGreedyStep(ParseSubtype, line.subtypes, parts, k);
      line.AddSubtype(parsed.value);
      k := k + 1;
    }
    ReadGreedyStop(ParseSubtype, line.subtypes, parts, k);
  }

  /**
   * The post-dash block of `FromStr for TypeLine`: the trimmed text is added as one
   * subtype when it reads as one; otherwise subtypes are added while the next token
   * reads as one, and a token left over is answered as the error.
   */
  method ReadPostDashInto(line: TypeLine, text: string) returns (err: Option<ReadError>)
    requires line.subtypes == []
    modifies line
    ensures line.supertypes == old(line.supertypes) && line.types == old(line.types)
    ensures ReadPostDash(text).Err? <==> err.Some?
    ensures err.Some? ==> ReadPostDash(text) == Err(err.value)
    ensures err.None? ==> ReadPostDash(text) == Ok(line.subtypes)
  {
    var post := Trim(text);
    var whole := ParseSubtype(post);
    if whole.Some? {
      ReadPostDashWhole(text, whole.value);
      line.AddSubtype(whole.value);
      return None;
    }
    var parts := Tokens(post);
    var k := AddSubtypesWhileRead(line, parts, 0);
    assert parts[0..] == parts;
    ReadPostDashByTokens(text, line.subtypes, parts[k..]);
    if k < |parts| {
      return Some(ExtraParts(parts[k]));
    }
    return None;
  }
}
