/**
 * The small text formats of the MTG JSON reader (`mtgjson/src/lib.rs`): colors
 * abbreviated to one letter, with `C` standing for colorless where a color is
 * optional; release dates shortened to a year or a year and month, padded back to a
 * full `YYYY-MM-DD` before they are parsed; and the `is_default` test that keeps
 * empty lists and strings out of the serialised output.
 */
module MtgJson {

  import opened Wrappers
  import opened Colors

  // ---------------------------------------------------------------------------
  // `Abbreviated<Color>` and `Abbreviated<Option<Color>>`.

  /** `ParseAbbreviatedColorError`: a unit error with a fixed message. */
  datatype ParseAbbreviatedColorError = ParseAbbreviatedColorError

  /** The message `ParseAbbreviatedColorError` displays, word for word. */
  const ParseErrorMessage: string := "provided string was a recognized abbreviated color"

  /** `Display for Abbreviated<Color>`: the color's initial. */
  function AbbreviatedColorText(c: Color): (s: string)
    ensures |s| == 1 && s[0] in "WUBRG"
  {
    [Initial(c)]
  }

  /** `FromStr for Abbreviated<Color>`: exactly the five one-letter initials are accepted. */
  function ParseAbbreviatedColor(s: string): (r: Result<Color, ParseAbbreviatedColorError>)
    ensures r.Ok? <==> s in ["W", "U", "B", "R", "G"]
  {
    if s == "W" then Ok(White)
    else if s == "U" then Ok(Blue)
    else if s == "B" then Ok(Black)
    else if s == "R" then Ok(Red)
    else if s == "G" then Ok(Green)
    else Err(ParseAbbreviatedColorError)
  }

  /** A color reads back from its abbreviation, and an accepted string is an abbreviation. */
  lemma AbbreviatedColorRoundTrip(c: Color, s: string)
    ensures ParseAbbreviatedColor(AbbreviatedColorText(c)) == Ok(c)
    ensures ParseAbbreviatedColor(s) == Ok(c) ==> s == AbbreviatedColorText(c)
  {
  }

  /** `Display for Abbreviated<Option<Color>>`: `C` for no color, else the color's initial. */
  function AbbreviatedOptionText(o: Option<Color>): (s: string)
    ensures |s| == 1
    ensures o.None? <==> s == "C"
    ensures o.Some? ==> s == AbbreviatedColorText(o.value)
  {
    match o
    case None => "C"
    case Some(c) => AbbreviatedColorText(c)
  }

  /** `FromStr for Abbreviated<Option<Color>>`: `C` is no color; anything else is parsed as a color. */
  function ParseAbbreviatedOption(s: string): (r: Result<Option<Color>, ParseAbbreviatedColorError>)
    ensures s == "C" ==> r == Ok(None)
    ensures s != "C" ==> (r.Ok? <==> ParseAbbreviatedColor(s).Ok?)
    ensures s != "C" && r.Ok? ==> r.value == Some(ParseAbbreviatedColor(s).value)
  {
    if s == "C" then Ok(None)
    else
      match ParseAbbreviatedColor(s)
      case Ok(c) => Ok(Some(c))
      case Err(e) => Err(e)
  }

  /** An optional color reads back from its abbreviation, and an accepted string is an abbreviation. */
  lemma AbbreviatedOptionRoundTrip(o: Option<Color>, s: string)
    ensures ParseAbbreviatedOption(AbbreviatedOptionText(o)) == Ok(o)
    ensures ParseAbbreviatedOption(s) == Ok(o) ==> s == AbbreviatedOptionText(o)
  {
    if o.Some? {
      AbbreviatedColorRoundTrip(o.value, s);
    }
    if s != "C" && ParseAbbreviatedOption(s) == Ok(o) {
      AbbreviatedColorRoundTrip(o.value, s);
    }
  }

  // ---------------------------------------------------------------------------
  // `ShortenedDate`: padding a shortened date before it is parsed.

  /** The error a date of any other length is rejected with. */
  const InvalidDateLength: string := "invalid date length"

  /**
   * What the padding makes of a release date: a full date is kept, a year and month
   * gets the first of the month, a year gets the first of January.
   */
  function PaddedDate(s: string): (r: Result<string, string>)
    ensures r.Ok? <==> |s| == 10 || |s| == 7 || |s| == 4
    ensures r.Ok? ==> |r.value| == 10 && r.value[..|s|] == s
    ensures r.Ok? ==> forall i :: |s| <= i < 10 ==> r.value[i] == "0000-01-01"[i]
    ensures r.Err? ==> r.error == InvalidDateLength
  {
    if |s| == 10 then Ok(s)
    else if |s| == 7 then Ok(s + "-01")
    else if |s| == 4 then Ok(s + "-01-01")
    else Err(InvalidDateLength)
  }

  /** The deserialiser's padding step: appends in place to its own copy of the string. */
  method PadDate(input: string) returns (r: Result<string, string>)
    ensures r == PaddedDate(input)
  {
    var s := input;
    if |s| == 10 {
    } else if |s| == 7 {
      s := s + "-01";
    } else if |s| == 4 {
      s := s + "-01-01";
    } else {
      return Err(InvalidDateLength);
    }
    r := Ok(s);
  }

  /** Padding a padded date changes nothing. */
  lemma PaddingIsIdempotent(s: string)
    requires PaddedDate(s).Ok?
    ensures PaddedDate(PaddedDate(s).value) == PaddedDate(s)
  {
  }

  /** A shortened date is padded to the first day of its period. */
  lemma PaddingExamples()
    ensures PaddedDate("1993-08") == Ok("1993-08-01")
    ensures PaddedDate("1993") == Ok("1993-01-01")
    ensures PaddedDate("1993-08-05") == Ok("1993-08-05")
    ensures PaddedDate("1993-8") == Err(InvalidDateLength)
  {
    assert "1993-08" + "-01" == "1993-08-01";
    assert "1993" + "-01-01" == "1993-01-01";
  }

  // ---------------------------------------------------------------------------
  // `is_default`.

  /**
   * `is_default`, at the types it is used with (`Vec<String>`, `Vec<Ruling>`,
   * `String`): true exactly when the value equals the default, the empty sequence.
   */
  function IsDefault<T(==)>(value: seq<T>): (r: bool)
    ensures r <==> |value| == 0
  {
    value == []
  }

  /** A field is skipped when serialising exactly when it holds nothing. */
  lemma IsDefaultRejectsAnyElement<T>(value: seq<T>, x: T)
    ensures IsDefault(value) ==> x !in value
    ensures !IsDefault(value + [x])
  {
  }
}
