/**
 * The string operations the type-line reader and printer rely on: Unicode white
 * space, `split_whitespace`, `trim`, splitting on a separator character, joining.
 */
module Text {

  import opened Wrappers

  /** The em dash U+2014 that separates types from subtypes. */
  const EmDash: char := '\U{2014}'

  /** Rust's `char::is_whitespace`: the Unicode White_Space property. */
  predicate IsWhitespace(c: char)
  {
    ('\U{0009}' <= c <= '\U{000D}') || c == ' ' || c == '\U{0085}' || c == '\U{00A0}' ||
    c == '\U{1680}' || ('\U{2000}' <= c <= '\U{200A}') || c == '\U{2028}' || c == '\U{2029}' ||
    c == '\U{202F}' || c == '\U{205F}' || c == '\U{3000}'
  }

  /** The em dash is not white space, so splitting on it and on white space do not interfere. */
  lemma EmDashIsNotWhitespace()
    ensures !IsWhitespace(EmDash)
  {
  }

  /** No character of `s` is white space. */
  predicate NoWhitespace(s: string)
  {
    forall i :: 0 <= i < |s| ==> !IsWhitespace(s[i])
  }

  /** A word: a non-empty run of non-white-space characters, as `split_whitespace` yields. */
  predicate IsWord(s: string)
  {
    s != [] && NoWhitespace(s)
  }

  /** Every character is a visible ASCII character (`!` to `~`). */
  predicate VisibleAscii(s: string)
  {
    forall i :: 0 <= i < |s| ==> '!' <= s[i] <= '~'
  }

  /** Visible ASCII text that is not empty is a word, and holds no em dash. */
  lemma VisibleAsciiIsWord(s: string)
    requires s != [] && VisibleAscii(s)
    ensures IsWord(s) && EmDash !in s
  {
  }

  /** The length of the leading non-white-space run of `s`. */
  function WordLength(s: string): (n: nat)
    ensures n <= |s|
    ensures NoWhitespace(s[..n])
    ensures n < |s| ==> IsWhitespace(s[n])
  {
    if s == [] || IsWhitespace(s[0]) then 0
    else
      var n := 1 + WordLength(s[1..]);
      assert s[..n] == [s[0]] + s[1..][..n - 1];
      n
  }

  /** `str::split_whitespace`: the maximal runs of non-white-space characters, in order. */
  function Tokens(s: string): seq<string>
    decreases |s|
  {
    if s == [] then []
    else if IsWhitespace(s[0]) then Tokens(s[1..])
    else
      var n := WordLength(s);
      [s[..n]] + Tokens(s[n..])
  }

  /** Every token is a word. */
  lemma {:induction false} TokensAreWords(s: string)
    ensures forall i :: 0 <= i < |Tokens(s)| ==> IsWord(Tokens(s)[i])
    decreases |s|
  {
    if s != [] {
      if IsWhitespace(s[0]) {
        TokensAreWords(s[1..]);
      } else {
        TokensAreWords(s[WordLength(s)..]);
      }
    }
  }

  /** Text made only of white space has no tokens. */
  lemma {:induction false} TokensOfBlank(s: string)
    requires forall i :: 0 <= i < |s| ==> IsWhitespace(s[i])
    ensures Tokens(s) == []
    decreases |s|
  {
    if s != [] {
      TokensOfBlank(s[1..]);
    }
  }

  /** A text without white space that is not empty is its own single token. */
  lemma TokensOfWord(w: string)
    requires IsWord(w)
    ensures Tokens(w) == [w]
  {
    TokensOfWordThen(w, "");
    assert w + "" == w;
  }

  lemma {:induction false} WordLengthOfWord(w: string)
    requires NoWhitespace(w)
    ensures WordLength(w) == |w|
  {
    if w != [] {
      WordLengthOfWord(w[1..]);
    }
  }

  /** A word runs up to the first white space that follows it. */
  lemma {:induction false} WordLengthOfWordThenSpace(w: string, rest: string)
    requires NoWhitespace(w)
    requires rest == [] || IsWhitespace(rest[0])
    ensures WordLength(w + rest) == |w|
  {
    if w == [] {
      assert w + rest == rest;
    } else {
      assert (w + rest)[1..] == w[1..] + rest;
      WordLengthOfWordThenSpace(w[1..], rest);
    }
  }

  /** White space in front of a text does not change its tokens. */
  lemma {:induction false} TokensSkipBlank(b: string, rest: string)
    requires forall i :: 0 <= i < |b| ==> IsWhitespace(b[i])
    ensures Tokens(b + rest) == Tokens(rest)
    decreases |b|
  {
    if b != [] {
      assert (b + rest)[1..] == b[1..] + rest;
      TokensSkipBlank(b[1..], rest);
    } else {
      assert b + rest == rest;
    }
  }

  /** A word followed by white space is the first token. */
  lemma TokensOfWordThen(w: string, rest: string)
    requires IsWord(w)
    requires rest == [] || IsWhitespace(rest[0])
    ensures Tokens(w + rest) == [w] + Tokens(rest)
  {
    WordLengthOfWordThenSpace(w, rest);
    assert (w + rest)[..|w|] == w;
    assert (w + rest)[|w|..] == rest;
  }

  /** The text of `ws` with a space after each word. */
  function SpaceAfterEach(ws: seq<string>): string
  {
    if ws == [] then "" else ws[0] + " " + SpaceAfterEach(ws[1..])
  }

  /** `ws` separated by single spaces (`join(" ")`). */
  function JoinSpaced(ws: seq<string>): string
  {
    if ws == [] then "" else if |ws| == 1 then ws[0] else ws[0] + " " + JoinSpaced(ws[1..])
  }

  /** The text of `ws` with a space before each word. */
  function SpaceBeforeEach(ws: seq<string>): string
  {
    if ws == [] then "" else " " + ws[0] + SpaceBeforeEach(ws[1..])
  }

  /** A word, a space, then anything: the word is the first token. */
  lemma TokensStep(w: string, tail: string)
    requires IsWord(w)
    ensures Tokens(w + " " + tail) == [w] + Tokens(tail)
  {
    assert w + " " + tail == w + (" " + tail);
    TokensOfWordThen(w, " " + tail);
    TokensSkipBlank(" ", tail);
  }

  /** Regrouping a non-empty sequence around its first element. */
  lemma SplitFirst<T>(xs: seq<T>, ys: seq<T>)
    requires xs != []
    ensures [xs[0]] + (xs[1..] + ys) == xs + ys
  {
    assert xs == [xs[0]] + xs[1..];
  }

  /** Words followed by spaces tokenize back to the words, whatever follows. */
  lemma {:induction false} TokensOfSpaceAfterEach(ws: seq<string>, rest: string)
    requires forall i :: 0 <= i < |ws| ==> IsWord(ws[i])
    ensures Tokens(SpaceAfterEach(ws) + rest) == ws + Tokens(rest)
  {
    if ws == [] {
      assert SpaceAfterEach(ws) + rest == rest;
    } else {
      var tail := SpaceAfterEach(ws[1..]) + rest;
      assert SpaceAfterEach(ws) + rest == ws[0] + " " + tail;
      TokensStep(ws[0], tail);
      TokensOfSpaceAfterEach(ws[1..], rest);
      SplitFirst(ws, Tokens(rest));
    }
  }

  /** Words joined by spaces tokenize back to the words, when white space or nothing follows. */
  lemma {:induction false} TokensOfJoinSpaced(ws: seq<string>, rest: string)
    requires forall i :: 0 <= i < |ws| ==> IsWord(ws[i])
    requires rest == [] || IsWhitespace(rest[0])
    ensures Tokens(JoinSpaced(ws) + rest) == ws + Tokens(rest)
  {
    if ws == [] {
      assert JoinSpaced(ws) + rest == rest;
    } else if |ws| == 1 {
      TokensOfWordThen(ws[0], rest);
    } else {
      var tail := JoinSpaced(ws[1..]) + rest;
      assert JoinSpaced(ws) + rest == ws[0] + " " + tail;
      TokensStep(ws[0], tail);
      TokensOfJoinSpaced(ws[1..], rest);
      SplitFirst(ws, Tokens(rest));
    }
  }

  /** Words each preceded by a space tokenize back to the words. */
  lemma {:induction false} TokensOfSpaceBeforeEach(ws: seq<string>)
    requires forall i :: 0 <= i < |ws| ==> IsWord(ws[i])
    ensures Tokens(SpaceBeforeEach(ws)) == ws
  {
    if ws != [] {
      var tail := SpaceBeforeEach(ws[1..]);
      assert SpaceBeforeEach(ws) == " " + (ws[0] + tail);
      TokensSkipBlank(" ", ws[0] + tail);
      SpaceBeforeEachStartsBlank(ws[1..]);
      TokensOfWordThen(ws[0], tail);
      TokensOfSpaceBeforeEach(ws[1..]);
      assert ws == [ws[0]] + ws[1..];
    }
  }

  lemma SpaceBeforeEachStartsBlank(ws: seq<string>)
    ensures SpaceBeforeEach(ws) == [] || IsWhitespace(SpaceBeforeEach(ws)[0])
  {
  }

  /** Appending to a non-empty sequence leaves its first element and appends to its tail. */
  lemma DropFirstOfAppend<T>(xs: seq<T>, y: T)
    requires xs != []
    ensures (xs + [y])[0] == xs[0] && (xs + [y])[1..] == xs[1..] + [y]
  {
  }

  /** Printing one more word with a space after it extends the text at its end. */
  lemma {:induction false} SpaceAfterEachAppend(ws: seq<string>, w: string)
    ensures SpaceAfterEach(ws + [w]) == SpaceAfterEach(ws) + w + " "
    decreases |ws|
  {
    if ws == [] {
      assert ws + [w] == [w];
    } else {
      DropFirstOfAppend(ws, w);
      SpaceAfterEachAppend(ws[1..], w);
      calc {
        SpaceAfterEach(ws + [w]);
        ws[0] + " " + SpaceAfterEach(ws[1..] + [w]);
        ws[0] + " " + (SpaceAfterEach(ws[1..]) + w + " ");
      }
    }
  }

  /** Joining one more word adds a separating space only when there was a word before. */
  lemma {:induction false} JoinSpacedAppend(ws: seq<string>, w: string)
    ensures JoinSpaced(ws + [w]) == (if ws == [] then w else JoinSpaced(ws) + " " + w)
    decreases |ws|
  {
    if ws == [] {
      assert ws + [w] == [w];
    } else if |ws| == 1 {
      DropFirstOfAppend(ws, w);
      assert (ws + [w])[1..] == [w];
    } else {
      DropFirstOfAppend(ws, w);
      JoinSpacedAppend(ws[1..], w);
      calc {
        JoinSpaced(ws + [w]);
        ws[0] + " " + JoinSpaced(ws[1..] + [w]);
        ws[0] + " " + (JoinSpaced(ws[1..]) + " " + w);
        (ws[0] + " " + JoinSpaced(ws[1..])) + " " + w;
      }
    }
  }

  /** Printing one more word with a space before it extends the text at its end. */
  lemma {:induction false} SpaceBeforeEachAppend(ws: seq<string>, w: string)
    ensures SpaceBeforeEach(ws + [w]) == SpaceBeforeEach(ws) + " " + w
    decreases |ws|
  {
    if ws == [] {
      assert ws + [w] == [w];
    } else {
      DropFirstOfAppend(ws, w);
      SpaceBeforeEachAppend(ws[1..], w);
    }
  }

  /** A space before each word is a leading space and then the words joined by spaces. */
  lemma {:induction false} SpaceBeforeEachIsLeadingSpace(ws: seq<string>)
    requires ws != []
    ensures SpaceBeforeEach(ws) == " " + JoinSpaced(ws)
    decreases |ws|
  {
    if |ws| > 1 {
      SpaceBeforeEachIsLeadingSpace(ws[1..]);
    }
  }

  /** Joining text free of `c` with spaces around it keeps it free of `c`, when `c` is not a space. */
  lemma {:induction false} JoinsAvoid(ws: seq<string>, c: char)
    requires c != ' '
    requires forall i :: 0 <= i < |ws| ==> c !in ws[i]
    ensures c !in SpaceAfterEach(ws) && c !in JoinSpaced(ws) && c !in SpaceBeforeEach(ws)
    decreases |ws|
  {
    if ws != [] {
      JoinsAvoid(ws[1..], c);
    }
  }

  /** Words joined by spaces start with the first word's first character and end with the last word's last. */
  lemma {:induction false} JoinSpacedEnds(ws: seq<string>)
    requires ws != []
    requires forall i :: 0 <= i < |ws| ==> ws[i] != []
    ensures JoinSpaced(ws) != []
    ensures JoinSpaced(ws)[0] == ws[0][0]
    ensures JoinSpaced(ws)[|JoinSpaced(ws)| - 1] == ws[|ws| - 1][|ws[|ws| - 1]| - 1]
    decreases |ws|
  {
    if |ws| > 1 {
      JoinSpacedEnds(ws[1..]);
    }
  }

  /** Leading white space removed (`trim_start`). */
  function TrimStart(s: string): (r: string)
    ensures |r| <= |s| && r == s[|s| - |r|..]
    ensures r == [] || !IsWhitespace(r[0])
    ensures forall i :: 0 <= i < |s| - |r| ==> IsWhitespace(s[i])
  {
    if s != [] && IsWhitespace(s[0]) then TrimStart(s[1..]) else s
  }

  /** Trailing white space removed (`trim_end`). */
  function TrimEnd(s: string): (r: string)
    ensures |r| <= |s| && r == s[..|r|]
    ensures r == [] || !IsWhitespace(r[|r| - 1])
    ensures forall i :: |r| <= i < |s| ==> IsWhitespace(s[i])
  {
    if s != [] && IsWhitespace(s[|s| - 1]) then TrimEnd(s[..|s| - 1]) else s
  }

  /** `str::trim`: leading and trailing white space removed. */
  function Trim(s: string): string
  {
    TrimEnd(TrimStart(s))
  }

  /** Text that neither starts nor ends with white space is its own trim. */
  lemma TrimOfTrimmed(s: string)
    requires s == [] || (!IsWhitespace(s[0]) && !IsWhitespace(s[|s| - 1]))
    ensures Trim(s) == s
  {
  }

  /** Spaces in front of trimmed text are removed by `trim`. */
  lemma {:induction false} TrimAfterBlank(b: string, s: string)
    requires forall i :: 0 <= i < |b| ==> IsWhitespace(b[i])
    requires s == [] || (!IsWhitespace(s[0]) && !IsWhitespace(s[|s| - 1]))
    ensures Trim(b + s) == s
    decreases |b|
  {
    if b == [] {
      assert b + s == s;
    } else {
      assert (b + s)[1..] == b[1..] + s;
      TrimAfterBlank(b[1..], s);
    }
  }

  /** The text of `s` before the first `d` (all of `s` when there is none). */
  function Before(s: string, d: char): (r: string)
    ensures |r| <= |s| && r == s[..|r|]
    ensures d !in r
    ensures |r| < |s| ==> s[|r|] == d
  {
    if s == [] || s[0] == d then [] else [s[0]] + Before(s[1..], d)
  }

  /** The text of `s` after the first `d`, if `s` holds one. */
  function After(s: string, d: char): (r: Option<string>)
    ensures (r.Some?) <==> d in s
    ensures r.Some? ==> s == Before(s, d) + [d] + r.value
  {
    var n := |Before(s, d)|;
    if n < |s| then Some(s[n + 1..]) else None
  }

  /** The first piece of `s.split(d)`. */
  function FirstPiece(s: string, d: char): string
  {
    Before(s, d)
  }

  /** The second piece of `s.split(d)`, if there is one: the text between the first and second `d`. */
  function SecondPiece(s: string, d: char): Option<string>
  {
    match After(s, d)
    case None => None
    case Some(rest) => Some(Before(rest, d))
  }

  /** Splitting `a + [d] + b` where `a` has no `d` gives `a` and then the part of `b` before its first `d`. */
  lemma PiecesOf(a: string, d: char, b: string)
    requires d !in a
    ensures FirstPiece(a + [d] + b, d) == a
    ensures SecondPiece(a + [d] + b, d) == Some(Before(b, d))
  {
    BeforeOfConcat(a, d, b);
    assert (a + [d] + b)[|a| + 1..] == b;
  }

  lemma {:induction false} BeforeOfConcat(a: string, d: char, b: string)
    requires d !in a
    ensures Before(a + [d] + b, d) == a
  {
    if a != [] {
      assert (a + [d] + b)[1..] == a[1..] + [d] + b;
      BeforeOfConcat(a[1..], d, b);
    }
  }

  /** A text without `d` is one piece. */
  lemma PiecesOfUnsplit(s: string, d: char)
    requires d !in s
    ensures FirstPiece(s, d) == s
    ensures SecondPiece(s, d) == None
  {
  }

  /** `usize::to_string`: the decimal digits of `n`. */
  function NatToDecimal(n: nat): (s: string)
    ensures s != []
    ensures forall i :: 0 <= i < |s| ==> '0' <= s[i] <= '9'
  {
    if n < 10 then [DigitChar(n)] else NatToDecimal(n / 10) + [DigitChar(n % 10)]
  }

  function DigitChar(d: nat): (c: char)
    requires d < 10
    ensures '0' <= c <= '9'
  {
    ('0' as int + d) as char
  }

  /** The value of a string of decimal digits. */
  function DecimalValue(s: string): nat
    requires forall i :: 0 <= i < |s| ==> '0' <= s[i] <= '9'
  {
    if s == [] then 0 else 10 * DecimalValue(s[..|s| - 1]) + (s[|s| - 1] as int - '0' as int)
  }

  /** The decimal text of `n` reads back as `n`, so distinct amounts print differently. */
  lemma {:induction false} NatToDecimalRoundTrip(n: nat)
    ensures DecimalValue(NatToDecimal(n)) == n
  {
    var s := NatToDecimal(n);
    if n >= 10 {
      NatToDecimalRoundTrip(n / 10);
      assert s[..|s| - 1] == NatToDecimal(n / 10);
    }
  }
}
