/** Move notation (ExternalFcts.cs: ToNotation, ToNumbers): the printer that
    spells a move sequence as face letters and modifiers, and the parser for a
    single token. */
module Notation {
  import opened CSharpInt

  /** The face letter of a face index; anything else prints as "?". */
  function FaceLetter(face: int): string
  {
    match face
    case 0 => "F" case 1 => "U" case 2 => "R"
    case 3 => "B" case 4 => "D" case 5 => "L"
    case _ => "?"
  }

  /** The modifier of a move symbol: "'" above 11, "2" above 5, else " ". */
  function Modifier(move: int): string
  {
    if move > 11 then "'" else if move > 5 then "2" else " "
  }

  /** The three entries ToNotation writes for one symbol: face letter (of the
      C# remainder move % 6), modifier and a separating blank. */
  function MoveTokens(move: int): (t: seq<string>)
    ensures |t| == 3
  {
    [FaceLetter(CsRem(move, 6)), Modifier(move), " "]
  }

  /** ToNotation: three entries per symbol, in order (ExternalFcts.cs:36-61). */
  function ToNotation(sequence: seq<int>): (out: seq<string>)
    ensures |out| == 3 * |sequence|
    ensures forall a :: 0 <= a < |sequence| ==> out[3 * a..3 * a + 3] == MoveTokens(sequence[a])
  {
    if sequence == [] then []
    else
      var out := MoveTokens(sequence[0]) + ToNotation(sequence[1..]);
      assert forall a :: 1 <= a < |sequence| ==>
        out[3 * a..3 * a + 3] == ToNotation(sequence[1..])[3 * (a - 1)..3 * (a - 1) + 3];
      out
  }

  // ---------------------------------------------------------------------
  // The parser

  /** The characters C#'s char.IsWhiteSpace accepts in the ASCII range. */
  predicate IsWhiteSpace(ch: char)
  {
    ch == ' ' || ch == '\t' || ch == '\n' || ch == '\r' || ch == '\U{B}' || ch == '\U{C}'
  }

  /** Every character of s is white space. */
  predicate Blank(s: string)
  {
    forall k :: 0 <= k < |s| ==> IsWhiteSpace(s[k])
  }

  /** String.Trim: drop leading and trailing white space. */
  function Trim(s: string): (t: string)
    ensures |t| <= |s|
    ensures t != [] ==> !IsWhiteSpace(t[0]) && !IsWhiteSpace(t[|t| - 1])
    ensures forall k :: 0 <= k < |s| && !IsWhiteSpace(s[k]) ==> t != []
  {
    if s == [] then []
    else if IsWhiteSpace(s[0]) then Trim(s[1..])
    else if IsWhiteSpace(s[|s| - 1]) then Trim(s[..|s| - 1])
    else s
  }

  /** A slice of s[1..] framed by white space, as a slice of s. */
  lemma SliceAfterHead(s: string, i: int, j: int)
    requires s != [] && IsWhiteSpace(s[0]) && 0 <= i <= j <= |s| - 1
    requires Blank(s[1..][..i]) && Blank(s[1..][j..])
    ensures s[1..][i..j] == s[i + 1..j + 1] && Blank(s[..i + 1]) && Blank(s[j + 1..])
  {
    assert s[..i + 1] == [s[0]] + s[1..][..i];
    assert s[j + 1..] == s[1..][j..];
  }

  /** A slice of s without its last character, framed by white space, as a
      slice of s. */
  lemma SliceBeforeLast(s: string, i: int, j: int)
    requires s != [] && IsWhiteSpace(s[|s| - 1]) && 0 <= i <= j <= |s| - 1
    requires Blank(s[..|s| - 1][..i]) && Blank(s[..|s| - 1][j..])
    ensures s[..|s| - 1][i..j] == s[i..j] && Blank(s[..i]) && Blank(s[j..])
  {
    assert s[..i] == s[..|s| - 1][..i];
    assert s[j..] == s[..|s| - 1][j..] + [s[|s| - 1]];
  }

  /** Trim returns the input without its leading and trailing white space:
      a slice of it with only white space before and after. */
  lemma {:induction false} TrimIsSlice(s: string)
    ensures exists i, j :: 0 <= i <= j <= |s| && Trim(s) == s[i..j] && Blank(s[..i]) && Blank(s[j..])
    decreases |s|
  {
    var t := Trim(s);
    if s == [] {
      assert t == s[0..0] && Blank(s[..0]) && Blank(s[0..]);
    } else if IsWhiteSpace(s[0]) {
      TrimIsSlice(s[1..]);
      var i, j :| 0 <= i <= j <= |s| - 1 && t == s[1..][i..j] && Blank(s[1..][..i]) && Blank(s[1..][j..]);
      SliceAfterHead(s, i, j);
      assert t == s[i + 1..j + 1];
    } else if IsWhiteSpace(s[|s| - 1]) {
      var u := s[..|s| - 1];
      TrimIsSlice(u);
      var i, j :| 0 <= i <= j <= |u| && t == u[i..j] && Blank(u[..i]) && Blank(u[j..]);
      SliceBeforeLast(s, i, j);
      assert t == s[i..j];
    } else {
      assert t == s[0..|s|] && Blank(s[..0]) && Blank(s[|s|..]);
    }
  }

  /** ToUpperInvariant on one character (ASCII letters): a lower-case letter
      becomes the same letter in upper case, every other character is kept. */
  function UpperChar(ch: char): (u: char)
    ensures !('a' <= u <= 'z')
    ensures 'a' <= ch <= 'z' ==> 'A' <= u <= 'Z' && u as int - 'A' as int == ch as int - 'a' as int
    ensures !('a' <= ch <= 'z') ==> u == ch
  {
    if 'a' <= ch <= 'z' then (ch as int - 32) as char else ch
  }

  /** ToUpperInvariant on a string: no lower-case letter remains. */
  function Upper(s: string): (u: string)
    ensures |u| == |s|
    ensures forall k :: 0 <= k < |s| ==> u[k] == UpperChar(s[k])
    ensures forall k :: 0 <= k < |u| ==> !('a' <= u[k] <= 'z')
  {
    seq(|s|, k requires 0 <= k < |s| => UpperChar(s[k]))
  }

  /** Face index of a letter; an unknown letter reads as F. */
  function FaceOfLetter(ch: char): int
  {
    match ch
    case 'F' => 0 case 'U' => 1 case 'R' => 2
    case 'B' => 3 case 'D' => 4 case 'L' => 5
    case _ => 0
  }

  /** ToNumbers: trim, upper-case, read the face letter and an optional "2" or
      "'" (ExternalFcts.cs:64-85).  The empty string reads as 0. */
  function ToNumbers(s: string): (val: int)
    ensures 0 <= val <= 17
  {
    if s == [] then 0
    else
      var t := Upper(Trim(s));
      var c0 := if |t| > 0 then t[0] else '\0';
      var v := FaceOfLetter(c0);
      if |t| > 1 then
        (if t[1] == '2' then v + 6 else if t[1] == '\'' then v + 12 else v)
      else v
  }

  // ---------------------------------------------------------------------
  // Properties

  lemma FaceLetterParses(f: int)
    requires 0 <= f < 6
    ensures |FaceLetter(f)| == 1 && !IsWhiteSpace(FaceLetter(f)[0])
    ensures FaceOfLetter(UpperChar(FaceLetter(f)[0])) == f
  {
  }

  /** A quarter turn prints as its letter and a blank, which trims away. */
  lemma QuarterTokenRoundTrip(f: int)
    requires 0 <= f < 6
    ensures ToNumbers(FaceLetter(f) + " ") == f
  {
    FaceLetterParses(f);
    var tok := FaceLetter(f) + " ";
    assert tok[..1] == FaceLetter(f);
    assert Trim(tok) == Trim(FaceLetter(f)) == FaceLetter(f);
  }

  /** A half or inverse turn prints as its letter and "2" or "'". */
  lemma ModifiedTokenRoundTrip(f: int, mod: char)
    requires 0 <= f < 6 && (mod == '2' || mod == '\'')
    ensures ToNumbers(FaceLetter(f) + [mod]) == f + (if mod == '2' then 6 else 12)
  {
    FaceLetterParses(f);
    var tok := FaceLetter(f) + [mod];
    assert Trim(tok) == tok;
    assert Upper(tok)[1] == mod;
  }

  /** The face letter and modifier printed for a move symbol parse back to it. */
  lemma TokenRoundTrip(m: int)
    requires 0 <= m <= 17
    ensures ToNumbers(FaceLetter(m % 6) + Modifier(m)) == m
  {
    var tok := FaceLetter(m % 6) + Modifier(m);
    if m <= 5 {
      assert tok == FaceLetter(m) + " ";
      QuarterTokenRoundTrip(m);
    } else if m <= 11 {
      assert tok == FaceLetter(m - 6) + ['2'];
      ModifiedTokenRoundTrip(m - 6, '2');
    } else {
      assert tok == FaceLetter(m - 12) + ['\''];
      ModifiedTokenRoundTrip(m - 12, '\'');
    }
  }

  /** For every move symbol, the face letter and modifier ToNotation prints
      parse back to the symbol. */
  lemma NotationRoundTrip(sequence: seq<int>, a: int)
    requires 0 <= a < |sequence| && 0 <= sequence[a] <= 17
    ensures ToNumbers(ToNotation(sequence)[3 * a] + ToNotation(sequence)[3 * a + 1]) == sequence[a]
  {
    var m := sequence[a];
    var out := ToNotation(sequence);
    assert out[3 * a..3 * a + 3] == MoveTokens(m);
    assert out[3 * a] == MoveTokens(m)[0] == FaceLetter(m % 6);
    assert out[3 * a + 1] == MoveTokens(m)[1] == Modifier(m);
    TokenRoundTrip(m);
  }

  /** Every symbol of a printed sequence is recovered. */
  lemma ParsePrinted(sequence: seq<int>)
    requires forall a :: 0 <= a < |sequence| ==> 0 <= sequence[a] <= 17
    ensures forall a :: 0 <= a < |sequence| ==>
      ToNumbers(ToNotation(sequence)[3 * a] + ToNotation(sequence)[3 * a + 1]) == sequence[a]
  {
    forall a | 0 <= a < |sequence|
      ensures ToNumbers(ToNotation(sequence)[3 * a] + ToNotation(sequence)[3 * a + 1]) == sequence[a]
    {
      NotationRoundTrip(sequence, a);
    }
  }

  /** Upper-casing keeps white space and non-white space apart. */
  lemma UpperKeepsWhiteSpace(ch: char)
    ensures IsWhiteSpace(UpperChar(ch)) <==> IsWhiteSpace(ch)
  {
  }

  lemma UpperSlices(s: string)
    requires s != []
    ensures Upper(s)[1..] == Upper(s[1..])
    ensures Upper(s)[..|s| - 1] == Upper(s[..|s| - 1])
    ensures Upper(s)[0] == UpperChar(s[0]) && Upper(s)[|s| - 1] == UpperChar(s[|s| - 1])
  {
  }

  lemma {:induction false} TrimUpper(s: string)
    ensures Trim(Upper(s)) == Upper(Trim(s))
  {
    if s != [] {
      UpperSlices(s);
      UpperKeepsWhiteSpace(s[0]);
      UpperKeepsWhiteSpace(s[|s| - 1]);
      if IsWhiteSpace(s[0]) {
        TrimUpper(s[1..]);
      } else if IsWhiteSpace(s[|s| - 1]) {
        TrimUpper(s[..|s| - 1]);
      }
    }
  }

  /** Parsing ignores letter case. */
  lemma ToNumbersIgnoresCase(s: string)
    ensures ToNumbers(Upper(s)) == ToNumbers(s)
  {
    TrimUpper(s);
    var t := Trim(s);
    assert Upper(Upper(t)) == Upper(t);
  }

  /** Upper-casing twice is upper-casing once. */
  lemma UpperIdempotent(s: string)
    ensures Upper(Upper(s)) == Upper(s)
  {
  }

  /** Leading white space does not survive trimming. */
  lemma {:induction false} TrimBlankPrefix(pre: string, s: string)
    requires Blank(pre)
    ensures Trim(pre + s) == Trim(s)
    decreases |pre|
  {
    if pre != [] {
      var p := pre + s;
      assert p[0] == pre[0] && p[1..] == pre[1..] + s;
      TrimBlankPrefix(pre[1..], s);
    } else {
      assert pre + s == s;
    }
  }

  /** Trailing white space does not survive trimming. */
  lemma {:induction false} TrimBlankSuffix(s: string, post: string)
    requires Blank(post)
    ensures Trim(s + post) == Trim(s)
    decreases |s| + |post|
  {
    var p := s + post;
    if post == [] {
      assert p == s;
    } else if s == [] {
      assert p == post && p[1..] == [] + post[1..];
      TrimBlankSuffix([], post[1..]);
    } else if IsWhiteSpace(s[0]) {
      assert p[1..] == s[1..] + post;
      TrimBlankSuffix(s[1..], post);
    } else {
      assert p[|p| - 1] == post[|post| - 1];
      assert p[..|p| - 1] == s + post[..|post| - 1];
      TrimBlankSuffix(s, post[..|post| - 1]);
    }
  }

  /** Parsing ignores any white space around the token. */
  lemma ToNumbersIgnoresBlanks(pre: string, s: string, post: string)
    requires Blank(pre) && Blank(post)
    ensures ToNumbers(pre + s + post) == ToNumbers(s)
  {
    TrimBlankPrefix(pre, s + post);
    TrimBlankSuffix(s, post);
    assert pre + s + post == pre + (s + post);
    if s == [] {
      assert Trim(s) == [];
    }
  }

  /** A token whose letter is not a face letter reads as face F. */
  lemma UnknownLetterIsFront(s: string)
    requires |s| == 1 && !(UpperChar(s[0]) in "FURBDL") && !IsWhiteSpace(s[0])
    ensures ToNumbers(s) == 0
  {
    assert Trim(s) == s;
  }
}
