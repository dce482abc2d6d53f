/** The JavaScript string operations the core relies on, with their ECMAScript meaning:
    the `\s` and `\w` character classes, `toLowerCase`/`toUpperCase` (Latin-1 range),
    `includes`, `startsWith`, `endsWith`, `trim`, `split`, `join` and the decimal
    rendering of an integer in a template literal. */
module JsText {

  /** `\s` in a JavaScript regular expression: the WhiteSpace and LineTerminator code
      points. `String.prototype.trim` strips exactly these. */
  predicate IsSpace(c: char) {
    c == ' ' || c == '\t' || c == '\n' || c == '\r' || c == '\U{B}' || c == '\U{C}'
    || c == '\U{A0}' || c == '\U{1680}' || ('\U{2000}' <= c <= '\U{200A}')
    || c == '\U{2028}' || c == '\U{2029}' || c == '\U{202F}' || c == '\U{205F}'
    || c == '\U{3000}' || c == '\U{FEFF}'
  }

  predicate IsDigit(c: char) { '0' <= c <= '9' }
  predicate IsLower(c: char) { 'a' <= c <= 'z' }
  predicate IsUpper(c: char) { 'A' <= c <= 'Z' }
  predicate IsLetter(c: char) { IsLower(c) || IsUpper(c) }
  predicate IsAlnum(c: char) { IsLetter(c) || IsDigit(c) }
  /** `\w` in a regular expression without the `u` flag. */
  predicate IsWordChar(c: char) { IsAlnum(c) || c == '_' }

  predicate NoSpace(s: string) { forall i :: 0 <= i < |s| ==> !IsSpace(s[i]) }

  /** `toLowerCase` of one code point, for ASCII and the Latin-1 letters. */
  function LowerChar(c: char): char {
    if IsUpper(c) || ('\U{C0}' <= c <= '\U{DE}' && c != '\U{D7}') then (c as int + 32) as char else c
  }

  /** `toUpperCase` of one code point, for ASCII and the Latin-1 letters: 'µ' becomes
      U+039C and 'ÿ' U+0178; 'ß', which JavaScript turns into "SS", is kept. */
  function UpperChar(c: char): char {
    if IsLower(c) || ('\U{E0}' <= c <= '\U{FE}' && c != '\U{F7}') then (c as int - 32) as char
    else if c == '\U{B5}' then '\U{39C}'
    else if c == '\U{FF}' then '\U{178}'
    else c
  }

  function ToLower(s: string): (r: string)
    ensures |r| == |s|
    ensures forall i :: 0 <= i < |s| ==> r[i] == LowerChar(s[i])
  {
    seq(|s|, i requires 0 <= i < |s| => LowerChar(s[i]))
  }

  lemma ToLowerAppend(a: string, b: string)
    ensures ToLower(a + b) == ToLower(a) + ToLower(b)
  {
  }

  /** `s.replace(/[class]/g, c => f(c))` for a one-character class: every character mapped. */
  function MapChars(s: string, f: char -> char): (r: string)
    ensures |r| == |s|
    ensures forall i :: 0 <= i < |s| ==> r[i] == f(s[i])
  {
    seq(|s|, i requires 0 <= i < |s| => f(s[i]))
  }

  /** `s.replace(/[^class]/g, '')`: keeps the characters for which `keep` holds, in order. */
  function Filter(s: string, keep: char -> bool): (r: string)
    ensures |r| <= |s|
    ensures forall i :: 0 <= i < |r| ==> keep(r[i])
  {
    if s == [] then []
    else if keep(s[0]) then [s[0]] + Filter(s[1..], keep)
    else Filter(s[1..], keep)
  }

  lemma FilterKeepsAll(s: string, keep: char -> bool)
    requires forall i :: 0 <= i < |s| ==> keep(s[i])
    ensures Filter(s, keep) == s
  {
    if s != [] { FilterKeepsAll(s[1..], keep); }
  }

  lemma FilterAppend(a: string, b: string, keep: char -> bool)
    ensures Filter(a + b, keep) == Filter(a, keep) + Filter(b, keep)
  {
    if a == [] {
      assert a + b == b;
    } else {
      assert (a + b)[1..] == a[1..] + b;
      FilterAppend(a[1..], b, keep);
    }
  }

  /** `s.includes(sub)` ... */
  predicate OccursAt(s: string, sub: string, i: nat) {
    i + |sub| <= |s| && s[i..i + |sub|] == sub
  }

  /** ... holds iff `sub` occurs in `s` at some index. */
  predicate Contains(s: string, sub: string) {
    exists i: nat | i <= |s| :: OccursAt(s, sub, i)
  }

  lemma ContainsEmpty(s: string)
    ensures Contains(s, "")
  {
    assert OccursAt(s, "", 0);
  }

  lemma ContainsSelf(s: string)
    ensures Contains(s, s)
  {
    assert s[0..|s|] == s;
    assert OccursAt(s, s, 0);
  }

  /** An occurrence inside a part of a concatenation is an occurrence in the whole. */
  lemma ContainsInConcat(a: string, b: string, c: string, sub: string)
    requires Contains(b, sub)
    ensures Contains(a + b + c, sub)
  {
    var i: nat :| i <= |b| && OccursAt(b, sub, i);
    var s := a + b + c;
    assert s[|a| + i..|a| + i + |sub|] == b[i..i + |sub|];
    assert OccursAt(s, sub, |a| + i);
  }

  predicate StartsWith(s: string, p: string) { |p| <= |s| && s[..|p|] == p }
  predicate EndsWith(s: string, p: string) { |p| <= |s| && s[|s| - |p|..] == p }

  /** Index of the first `c` in `s`, or -1 (`indexOf`). */
  function IndexOf(s: string, c: char): (k: int)
    ensures -1 <= k < |s|
    ensures k >= 0 ==> s[k] == c && forall j :: 0 <= j < k ==> s[j] != c
    ensures k == -1 ==> forall j :: 0 <= j < |s| ==> s[j] != c
  {
    if s == [] then -1
    else if s[0] == c then 0
    else var k := IndexOf(s[1..], c); if k < 0 then -1 else k + 1
  }

  /** `s.split(c)` for a one-character separator: the pieces between the separators. */
  function Split(s: string, c: char): (r: seq<string>)
    ensures |r| >= 1
    ensures forall i :: 0 <= i < |r| ==> c !in r[i]
    decreases |s|
  {
    var k := IndexOf(s, c);
    if k < 0 then [s] else [s[..k]] + Split(s[k + 1..], c)
  }

  /** `pieces.join(sep)`. */
  function Join(pieces: seq<string>, sep: string): string {
    if |pieces| == 0 then ""
    else if |pieces| == 1 then pieces[0]
    else pieces[0] + sep + Join(pieces[1..], sep)
  }

  /** Joining the pieces of a split with the same separator gives back the string. */
  lemma {:induction false} JoinSplit(s: string, c: char)
    ensures Join(Split(s, c), [c]) == s
    decreases |s|
  {
    var k := IndexOf(s, c);
    if k >= 0 {
      JoinSplit(s[k + 1..], c);
      assert s == s[..k] + [c] + s[k + 1..];
    }
  }

  /** The first piece of `s.split(c)` is everything before the first `c`. */
  lemma SplitHead(s: string, c: char)
    ensures IndexOf(s, c) < 0 ==> Split(s, c)[0] == s
    ensures IndexOf(s, c) >= 0 ==> Split(s, c)[0] == s[..IndexOf(s, c)]
  {
  }

  /** The text of `s` before the first `c`. */
  function FirstPiece(s: string, c: char): (r: string)
    ensures IndexOf(s, c) < 0 ==> r == s
    ensures IndexOf(s, c) >= 0 ==> r == s[..IndexOf(s, c)]
    ensures |r| <= |s| && r == s[..|r|] && c !in r
    ensures |r| == |s| || s[|r|] == c
  {
    SplitHead(s, c);
    var k := IndexOf(s, c);
    var r := Split(s, c)[0];
    assert r == s[..if k < 0 then |s| else k];
    r
  }

  /** The second piece of a split is the first piece of what follows the first separator. */
  lemma SplitSecond(s: string, c: char)
    ensures IndexOf(s, c) < 0 <==> |Split(s, c)| == 1
    ensures IndexOf(s, c) >= 0 ==> Split(s, c)[1] == FirstPiece(s[IndexOf(s, c) + 1..], c)
  {
    var k := IndexOf(s, c);
    if k < 0 {
      assert Split(s, c) == [s];
    } else {
      SecondPiece(s, c);
    }
  }

  lemma SecondPiece(s: string, c: char)
    requires IndexOf(s, c) >= 0
    ensures |Split(s, c)| >= 2
    ensures Split(s, c)[1] == FirstPiece(s[IndexOf(s, c) + 1..], c)
  {
    var rest := s[IndexOf(s, c) + 1..];
    SplitUnfold(s, c);
    SplitHead(rest, c);
    assert Split(s, c)[1] == Split(rest, c)[0];
  }

  lemma SplitUnfold(s: string, c: char)
    requires IndexOf(s, c) >= 0
    ensures Split(s, c) == [s[..IndexOf(s, c)]] + Split(s[IndexOf(s, c) + 1..], c)
  {
  }

  /** `s.trimStart()` restricted to `\s`. */
  function TrimStart(s: string): (r: string)
    ensures |r| <= |s|
    ensures r == s[|s| - |r|..]
    ensures r != [] ==> !IsSpace(r[0])
    ensures forall i :: 0 <= i < |s| - |r| ==> IsSpace(s[i])
    ensures s != [] && IsSpace(s[0]) ==> |r| < |s|
  {
    if s != [] && IsSpace(s[0]) then TrimStart(s[1..]) else s
  }

  function TrimEnd(s: string): (r: string)
    ensures |r| <= |s|
    ensures r == s[..|r|]
    ensures r != [] ==> !IsSpace(r[|r| - 1])
    ensures forall i :: |r| <= i < |s| ==> IsSpace(s[i])
  {
    if s != [] && IsSpace(s[|s| - 1]) then TrimEnd(s[..|s| - 1]) else s
  }

  /** `s.trim()`. */
  function Trim(s: string): string { TrimEnd(TrimStart(s)) }

  /** A string that neither starts nor ends with whitespace is its own `trim()`. */
  lemma TrimUnspaced(s: string)
    requires s != [] && !IsSpace(s[0]) && !IsSpace(s[|s| - 1])
    ensures Trim(s) == s
  {
  }

  /** `trim()` gives the empty string iff every character is whitespace. */
  lemma TrimEmpty(s: string)
    ensures Trim(s) == [] <==> forall i :: 0 <= i < |s| ==> IsSpace(s[i])
  {
  }

  /** Index of the first `\s` character, or -1. */
  function IndexOfSpace(s: string): (k: int)
    ensures -1 <= k < |s|
    ensures k >= 0 ==> IsSpace(s[k]) && forall j :: 0 <= j < k ==> !IsSpace(s[j])
    ensures k == -1 ==> NoSpace(s)
  {
    if s == [] then -1
    else if IsSpace(s[0]) then 0
    else var k := IndexOfSpace(s[1..]); if k < 0 then -1 else k + 1
  }

  /** `s.split(/\s+/)`: the pieces between maximal runs of whitespace. */
  function SplitOnSpaces(s: string): (r: seq<string>)
    ensures |r| >= 1
    ensures forall i :: 0 <= i < |r| ==> NoSpace(r[i])
    decreases |s|
  {
    var k := IndexOfSpace(s);
    if k < 0 then [s]
    else
      var rest := SplitOnSpaces(TrimStart(s[k..]));
      assert NoSpace(s[..k]);
      [s[..k]] + rest
  }

  /** A string without whitespace splits into itself alone. */
  lemma SplitOnSpacesNoSpace(s: string)
    requires NoSpace(s)
    ensures SplitOnSpaces(s) == [s]
  {
  }

  /** `s.replace(/\s+/g, ' ')`: every maximal run of whitespace becomes one space. */
  function CollapseSpaces(s: string): (r: string)
    decreases |s|
  {
    if s == [] then []
    else if IsSpace(s[0]) then " " + CollapseSpaces(TrimStart(s))
    else [s[0]] + CollapseSpaces(s[1..])
  }

  // ------------------------------------------------------------ global replace of literal alternatives

  /** `\b` at position `i`: exactly one of the characters on either side is a word character. */
  predicate WordBoundary(s: string, i: nat)
    requires i <= |s|
  {
    (i > 0 && IsWordChar(s[i - 1])) != (i < |s| && IsWordChar(s[i]))
  }

  /** Alternative `a` matches at `p`, followed by `\b` when the expression is `\b(...)\b`. */
  predicate AltMatches(s: string, a: string, p: nat, bounded: bool) {
    OccursAt(s, a, p) && (!bounded || WordBoundary(s, p + |a|))
  }

  /** The index of the first alternative that matches at `p`, or `|alts|`: the order in
      which the regular expression engine tries them. */
  function FirstAlt(s: string, alts: seq<string>, p: nat, bounded: bool): (k: nat)
    ensures k <= |alts|
    ensures k < |alts| ==> AltMatches(s, alts[k], p, bounded)
    ensures forall j :: 0 <= j < k ==> !AltMatches(s, alts[j], p, bounded)
    ensures k == |alts| ==> forall j :: 0 <= j < |alts| ==> !AltMatches(s, alts[j], p, bounded)
  {
    if alts == [] then 0
    else if AltMatches(s, alts[0], p, bounded) then 0
    else 1 + FirstAlt(s, alts[1..], p, bounded)
  }

  /** An alternative whose first character differs from the one at `p` does not match there. */
  lemma NoOccurrence(s: string, a: string, p: nat)
    requires p < |s| && a != [] && s[p] != a[0]
    ensures !OccursAt(s, a, p)
  {
  }

  predicate NonEmptyAlts(alts: seq<string>) { forall j :: 0 <= j < |alts| ==> alts[j] != "" }

  /** The output of `s.replace(/(a0|a1|...)/g, '')` (with `\b` on both sides when
      `bounded`) from position `p` on: at each position the leftmost matching alternative
      is deleted and the scan resumes after it; the tests read the original string. */
  function RemoveFrom(s: string, alts: seq<string>, bounded: bool, p: nat): (r: string)
    requires NonEmptyAlts(alts)
    requires p <= |s|
    ensures |r| <= |s| - p
    ensures forall i :: 0 <= i < |r| ==> r[i] in s[p..]
    decreases |s| - p
  {
    if p == |s| then []
    else
      var k := FirstAlt(s, alts, p, bounded);
      if (!bounded || WordBoundary(s, p)) && k < |alts| then
        RemoveFrom(s, alts, bounded, p + |alts[k]|)
      else
        var rest := RemoveFrom(s, alts, bounded, p + 1);
        assert forall i :: 0 <= i < |rest| ==> rest[i] in s[p..] by {
          forall i | 0 <= i < |rest| ensures rest[i] in s[p..] {
            var j :| 0 <= j < |s[p + 1..]| && s[p + 1..][j] == rest[i];
            assert s[p..][j + 1] == rest[i];
          }
        }
        [s[p]] + rest
  }

  function RemoveAll(s: string, alts: seq<string>, bounded: bool): (r: string)
    requires NonEmptyAlts(alts)
    ensures |r| <= |s|
    ensures forall i :: 0 <= i < |r| ==> r[i] in s
  {
    assert s[0..] == s;
    RemoveFrom(s, alts, bounded, 0)
  }

  /** Where no alternative occurs, nothing is removed. */
  lemma {:induction false} RemoveFromNothing(s: string, alts: seq<string>, bounded: bool, p: nat)
    requires NonEmptyAlts(alts)
    requires p <= |s|
    requires forall j, i :: 0 <= j < |alts| && p <= i <= |s| ==> !OccursAt(s, alts[j], i)
    ensures RemoveFrom(s, alts, bounded, p) == s[p..]
    decreases |s| - p
  {
    if p < |s| {
      RemoveFromNothing(s, alts, bounded, p + 1);
      assert s[p..] == [s[p]] + s[p + 1..];
    }
  }

  function DigitChar(d: nat): char
    requires d < 10
  {
    "0123456789"[d]
  }

  /** The decimal form of a natural number, as a template literal renders it. */
  function NatToString(n: nat): (r: string)
    ensures |r| >= 1
    ensures forall i :: 0 <= i < |r| ==> IsDigit(r[i])
  {
    if n < 10 then [DigitChar(n)] else NatToString(n / 10) + [DigitChar(n % 10)]
  }

  /** The decimal form of an integer, with a leading '-' when negative. */
  function IntToString(n: int): (r: string)
    ensures |r| >= 1
  {
    if n < 0 then "-" + NatToString(-n) else NatToString(n)
  }
}
