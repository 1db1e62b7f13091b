/**
 * String helpers shared by the backend (Python `str.strip`, `str.lower`,
 * `int(...)`, `rsplit`) and the frontend (JavaScript `trim`, `padStart`,
 * number-to-string).
 */
module Text {
  import opened Wrappers

  /** The characters for which Python's `str.isspace` holds. */
  predicate IsPySpace(c: char) {
    ('\t' <= c <= '\r') || ('\U{1c}' <= c <= ' ') || c == '\U{85}' || c == '\U{a0}'
    || c == '\U{1680}' || ('\U{2000}' <= c <= '\U{200a}') || c == '\U{2028}' || c == '\U{2029}'
    || c == '\U{202f}' || c == '\U{205f}' || c == '\U{3000}'
  }

  /** The characters JavaScript's `String.prototype.trim` removes (WhiteSpace and LineTerminator). */
  predicate IsJsSpace(c: char) {
    ('\t' <= c <= '\r') || c == ' ' || c == '\U{a0}' || c == '\U{1680}'
    || ('\U{2000}' <= c <= '\U{200a}') || c == '\U{2028}' || c == '\U{2029}'
    || c == '\U{202f}' || c == '\U{205f}' || c == '\U{3000}' || c == '\U{feff}'
  }

  /** Which language's notion of white space a trim uses. */
  datatype SpaceKind = PythonSpace | JavaScriptSpace

  predicate IsSpace(kind: SpaceKind, c: char) {
    match kind
    case PythonSpace => IsPySpace(c)
    case JavaScriptSpace => IsJsSpace(c)
  }

  function LeadingCount(s: string, ws: SpaceKind): (n: nat)
    ensures n <= |s|
  {
    if |s| > 0 && IsSpace(ws, s[0]) then 1 + LeadingCount(s[1..], ws) else 0
  }

  function TrailingCount(s: string, ws: SpaceKind): (n: nat)
    ensures n <= |s|
  {
    if |s| > 0 && IsSpace(ws, s[|s| - 1]) then 1 + TrailingCount(s[..|s| - 1], ws) else 0
  }

  /** The leading run counted is all white space and stops before a non-space character. */
  lemma {:induction false} LeadingCountSpec(s: string, ws: SpaceKind)
    ensures forall k :: 0 <= k < LeadingCount(s, ws) ==> IsSpace(ws, s[k])
    ensures LeadingCount(s, ws) < |s| ==> !IsSpace(ws, s[LeadingCount(s, ws)])
  {
    if |s| > 0 && IsSpace(ws, s[0]) {
      LeadingCountSpec(s[1..], ws);
    }
  }

  /** The trailing run counted is all white space and stops after a non-space character. */
  lemma {:induction false} TrailingCountSpec(s: string, ws: SpaceKind)
    ensures forall k :: |s| - TrailingCount(s, ws) <= k < |s| ==> IsSpace(ws, s[k])
    ensures TrailingCount(s, ws) < |s| ==> !IsSpace(ws, s[|s| - 1 - TrailingCount(s, ws)])
  {
    if |s| > 0 && IsSpace(ws, s[|s| - 1]) {
      TrailingCountSpec(s[..|s| - 1], ws);
    }
  }

  /** Removes the leading and trailing white space of the given kind. */
  function TrimBy(s: string, ws: SpaceKind): (r: string)
    ensures |r| <= |s|
  {
    var lead := LeadingCount(s, ws);
    var rest := s[lead..];
    rest[..|rest| - TrailingCount(rest, ws)]
  }

  /**
   * The trimmed text is the part of `s` between a run of leading and a run of
   * trailing trimmed characters, and neither starts nor ends with one; it is
   * empty exactly when every character of `s` is trimmed.
   */
  lemma TrimBySpec(s: string, ws: SpaceKind)
    ensures var r := TrimBy(s, ws);
            && (r == [] <==> forall k :: 0 <= k < |s| ==> IsSpace(ws, s[k]))
            && (r != [] ==> !IsSpace(ws, r[0]) && !IsSpace(ws, r[|r| - 1]))
            && exists i ::
                 && OccursAt(s, r, i)
                 && (forall k :: 0 <= k < i ==> IsSpace(ws, s[k]))
                 && (forall k :: i + |r| <= k < |s| ==> IsSpace(ws, s[k]))
  {
    var lead := LeadingCount(s, ws);
    var rest := s[lead..];
    var r := rest[..|rest| - TrailingCount(rest, ws)];
    LeadingCountSpec(s, ws);
    TrailingCountSpec(rest, ws);
    assert OccursAt(s, r, lead);
  }

  /** A string that neither starts nor ends with a trimmed character is its own trim. */
  lemma TrimByUnchanged(s: string, ws: SpaceKind)
    requires |s| > 0 ==> !IsSpace(ws, s[0]) && !IsSpace(ws, s[|s| - 1])
    ensures TrimBy(s, ws) == s
  {
    var lead := LeadingCount(s, ws);
    assert lead == 0;
    assert TrailingCount(s, ws) == 0;
  }

  /** Python's `str.strip()` with no argument. */
  function PyStrip(s: string): string {
    TrimBy(s, PythonSpace)
  }

  /** JavaScript's `String.prototype.trim()`. */
  function JsTrim(s: string): string {
    TrimBy(s, JavaScriptSpace)
  }

  /** Lower-casing of one character, on the ASCII letters. */
  function LowerChar(c: char): char {
    if 'A' <= c <= 'Z' then (c as int + 32) as char else c
  }

  /** `str.lower()` restricted to ASCII letters; other characters are kept. */
  function Lower(s: string): (r: string)
    ensures |r| == |s|
    ensures forall i :: 0 <= i < |s| ==> r[i] == LowerChar(s[i])
  {
    if s == [] then [] else [LowerChar(s[0])] + Lower(s[1..])
  }

  /** Text without ASCII capitals is its own lower-case form. */
  lemma LowerUnchanged(s: string)
    requires forall i :: 0 <= i < |s| ==> !('A' <= s[i] <= 'Z')
    ensures Lower(s) == s
  {
  }

  /** `t` occurs in `s` starting at index `i`. */
  predicate OccursAt(s: string, t: string, i: int) {
    0 <= i <= |s| - |t| && s[i..i + |t|] == t
  }

  /** Python's `t in s` on strings (and JavaScript's `s.includes(t)`). */
  predicate Contains(s: string, t: string) {
    exists i :: 0 <= i <= |s| - |t| && OccursAt(s, t, i)
  }

  predicate IsDigit(c: char) {
    '0' <= c <= '9'
  }

  predicate AllDigits(s: string) {
    forall k :: 0 <= k < |s| ==> IsDigit(s[k])
  }

  function DigitChar(d: nat): (c: char)
    requires d < 10
    ensures IsDigit(c) && c as int - '0' as int == d
  {
    ('0' as int + d) as char
  }

  /** The decimal spelling of a natural number, as Python's `str` and JavaScript's `toString` give it. */
  function NatToString(n: nat): (r: string)
    ensures |r| > 0 && AllDigits(r)
    ensures |r| > 1 ==> r[0] != '0'
    decreases n
  {
    if n < 10 then [DigitChar(n)] else NatToString(n / 10) + [DigitChar(n % 10)]
  }

  function DigitsValue(s: string): nat
    requires AllDigits(s)
  {
    if s == [] then 0 else 10 * DigitsValue(s[..|s| - 1]) + (s[|s| - 1] as int - '0' as int)
  }

  /** A non-empty run of decimal digits, read as a number (leading zeros allowed). */
  function ParseNat(s: string): (r: Option<nat>)
    ensures r.Some? <==> |s| > 0 && AllDigits(s)
  {
    if |s| > 0 && AllDigits(s) then Some(DigitsValue(s)) else None
  }

  /** Reading back the decimal spelling of `n` gives `n`. */
  lemma {:induction false} ParseNatToString(n: nat)
    ensures ParseNat(NatToString(n)) == Some(n)
    decreases n
  {
    if n >= 10 {
      ParseNatToString(n / 10);
      var s := NatToString(n);
      var p := NatToString(n / 10);
      assert s[..|s| - 1] == p;
      assert DigitsValue(s) == 10 * DigitsValue(p) + n % 10;
    }
  }

  /** Digits in groups separated by single underscores, as in `1_000`: no underscore first, last or doubled. */
  predicate UnderscoredDigits(s: string) {
    && |s| > 0 && IsDigit(s[0]) && IsDigit(s[|s| - 1])
    && (forall k :: 0 <= k < |s| ==> IsDigit(s[k]) || s[k] == '_')
    && (forall k :: 0 <= k < |s| && s[k] == '_' ==> 0 < k < |s| - 1 && IsDigit(s[k - 1]))
  }

  /** The digits of a text, without its underscores. */
  function DropUnderscores(s: string): (r: string)
    ensures (forall k :: 0 <= k < |s| ==> IsDigit(s[k]) || s[k] == '_') ==> AllDigits(r)
    ensures AllDigits(s) ==> r == s
  {
    if s == [] then []
    else (if s[0] == '_' then [] else [s[0]]) + DropUnderscores(s[1..])
  }

  /** The digits of `int()`: underscore-grouped digits read as the number they spell once the underscores go. */
  function ParseGroupedNat(s: string): (r: Option<nat>)
    ensures r.Some? <==> UnderscoredDigits(s)
    ensures |s| > 0 && AllDigits(s) ==> r == ParseNat(s)
  {
    if UnderscoredDigits(s) then Some(DigitsValue(DropUnderscores(s))) else None
  }

  /** Grouping underscores are skipped; a doubled or trailing one is refused. */
  lemma GroupedNatExamples(grouped: string, doubled: string, trailing: string)
    requires grouped == "1_0" && doubled == "1__0" && trailing == "1_"
    ensures ParseGroupedNat(grouped) == Some(10)
    ensures ParseGroupedNat(doubled).None? && ParseGroupedNat(trailing).None?
  {
    assert DropUnderscores(grouped) == "10" by {
      assert grouped[1..] == "_0" && grouped[1..][1..] == "0";
    }
    assert DigitsValue("10") == 10 by {
      assert "10"[..1] == "1" && "1"[..0] == [];
    }
    assert doubled[2] == '_' && !IsDigit(doubled[2 - 1]);
    assert !IsDigit(trailing[|trailing| - 1]);
  }

  /**
   * Python's `int(text)` for base-10 text: surrounding whitespace, an optional
   * sign, then digits that may be grouped by single underscores.
   */
  function ParsePyInt(s: string): (r: Option<int>)
    ensures r.Some? ==> |PyStrip(s)| > 0
  {
    var t := PyStrip(s);
    if |t| > 0 && (t[0] == '+' || t[0] == '-') then
      match ParseGroupedNat(t[1..])
      case None => None
      case Some(n) => Some(if t[0] == '-' then -(n as int) else n as int)
    else
      match ParseGroupedNat(t)
      case None => None
      case Some(n) => Some(n)
  }

  /** `int(str(n)) == n` for every natural number. */
  lemma ParsePyIntOfNat(n: nat)
    ensures ParsePyInt(NatToString(n)) == Some(n)
  {
    var s := NatToString(n);
    TrimByUnchanged(s, PythonSpace);
    ParseNatToString(n);
  }

  /** `int("-" + str(n)) == -n`: a leading minus sign negates. */
  lemma ParsePyIntNegative(n: nat)
    ensures ParsePyInt("-" + NatToString(n)) == Some(-(n as int))
  {
    var digits := NatToString(n);
    SignedDigitsUnstripped('-', digits);
    assert ("-" + digits)[1..] == digits;
    ParseNatToString(n);
  }

  /** A sign followed by digits has no surrounding whitespace to strip. */
  lemma SignedDigitsUnstripped(sign: char, digits: string)
    requires sign == '-' || sign == '+'
    requires |digits| > 0 && AllDigits(digits)
    ensures PyStrip([sign] + digits) == [sign] + digits
  {
    var s := [sign] + digits;
    assert s[|s| - 1] == digits[|digits| - 1];
    TrimByUnchanged(s, PythonSpace);
  }

  /** Position of the last occurrence of `c` in `s`, as `rsplit(c, 1)` uses it. */
  function LastIndexOf(s: string, c: char): (r: Option<nat>)
    ensures r.None? <==> c !in s
    ensures r.Some? ==> r.value < |s| && s[r.value] == c && c !in s[r.value + 1..]
  {
    if |s| == 0 then None
    else if s[|s| - 1] == c then Some(|s| - 1)
    else
      var r := LastIndexOf(s[..|s| - 1], c);
      assert s == s[..|s| - 1] + [s[|s| - 1]];
      if r.Some? then
        assert s[r.value + 1..] == s[..|s| - 1][r.value + 1..] + [s[|s| - 1]];
        r
      else r
  }

  /** JavaScript's `s.padStart(width, fill)` for a one-character fill: never truncates. */
  function PadStart(s: string, width: nat, fill: char): (r: string)
    ensures |r| == if |s| >= width then |s| else width
    ensures r[|r| - |s|..] == s
    ensures forall k :: 0 <= k < |r| - |s| ==> r[k] == fill
  {
    if |s| >= width then s else seq(width - |s|, _ => fill) + s
  }
}
