/** The JavaScript string operations the generator relies on: `||` on strings,
    a number in a template literal, `parseInt` on a string of digits,
    `String.prototype.replace` with a string pattern, and the regular-expression
    class `\s`. */
module JsText {
  import opened Types

  /** `s || fallback`: the empty string is falsy. */
  function Or(s: string, fallback: string): (r: string)
    ensures s != "" ==> r == s
    ensures s == "" ==> r == fallback
    ensures fallback != "" ==> r != ""
  {
    if s != "" then s else fallback
  }

  /** An optional or nullable string is truthy when present and non-empty. */
  predicate Truthy(o: Option<string>): (b: bool)
    ensures o.None? ==> !b
    ensures o == Some("") ==> !b
    ensures b ==> o.value != ""
  {
    o.Some? && o.value != ""
  }

  /** `o || fallback` for an optional or nullable string. */
  function OrOpt(o: Option<string>, fallback: string): (r: string)
    ensures Truthy(o) ==> r == o.value
    ensures !Truthy(o) ==> r == fallback
    ensures fallback != "" ==> r != ""
  {
    if Truthy(o) then o.value else fallback
  }

  /** `{o}` in JSX: an absent value renders as nothing. */
  function Shown(o: Option<string>): (r: string)
    ensures o.Some? ==> r == o.value
    ensures r == "" <==> !Truthy(o)
  {
    if o.Some? then o.value else ""
  }

  // ---- Decimal numerals -------------------------------------------------

  /** `\d`: an ASCII decimal digit. */
  predicate IsDigit(c: char)
  {
    '0' <= c <= '9'
  }

  predicate AllDigits(s: string)
  {
    forall i :: 0 <= i < |s| ==> IsDigit(s[i])
  }

  /** `/^\d{4}$/.test(s)`: exactly four ASCII digits and nothing else; such a
      string parses to a year below 10000. */
  predicate IsFourDigits(s: string): (b: bool)
    ensures b ==> AllDigits(s) && ParseDigits(s) < 10000
  {
    |s| == 4 && AllDigits(s)
  }

  function DigitChar(d: nat): (c: char)
    requires d < 10
    ensures IsDigit(c)
  {
    ('0' as int + d) as char
  }

  function DigitValue(c: char): (d: nat)
    requires IsDigit(c)
    ensures d < 10 && DigitChar(d) == c
  {
    c as int - '0' as int
  }

  /** `${n}`: the decimal numeral of a natural number, without leading zeros. */
  function DecimalString(n: nat): (s: string)
    ensures |s| > 0 && AllDigits(s)
    ensures s[0] == '0' ==> n == 0 && s == "0"
    decreases n
  {
    if n < 10 then [DigitChar(n)] else DecimalString(n / 10) + [DigitChar(n % 10)]
  }

  /** Ten to the power `k`. */
  function Pow10(k: nat): (p: nat)
    ensures p >= 1
  {
    if k == 0 then 1 else 10 * Pow10(k - 1)
  }

  /** `parseInt(s)` for a string made only of decimal digits: a string of `k`
      digits denotes a number below ten to the `k`. The empty string, which
      `parseInt` reads as NaN, gives 0 here; the code only parses four-digit
      cohorts and printed numerals, which are never empty. */
  function ParseDigits(s: string): (n: nat)
    requires AllDigits(s)
    ensures n < Pow10(|s|)
    decreases |s|
  {
    if s == [] then 0
    else
      var m := ParseDigits(s[..|s| - 1]);
      var d := DigitValue(s[|s| - 1]);
      assert m * 10 + d < Pow10(|s|) by {
        assert m + 1 <= Pow10(|s| - 1);
        assert (m + 1) * 10 <= Pow10(|s| - 1) * 10;
      }
      m * 10 + d
  }

  /** Four digits parse place by place: thousands, hundreds, tens and units. */
  lemma ParseFourDigits(s: string)
    requires IsFourDigits(s)
    ensures ParseDigits(s) ==
      1000 * DigitValue(s[0]) + 100 * DigitValue(s[1]) + 10 * DigitValue(s[2]) + DigitValue(s[3])
  {
    var p3, p2, p1 := s[..3], s[..2], s[..1];
    assert p3[..2] == p2 && p2[..1] == p1 && p1[..0] == [];
    assert p3[2] == s[2] && p2[1] == s[1] && p1[0] == s[0];
    assert ParseDigits(p1) == DigitValue(s[0]);
    assert ParseDigits(p2) == 10 * DigitValue(s[0]) + DigitValue(s[1]);
    assert ParseDigits(p3) == 100 * DigitValue(s[0]) + 10 * DigitValue(s[1]) + DigitValue(s[2]);
  }

  /** Parsing a numeral gives back the number it was printed from. */
  lemma {:induction false} ParseDecimalString(n: nat)
    ensures ParseDigits(DecimalString(n)) == n
    decreases n
  {
    var s := DecimalString(n);
    if n < 10 {
      assert s[..|s| - 1] == [];
    } else {
      assert s[..|s| - 1] == DecimalString(n / 10);
      ParseDecimalString(n / 10);
    }
  }

  /** The numbers from 1000 to 9999 are exactly those printed with four digits. */
  lemma DecimalStringFourDigits(n: nat)
    ensures IsFourDigits(DecimalString(n)) <==> 1000 <= n <= 9999
  {
    DecimalStringLength(n);
  }

  lemma {:induction false} DecimalStringLength(n: nat)
    ensures n < 10 ==> |DecimalString(n)| == 1
    ensures 10 <= n < 100 ==> |DecimalString(n)| == 2
    ensures 100 <= n < 1000 ==> |DecimalString(n)| == 3
    ensures 1000 <= n < 10000 ==> |DecimalString(n)| == 4
    ensures 10000 <= n ==> |DecimalString(n)| > 4
    decreases n
  {
    if n >= 10 {
      DecimalStringLength(n / 10);
    }
  }

  // ---- String.prototype.replace with a string pattern -------------------

  /** `pat` occurs in `s` starting at index `i`. */
  predicate OccursAt(s: string, pat: string, i: nat)
  {
    i + |pat| <= |s| && s[i..i + |pat|] == pat
  }

  /** The first index at or after `from` where `pat` occurs, if any. */
  function IndexFrom(s: string, pat: string, from: nat): (r: Option<nat>)
    requires from <= |s|
    ensures r.Some? ==> from <= r.value && OccursAt(s, pat, r.value)
    ensures r.Some? ==> forall j :: from <= j < r.value ==> !OccursAt(s, pat, j)
    ensures r.None? ==> forall j :: from <= j <= |s| ==> !OccursAt(s, pat, j)
    decreases |s| - from
  {
    if OccursAt(s, pat, from) then Some(from)
    else if from == |s| then None
    else IndexFrom(s, pat, from + 1)
  }

  /** `s.indexOf(pat)`, as an option. */
  function IndexOf(s: string, pat: string): (r: Option<nat>)
    ensures r.Some? ==> OccursAt(s, pat, r.value)
    ensures r.Some? ==> forall j :: 0 <= j < r.value ==> !OccursAt(s, pat, j)
    ensures r.None? ==> forall j :: 0 <= j <= |s| ==> !OccursAt(s, pat, j)
  {
    IndexFrom(s, pat, 0)
  }

  /** `s.replace(pat, rep)` with a string pattern and a replacement that has no
      `$` patterns (`$&`, `$$`, `$1`, ...), which the model copies literally:
      only the first occurrence is replaced. */
  function ReplaceFirst(s: string, pat: string, rep: string): (r: string)
    ensures IndexOf(s, pat).None? ==> r == s
    ensures IndexOf(s, pat).Some? ==> |r| == |s| - |pat| + |rep|
    ensures IndexOf(s, pat).Some? ==> r[..IndexOf(s, pat).value] == s[..IndexOf(s, pat).value]
  {
    match IndexOf(s, pat)
    case None => s
    case Some(i) => s[..i] + rep + s[i + |pat|..]
  }

  /** A string in which `pat` does not occur is left as it is. */
  lemma ReplaceFirstAbsent(s: string, pat: string, rep: string)
    requires forall j :: 0 <= j <= |s| ==> !OccursAt(s, pat, j)
    ensures ReplaceFirst(s, pat, rep) == s
  {
  }

  /** A string that starts with `pat` has exactly that prefix replaced. */
  lemma ReplaceFirstAtStart(s: string, pat: string, rep: string)
    requires OccursAt(s, pat, 0)
    ensures ReplaceFirst(s, pat, rep) == rep + s[|pat|..]
  {
    assert IndexOf(s, pat) == Some(0);
  }

  // ---- The regular-expression class \s ----------------------------------

  /** `\s`: the ECMAScript WhiteSpace and LineTerminator code points (tab,
      line feed, vertical tab, form feed, carriage return, space, no-break
      space, ogham space mark, U+2000 to U+200A, line and paragraph separator,
      narrow no-break space, medium mathematical space, ideographic space and
      the byte order mark). */
  predicate IsWhitespace(c: char): (b: bool)
    ensures c == ' ' || c == '\t' || c == '\n' || c == '\r' ==> b
    ensures b ==> c != '_' && !IsDigit(c)
  {
    IsAsciiSpace(c) || IsUnicodeSpace(c)
  }

  /** Tab, line feed, vertical tab, form feed, carriage return and space. */
  predicate IsAsciiSpace(c: char)
  {
    (9 <= c as int <= 13) || c == ' '
  }

  /** The white space and line terminators above U+007F. */
  predicate IsUnicodeSpace(c: char)
  {
    var n := c as int;
    n == 0xA0 || n == 0x1680 || (0x2000 <= n <= 0x200A) || n == 0x2028 || n == 0x2029
    || n == 0x202F || n == 0x205F || n == 0x3000 || n == 0xFEFF
  }
}
