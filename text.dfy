/**
 * The Python `str` operations the toolkit relies on, with Python's semantics written out:
 * prefix and substring tests, left-to-right non-overlapping `replace`, `split(' ')[0]`,
 * ASCII case mapping, whitespace stripping and the decimal conversions `int(str)`,
 * `float(str)` and `str(int)`.
 */
module Text {
  import opened Wrappers

  predicate StartsWith(s: string, prefix: string)
  {
    |prefix| <= |s| && s[..|prefix|] == prefix
  }

  /** Python's `s[n:]`, which is empty when `n` is past the end. */
  function Drop(s: string, n: nat): (r: string)
    ensures n <= |s| ==> r == s[n..]
    ensures n > |s| ==> r == []
  {
    if n <= |s| then s[n..] else []
  }

  /** On two-character strings `lower()` acts character by character. */
  lemma LowerPair(s: string)
    requires |s| == 2
    ensures Lower(s) == [LowerChar(s[0]), LowerChar(s[1])]
  {
  }

  /** Python's `sub in s`. */
  predicate Contains(s: string, sub: string)
    decreases |s|
  {
    StartsWith(s, sub) || (|s| > 0 && Contains(s[1..], sub))
  }

  lemma ContainsChar(s: string, c: char)
    ensures Contains(s, [c]) <==> c in s
    decreases |s|
  {
    if |s| > 0 {
      ContainsChar(s[1..], c);
      assert s == [s[0]] + s[1..];
    }
  }

  /** Python's `s.replace(old, new)`: scans left to right and replaces non-overlapping occurrences. */
  function Replace(s: string, pat: string, rep: string): string
    decreases |s|
  {
    if pat == [] then
      if s == [] then rep else rep + [s[0]] + Replace(s[1..], pat, rep)
    else if StartsWith(s, pat) then rep + Replace(s[|pat|..], pat, rep)
    else if s == [] then []
    else [s[0]] + Replace(s[1..], pat, rep)
  }

  lemma {:induction false} ReplaceAbsent(s: string, pat: string, rep: string)
    requires pat != [] && !Contains(s, pat)
    ensures Replace(s, pat, rep) == s
    decreases |s|
  {
    if s != [] {
      ReplaceAbsent(s[1..], pat, rep);
      assert s == [s[0]] + s[1..];
    }
  }

  /** A string containing `t` is at least as long and contains every character of `t`. */
  lemma {:induction false} ContainsParts(s: string, t: string)
    ensures Contains(s, t) ==> |t| <= |s| && forall k :: 0 <= k < |t| ==> t[k] in s
    decreases |s|
  {
    if Contains(s, t) {
      if StartsWith(s, t) {
        forall k | 0 <= k < |t|
          ensures t[k] in s
        {
          assert s[k] == t[k];
        }
      } else {
        ContainsParts(s[1..], t);
        forall k | 0 <= k < |t|
          ensures t[k] in s
        {
          assert t[k] in s[1..];
        }
      }
    }
  }

  /** Replacing the whole string gives the replacement. */
  lemma ReplaceWhole(s: string, rep: string)
    requires s != []
    ensures Replace(s, s, rep) == rep
  {
    assert StartsWith(s, s);
    assert s[|s|..] == [];
    assert Replace([], s, rep) == [];
  }

  /** `s.replace('  ', ' ')`: every non-overlapping double space, left to right, becomes one space. */
  function CollapseDoubleSpaces(s: string): string
  {
    Replace(s, "  ", " ")
  }

  /** Collapsing double spaces keeps the text before the first space, and whether there is a space at all. */
  lemma {:induction false} CollapseKeepsFirstToken(s: string)
    ensures BeforeFirst(CollapseDoubleSpaces(s), ' ') == BeforeFirst(s, ' ')
    ensures ' ' in CollapseDoubleSpaces(s) <==> ' ' in s
    decreases |s|
  {
    var c := CollapseDoubleSpaces(s);
    if StartsWith(s, "  ") {
      assert c == " " + Replace(s[2..], "  ", " ");
      assert s[0] == ' ' && c[0] == ' ';
    } else if s != [] {
      CollapseKeepsFirstToken(s[1..]);
      assert c == [s[0]] + CollapseDoubleSpaces(s[1..]);
      assert s == [s[0]] + s[1..];
    }
  }

  /** Python's `s.split(sep)[0]` for a one-character separator: everything before the first `sep`. */
  function BeforeFirst(s: string, sep: char): (r: string)
    ensures StartsWith(s, r)
    ensures sep !in r
    ensures r == s <==> sep !in s
    decreases |s|
  {
    if s == [] then []
    else if s[0] == sep then []
    else [s[0]] + BeforeFirst(s[1..], sep)
  }

  function LowerChar(c: char): char
  {
    if 'A' <= c <= 'Z' then (c as int + 32) as char else c
  }

  function UpperChar(c: char): char
  {
    if 'a' <= c <= 'z' then (c as int - 32) as char else c
  }

  /** `str.lower()` on the ASCII range; other characters are kept. */
  function Lower(s: string): (r: string)
    ensures |r| == |s| && forall i :: 0 <= i < |s| ==> r[i] == LowerChar(s[i])
  {
    seq(|s|, i requires 0 <= i < |s| => LowerChar(s[i]))
  }

  /** `str.upper()` on the ASCII range; other characters are kept. */
  function Upper(s: string): (r: string)
    ensures |r| == |s| && forall i :: 0 <= i < |s| ==> r[i] == UpperChar(s[i])
  {
    seq(|s|, i requires 0 <= i < |s| => UpperChar(s[i]))
  }

  predicate IsAsciiLetter(c: char)
  {
    'a' <= c <= 'z' || 'A' <= c <= 'Z'
  }

  /**
   * `str.title()` on the ASCII range: a letter becomes upper case when the character before it
   * is not a letter, lower case otherwise.
   */
  function Title(s: string): (r: string)
    ensures |r| == |s|
  {
    TitleFrom(s, false)
  }

  function TitleFrom(s: string, afterLetter: bool): (r: string)
    ensures |r| == |s|
    ensures |s| > 0 && IsAsciiLetter(s[0]) ==> r[0] == if afterLetter then LowerChar(s[0]) else UpperChar(s[0])
    decreases |s|
  {
    if s == [] then []
    else
      var c := if IsAsciiLetter(s[0]) then (if afterLetter then LowerChar(s[0]) else UpperChar(s[0])) else s[0];
      [c] + TitleFrom(s[1..], IsAsciiLetter(s[0]))
  }

  /** The characters for which Python's `str.isspace()` holds, which is also what the regex class `\s` matches. */
  predicate IsSpace(c: char)
  {
    c == ' ' || ('\t' <= c <= '\r') || ('\U{1C}' <= c <= '\U{1F}') || c == '\U{85}' || c == '\U{A0}'
    || c == '\U{1680}' || ('\U{2000}' <= c <= '\U{200A}') || c == '\U{2028}' || c == '\U{2029}'
    || c == '\U{202F}' || c == '\U{205F}' || c == '\U{3000}'
  }

  function StripLeft(s: string): (r: string)
    ensures |r| <= |s| && r == s[|s| - |r|..]
    ensures r == [] || !IsSpace(r[0])
    decreases |s|
  {
    if s != [] && IsSpace(s[0]) then StripLeft(s[1..]) else s
  }

  function StripRight(s: string): (r: string)
    ensures |r| <= |s| && r == s[..|r|]
    ensures r == [] || !IsSpace(r[|r| - 1])
    decreases |s|
  {
    if s != [] && IsSpace(s[|s| - 1]) then StripRight(s[..|s| - 1]) else s
  }

  /** Python's `s.strip()` without arguments. */
  function Strip(s: string): (r: string)
    ensures r == [] || (!IsSpace(r[0]) && !IsSpace(r[|r| - 1]))
  {
    StripRight(StripLeft(s))
  }

  predicate IsDigit(c: char)
  {
    '0' <= c <= '9'
  }

  predicate AllDigits(s: string)
  {
    forall i :: 0 <= i < |s| ==> IsDigit(s[i])
  }

  function DigitValue(c: char): nat
    requires IsDigit(c)
  {
    c as int - '0' as int
  }

  /** The value of a string of decimal digits, most significant first. */
  function DigitsValue(s: string): nat
    requires AllDigits(s)
    decreases |s|
  {
    if s == [] then 0 else DigitsValue(s[..|s| - 1]) * 10 + DigitValue(s[|s| - 1])
  }

  /** Python's `str(n)` for a natural number. */
  function NatToString(n: nat): (r: string)
    ensures |r| > 0 && AllDigits(r)
    ensures n > 0 ==> r[0] != '0'
    decreases n
  {
    if n < 10 then [('0' as int + n) as char]
    else NatToString(n / 10) + [('0' as int + n % 10) as char]
  }

  /** Python's `str(i)` for an integer. */
  function IntToString(i: int): string
  {
    if i < 0 then "-" + NatToString(-i) else NatToString(i)
  }

  lemma {:induction false} NatToStringRoundTrip(n: nat)
    ensures DigitsValue(NatToString(n)) == n
    decreases n
  {
    if n >= 10 {
      var prefix := NatToString(n / 10);
      var s := prefix + [('0' as int + n % 10) as char];
      assert s[..|s| - 1] == prefix;
      NatToStringRoundTrip(n / 10);
    }
  }

  /** Splits an optional leading sign off a number's text: the sign factor and the rest. */
  function SplitSign(s: string): (int, string)
  {
    if s != [] && s[0] == '-' then (-1, s[1..])
    else if s != [] && s[0] == '+' then (1, s[1..])
    else (1, s)
  }

  /**
   * Python's `int(s)` for a string: surrounding whitespace, an optional sign and at least one
   * decimal digit; anything else raises ValueError.
   */
  function ParseInt(s: string): (r: Result<int>)
    ensures r.Ok? <==> (var (_, d) := SplitSign(Strip(s)); d != [] && AllDigits(d))
  {
    var (sign, digits) := SplitSign(Strip(s));
    if digits != [] && AllDigits(digits) then Ok(sign * DigitsValue(digits)) else Err(ValueError)
  }

  lemma ParseIntOfString(i: int)
    ensures ParseInt(IntToString(i)) == Ok(i)
  {
    var n: nat := if i < 0 then -i else i;
    var digits := NatToString(n);
    var s := (if i < 0 then "-" else "") + digits;
    StripOfDigits(n, i < 0);
    SplitSignOfDigits(digits, i < 0);
    NatToStringRoundTrip(n);
    if i < 0 {
      assert IntToString(i) == s;
      assert SplitSign(Strip(s)) == (-1, digits);
      assert ParseInt(s) == Ok(-1 * n);
    } else {
      assert IntToString(i) == digits == s;
      assert SplitSign(Strip(s)) == (1, digits);
      assert ParseInt(s) == Ok(1 * n);
    }
  }

  /** `strip` leaves a string alone that neither starts nor ends with whitespace. */
  lemma StripUnchanged(s: string)
    requires s == [] || (!IsSpace(s[0]) && !IsSpace(s[|s| - 1]))
    ensures Strip(s) == s
  {
    assert StripLeft(s) == s;
    assert StripRight(s) == s;
  }

  lemma StripOfDigits(n: nat, negative: bool)
    ensures var s := (if negative then "-" else "") + NatToString(n); Strip(s) == s
  {
    var d := NatToString(n);
    var s := (if negative then "-" else "") + d;
    assert IsDigit(d[0]) && IsDigit(d[|d| - 1]);
    if negative {
      assert s[0] == '-' && s[|s| - 1] == d[|d| - 1];
    } else {
      assert s == d;
    }
    StripUnchanged(s);
  }

  lemma SplitSignOfDigits(digits: string, negative: bool)
    requires digits != [] && AllDigits(digits)
    ensures SplitSign((if negative then "-" else "") + digits) == (if negative then -1 else 1, digits)
  {
    var s := (if negative then "-" else "") + digits;
    if negative {
      assert s[1..] == digits;
    } else {
      assert s == digits;
      assert IsDigit(s[0]);
    }
  }

  /** The index of the first `c` in `s`, or |s| when there is none. */
  function IndexOf(s: string, c: char): (r: nat)
    ensures r <= |s| && c !in s[..r]
    ensures r < |s| ==> s[r] == c
    decreases |s|
  {
    if s == [] then 0 else if s[0] == c then 0 else 1 + IndexOf(s[1..], c)
  }

  function Pow10(k: nat): (r: nat)
    ensures r > 0
  {
    if k == 0 then 1 else 10 * Pow10(k - 1)
  }

  /**
   * Python's `float(s)` on plain decimal text: surrounding whitespace, an optional sign, and
   * digits with at most one '.', at least one digit in all; anything else raises ValueError.
   */
  function ParseReal(s: string): (r: Result<real>)
    ensures r.Ok? ==> (var (_, d) := SplitSign(Strip(s)); d != [])
  {
    var (sign, body) := SplitSign(Strip(s));
    var dot := IndexOf(body, '.');
    var whole := body[..dot];
    var frac := if dot < |body| then body[dot + 1..] else [];
    if AllDigits(whole) && AllDigits(frac) && |whole| + |frac| > 0 then
      Ok(if sign < 0 then -DecimalValue(whole, frac) else DecimalValue(whole, frac))
    else Err(ValueError)
  }

  /** The value of the digits around a decimal point. */
  function DecimalValue(whole: string, frac: string): real
    requires AllDigits(whole) && AllDigits(frac)
  {
    DigitsValue(whole) as real + DigitsValue(frac) as real / Pow10(|frac|) as real
  }

  /** `float` reads a plain string of digits as their value. */
  lemma ParseRealOfDigits(s: string)
    requires s != [] && AllDigits(s)
    ensures ParseReal(s) == Ok(DigitsValue(s) as real)
  {
    assert IsDigit(s[0]) && IsDigit(s[|s| - 1]);
    StripUnchanged(s);
    assert SplitSign(s) == (1, s);
    assert IndexOf(s, '.') == |s|;
    ParseRealWhole(s);
  }

  /** `float` on unsigned, stripped text without a '.': the value of its digits. */
  lemma ParseRealWhole(s: string)
    requires s != [] && AllDigits(s) && Strip(s) == s && SplitSign(s) == (1, s) && IndexOf(s, '.') == |s|
    ensures ParseReal(s) == Ok(DigitsValue(s) as real)
  {
    assert s[..|s|] == s;
    assert ParseReal(s) == Ok(DecimalValue(s, []));
    PlainValue(s);
  }

  /** Digits without a fraction are worth their value. */
  lemma PlainValue(s: string)
    requires AllDigits(s)
    ensures DecimalValue(s, []) == DigitsValue(s) as real
  {
    assert DigitsValue([]) == 0 && Pow10(0) == 1;
  }

  /** `float` reads the digits `str` writes for a natural number. */
  lemma ParseRealOfNat(n: nat)
    ensures ParseReal(NatToString(n)) == Ok(n as real)
  {
    var s := NatToString(n);
    ParseRealOfDigits(s);
    NatToStringRoundTrip(n);
    assert DigitsValue(s) as real == n as real;
  }

  /** Python's `int(x)` for a float: truncation toward zero. */
  function Trunc(x: real): (r: int)
    ensures x >= 0.0 ==> r == x.Floor
    ensures x < 0.0 ==> r == -((-x).Floor)
    ensures (r as real) <= x < (r as real) + 1.0 || (r as real) - 1.0 < x <= (r as real)
  {
    if x >= 0.0 then x.Floor else -((-x).Floor)
  }

  /** Python's `sep.join(parts)`. */
  function Join(sep: string, parts: seq<string>): string
  {
    if parts == [] then []
    else if |parts| == 1 then parts[0]
    else parts[0] + sep + Join(sep, parts[1..])
  }
}
