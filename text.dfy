/** The pieces of Python's string handling that the bot relies on: str.lower(),
    re.sub with a literal pattern (as used by pandas' Series.replace with
    regex=True), and the int() and float() conversions of text. */
module Text {
  import opened Wrappers

  // ---------------------------------------------------------------------------
  // Characters and digits

  predicate IsDigit(c: char) { '0' <= c <= '9' }

  predicate AllDigits(s: string) { forall i :: 0 <= i < |s| ==> IsDigit(s[i]) }

  function DigitValue(c: char): nat
    requires IsDigit(c)
  {
    c as int - '0' as int
  }

  function DigitChar(n: nat): (c: char)
    requires n < 10
    ensures IsDigit(c) && DigitValue(c) == n
  {
    (n + '0' as int) as char
  }

  /** The value of a string of decimal digits, most significant digit first. */
  function DigitsValue(s: string): nat
    requires AllDigits(s)
    decreases |s|
  {
    if s == [] then 0 else DigitsValue(s[..|s| - 1]) * 10 + DigitValue(s[|s| - 1])
  }

  /** The shortest decimal spelling of n (no leading zeros, "0" for zero). */
  function NatToDigits(n: nat): (s: string)
    ensures s != [] && AllDigits(s)
    decreases n
  {
    if n < 10 then [DigitChar(n)] else NatToDigits(n / 10) + [DigitChar(n % 10)]
  }

  lemma {:induction false} DigitsRoundTrip(n: nat)
    ensures DigitsValue(NatToDigits(n)) == n
  {
    if n >= 10 {
      var s := NatToDigits(n);
      assert s[..|s| - 1] == NatToDigits(n / 10);
      DigitsRoundTrip(n / 10);
    }
  }

  /** Two-digit zero-padded spelling, as in "05". */
  function TwoDigits(n: nat): (s: string)
    requires n < 100
    ensures |s| == 2 && AllDigits(s) && DigitsValue(s) == n
  {
    var s := [DigitChar(n / 10), DigitChar(n % 10)];
    assert s[..1] == [DigitChar(n / 10)] && s[..1][..0] == [];
    assert DigitsValue(s[..1]) == n / 10;
    assert DigitsValue(s) == (n / 10) * 10 + n % 10;
    s
  }

  lemma AllDigitsConcat(a: string, b: string)
    requires AllDigits(a) && AllDigits(b)
    ensures AllDigits(a + b)
  {
    forall i | 0 <= i < |a + b| ensures IsDigit((a + b)[i]) {
      if i < |a| { assert (a + b)[i] == a[i]; } else { assert (a + b)[i] == b[i - |a|]; }
    }
  }

  /** Digits written after other digits shift them left by as many places. */
  lemma {:induction false} DigitsAppend(a: string, b: string)
    requires AllDigits(a) && AllDigits(b)
    ensures AllDigits(a + b) && DigitsValue(a + b) == DigitsValue(a) * Pow10(|b|) + DigitsValue(b)
    decreases |b|
  {
    AllDigitsConcat(a, b);
    if b == [] {
      assert a + b == a;
    } else {
      var b' := b[..|b| - 1];
      var last := DigitValue(b[|b| - 1]);
      assert (a + b)[..|a + b| - 1] == a + b';
      assert (a + b)[|a + b| - 1] == b[|b| - 1];
      DigitsAppend(a, b');
      var x, p, d := DigitsValue(a), Pow10(|b'|), DigitsValue(b');
      assert DigitsValue(a + b) == DigitsValue(a + b') * 10 + last;
      assert DigitsValue(a + b') == x * p + d;
      assert DigitsValue(b) == d * 10 + last;
      assert Pow10(|b|) == p * 10;
      MulShift(x, p);
    }
  }

  lemma MulShift(x: nat, p: nat)
    ensures x * p * 10 == x * (p * 10)
  {
  }

  function Pow10(k: nat): (r: nat)
    ensures r >= 1
  {
    if k == 0 then 1 else 10 * Pow10(k - 1)
  }

  /** Position of the first c in s, or |s| when there is none. */
  function Find(s: string, c: char): (k: nat)
    ensures k <= |s|
    ensures k < |s| ==> s[k] == c
    ensures forall j :: 0 <= j < k ==> s[j] != c
  {
    if s == [] then 0 else if s[0] == c then 0 else 1 + Find(s[1..], c)
  }

  // ---------------------------------------------------------------------------
  // Whitespace around a number

  /** The whitespace int() and float() skip around a number. Of the ASCII
      characters these are tab to carriage return and the space; the
      separators U+001C..U+001F, which str.isspace() accepts, are not among
      them. Of the others they are the characters str.isspace() accepts,
      which CPython turns into spaces first: U+0085, the no-break space
      U+00A0, U+1680, the spaces U+2000..U+200A, the line and paragraph
      separators U+2028 and U+2029, U+202F, U+205F and the ideographic space
      U+3000. */
  predicate IsSpace(c: char)
  {
    (c as int <= 32 && IsAsciiSpace(c as int)) || (0x85 <= c as int && IsWideSpace(c as int))
  }

  predicate IsAsciiSpace(n: int) { 9 <= n <= 13 || n == 32 }

  predicate IsWideSpace(n: int)
  {
    n == 0x85 || n == 0xA0 || n == 0x1680 || 0x2000 <= n <= 0x200A ||
    n == 0x2028 || n == 0x2029 || n == 0x202F || n == 0x205F || n == 0x3000
  }

  function TrimStart(s: string): (r: string)
    ensures r == [] || !IsSpace(r[0])
    ensures exists k :: 0 <= k <= |s| && r == s[k..]
  {
    if s != [] && IsSpace(s[0]) then
      var r := TrimStart(s[1..]);
      var k :| 0 <= k <= |s[1..]| && r == s[1..][k..];
      assert r == s[k + 1..];
      r
    else
      assert s == s[0..];
      s
  }

  function TrimEnd(s: string): (r: string)
    ensures r == [] || !IsSpace(r[|r| - 1])
    ensures exists k :: 0 <= k <= |s| && r == s[..k]
  {
    if s != [] && IsSpace(s[|s| - 1]) then
      var r := TrimEnd(s[..|s| - 1]);
      var k :| 0 <= k <= |s| - 1 && r == s[..|s| - 1][..k];
      assert r == s[..k];
      r
    else
      assert s == s[..|s|];
      s
  }

  /** The text without the whitespace int() and float() skip at either end. */
  function Strip(s: string): string
  {
    TrimEnd(TrimStart(s))
  }

  lemma StripNoSpace(s: string)
    requires s == [] || (!IsSpace(s[0]) && !IsSpace(s[|s| - 1]))
    ensures Strip(s) == s
  {
  }

  // ---------------------------------------------------------------------------
  // str.lower()

  /** Upper-case letters of Basic Latin and Latin-1 (U+00C0..U+00DE without
      the multiplication sign U+00D7); their lower-case forms are 32 higher. */
  predicate IsUpper(c: char)
  {
    65 <= c as int <= 90 || (192 <= c as int <= 222 && c as int != 215)
  }

  function LowerChar(c: char): char
  {
    if IsUpper(c) then (c as int + 32) as char else c
  }

  /** The other direction, defined on its own: lower-case letters of Basic
      Latin and Latin-1 (U+00E0..U+00FE without the division sign U+00F7)
      go 32 lower. */
  function UpperChar(c: char): char
  {
    if 97 <= c as int <= 122 || (224 <= c as int <= 254 && c as int != 247) then (c as int - 32) as char else c
  }

  predicate NoUpper(s: string)
  {
    forall i :: 0 <= i < |s| ==> !IsUpper(s[i])
  }

  /** The two strings differ at most in letter case. */
  predicate SameUpToCase(a: string, b: string)
  {
    |a| == |b| && forall i :: 0 <= i < |a| ==> UpperChar(a[i]) == UpperChar(b[i])
  }

  /** str.lower(): every upper-case letter is replaced by its lower-case form,
      everything else is kept. */
  function Lower(s: string): (r: string)
    ensures SameUpToCase(r, s) && NoUpper(r)
  {
    seq(|s|, i requires 0 <= i < |s| => LowerChar(s[i]))
  }

  /** Lower's contract fixes its result: the one string without upper-case
      letters that equals s up to case is Lower(s). */
  lemma LowerUnique(s: string, r: string)
    requires SameUpToCase(r, s) && NoUpper(r)
    ensures r == Lower(s)
  {
    var l := Lower(s);
    forall i | 0 <= i < |r| ensures r[i] == l[i] {
      assert UpperChar(r[i]) == UpperChar(s[i]) == UpperChar(l[i]);
    }
  }

  lemma LowerIdempotent(s: string)
    ensures Lower(Lower(s)) == Lower(s)
  {
  }

  // ---------------------------------------------------------------------------
  // re.sub(pattern, rep, s) for a literal pattern

  /** Replaces every occurrence of pat in s by rep, scanning from the left and
      never letting two occurrences overlap, as Python's re.sub does. */
  function ReplaceAll(s: string, pat: string, rep: string): string
    requires pat != []
    decreases |s|
  {
    if |s| < |pat| then s
    else if s[..|pat|] == pat then rep + ReplaceAll(s[|pat|..], pat, rep)
    else [s[0]] + ReplaceAll(s[1..], pat, rep)
  }

  /** pat occurs in s at position i. */
  predicate OccursAt(s: string, pat: string, i: int)
  {
    0 <= i && i + |pat| <= |s| && s[i..i + |pat|] == pat
  }

  predicate Contains(s: string, pat: string)
  {
    exists i :: 0 <= i <= |s| && OccursAt(s, pat, i)
  }

  /** Text in which the pattern does not occur is left alone. */
  lemma {:induction false} ReplaceAllNoMatch(s: string, pat: string, rep: string)
    requires pat != [] && !Contains(s, pat)
    ensures ReplaceAll(s, pat, rep) == s
    decreases |s|
  {
    if |s| >= |pat| {
      assert !OccursAt(s, pat, 0);
      forall i | OccursAt(s[1..], pat, i) ensures OccursAt(s, pat, i + 1) {
        assert s[1..][i..i + |pat|] == s[i + 1..i + 1 + |pat|];
      }
      ReplaceAllNoMatch(s[1..], pat, rep);
    }
  }

  /** Text that does not even contain the pattern's first character is left alone. */
  lemma {:induction false} ReplaceAllAbsent(s: string, pat: string, rep: string)
    requires pat != [] && pat[0] !in s
    ensures ReplaceAll(s, pat, rep) == s
  {
    if |s| >= |pat| {
      assert s[..|pat|][0] == s[0];
      assert s[1..] == s[1..] && pat[0] !in s[1..];
      ReplaceAllAbsent(s[1..], pat, rep);
    }
  }

  /** A leading occurrence is replaced, and the scan goes on after it. */
  lemma ReplaceAllLeading(pat: string, s: string, rep: string)
    requires pat != []
    ensures ReplaceAll(pat + s, pat, rep) == rep + ReplaceAll(s, pat, rep)
  {
    assert (pat + s)[..|pat|] == pat;
    assert (pat + s)[|pat|..] == s;
  }

  /** For a one-character pattern, replacing distributes over concatenation. */
  lemma {:induction false} ReplaceCharConcat(a: string, b: string, c: char, rep: string)
    ensures ReplaceAll(a + b, [c], rep) == ReplaceAll(a, [c], rep) + ReplaceAll(b, [c], rep)
  {
    if a == [] {
      assert a + b == b;
    } else {
      assert (a + b)[1..] == a[1..] + b;
      assert (a + b)[..1] == a[..1] == [a[0]];
      ReplaceCharConcat(a[1..], b, c, rep);
      if a[0] == c {
        assert ReplaceAll(a + b, [c], rep) == rep + ReplaceAll(a[1..] + b, [c], rep);
        assert ReplaceAll(a, [c], rep) == rep + ReplaceAll(a[1..], [c], rep);
      } else {
        assert ReplaceAll(a + b, [c], rep) == [a[0]] + ReplaceAll(a[1..] + b, [c], rep);
        assert ReplaceAll(a, [c], rep) == [a[0]] + ReplaceAll(a[1..], [c], rep);
      }
    }
  }

  /** Replacing one character by another changes exactly the positions that
      hold it. */
  lemma {:induction false} ReplaceCharAt(s: string, c: char, d: char)
    ensures |ReplaceAll(s, [c], [d])| == |s|
    ensures forall i :: 0 <= i < |s| ==>
              ReplaceAll(s, [c], [d])[i] == (if s[i] == c then d else s[i])
  {
    if s != [] {
      ReplaceCharAt(s[1..], c, d);
      assert s[..1] == [s[0]];
      var r := ReplaceAll(s, [c], [d]);
      assert r == (if s[0] == c then [d] else [s[0]]) + ReplaceAll(s[1..], [c], [d]);
    }
  }

  /** After replacing a character by text without it, the character is gone. */
  lemma {:induction false} ReplaceCharGone(s: string, c: char, rep: string)
    requires c !in rep
    ensures c !in ReplaceAll(s, [c], rep)
  {
    if s != [] {
      assert s[..1] == [s[0]];
      ReplaceCharGone(s[1..], c, rep);
    }
  }

  // ---------------------------------------------------------------------------
  // int() and float() of text

  /** Python's int(text) in base 10: surrounding whitespace, an optional sign
      and at least one digit; None where Python raises ValueError. */
  function ParseInt(text: string): Option<int>
  {
    ParseSignedDigits(Strip(text))
  }

  /** An optional sign and at least one digit, nothing around them. */
  function ParseSignedDigits(t: string): Option<int>
  {
    if t != [] && (t[0] == '+' || t[0] == '-') then
      var d := t[1..];
      if d != [] && AllDigits(d) then
        var v: int := DigitsValue(d);
        Some(if t[0] == '-' then -v else v)
      else None
    else if t != [] && AllDigits(t) then Some(DigitsValue(t))
    else None
  }


  /** Bare digits are read as their value. */
  lemma DigitsInt(s: string)
    requires s != [] && AllDigits(s)
    ensures ParseInt(s) == Some(DigitsValue(s))
  {
    StripNoSpace(s);
  }

  /** A leading whitespace character, the no-break space and the other
      non-ASCII spaces among them, changes neither int() nor float(). */
  lemma LeadingSpaceIgnored(c: char, s: string)
    requires IsSpace(c)
    ensures ParseInt([c] + s) == ParseInt(s)
    ensures ParseFloat([c] + s) == ParseFloat(s)
  {
    var t := [c] + s;
    StripLeadingSpace(c, s, t);
  }

  /** A leading information separator, U+001C..U+001F, makes both int()
      and float() fail, although str.isspace() counts it as whitespace. */
  lemma LeadingSeparatorRejected(c: char, s: string)
    requires 28 <= c as int <= 31
    ensures ParseInt([c] + s) == None
    ensures ParseFloat([c] + s) == None
  {
    var t := [c] + s;
    assert t[0] == c;
    KeptByStrip(t);
    NoNumberAt(Strip(t));
  }

  lemma KeptByStrip(t: string)
    requires t != [] && !IsSpace(t[0])
    ensures Strip(t) != [] && Strip(t)[0] == t[0]
  {
    assert TrimStart(t) == t;
    TrimEndKeepsHead(t);
  }

  lemma {:induction false} TrimEndKeepsHead(t: string)
    requires t != [] && !IsSpace(t[0])
    ensures TrimEnd(t) != [] && TrimEnd(t)[0] == t[0]
    decreases |t|
  {
    if IsSpace(t[|t| - 1]) {
      var u := t[..|t| - 1];
      assert u != [] && u[0] == t[0];
      TrimEndKeepsHead(u);
    }
  }

  /** Text that opens with neither a sign, a digit nor a point is no number. */
  lemma NoNumberAt(t: string)
    requires t != [] && t[0] != '+' && t[0] != '-' && t[0] != '.' && !IsDigit(t[0])
    ensures ParseSignedDigits(t) == None
    ensures ParseSignedDecimal(t) == None
  {
    var k := Find(t, '.');
    if k < |t| {
      assert k > 0;
      assert !AllDigits(t[..k]) by {
        assert t[..k][0] == t[0];
      }
    }
  }

  lemma StripLeadingSpace(c: char, s: string, t: string)
    requires IsSpace(c) && t == [c] + s
    ensures Strip(t) == Strip(s)
  {
    assert t[1..] == s;
  }

  /** The canonical spelling of an integer, as Python's str(n). */
  function IntToString(n: int): string
  {
    if n < 0 then "-" + NatToDigits(-n) else NatToDigits(n)
  }

  lemma IntRoundTrip(n: int)
    ensures ParseInt(IntToString(n)) == Some(n)
  {
    var s := IntToString(n);
    StripNoSpace(s);
    if n < 0 {
      assert s[1..] == NatToDigits(-n);
      DigitsRoundTrip(-n);
    } else {
      DigitsRoundTrip(n);
    }
  }

  /** The value of the digits after a decimal point: "5" is 0.5, "05" is
      0.05; each digit weighs a tenth of the one before it. */
  function FractionValue(digits: string): (r: real)
    requires AllDigits(digits)
    ensures 0.0 <= r <= 1.0
    decreases |digits|
  {
    if digits == [] then 0.0 else (DigitValue(digits[0]) as real + FractionValue(digits[1..])) / 10.0
  }

  /** An unsigned decimal: digits, optionally a point and more digits, with at
      least one digit in all ("5", "5.", ".5", "1234.56"). */
  function ParseUnsignedDecimal(s: string): (r: Option<real>)
    ensures r.Some? ==> r.value >= 0.0
  {
    var k := Find(s, '.');
    if k == |s| then
      if s != [] && AllDigits(s) then Some(DigitsValue(s) as real) else None
    else
      var whole, frac := s[..k], s[k + 1..];
      if AllDigits(whole) && AllDigits(frac) && |whole| + |frac| > 0 then
        Some(DigitsValue(whole) as real + FractionValue(frac))
      else None
  }

  /** Python's float(text) for plain decimal notation: surrounding whitespace,
      an optional sign and an unsigned decimal; None where Python raises
      ValueError. */
  function ParseFloat(text: string): Option<real>
  {
    ParseSignedDecimal(Strip(text))
  }

  /** An optional sign and an unsigned decimal, nothing around them. */
  function ParseSignedDecimal(t: string): Option<real>
  {
    if t != [] && (t[0] == '+' || t[0] == '-') then
      match ParseUnsignedDecimal(t[1..])
      case None => None
      case Some(v) => Some(if t[0] == '-' then -v else v)
    else ParseUnsignedDecimal(t)
  }

  /** "<whole>.<two digits>": the two-decimal spelling of an amount of cents. */
  function CentsToDecimal(cents: nat): string
  {
    NatToDigits(cents / 100) + "." + TwoDigits(cents % 100)
  }

  lemma CentsRoundTrip(cents: nat)
    ensures ParseFloat(CentsToDecimal(cents)) == Some(cents as real / 100.0)
  {
    CentsParts(cents);
    UnsignedFloatValue(CentsToDecimal(cents), cents as real / 100.0);
  }

  /** The spelling of an amount of cents opens and closes with a digit and is
      an unsigned decimal of the amount's value. */
  lemma CentsParts(cents: nat)
    ensures var s := CentsToDecimal(cents);
            s != [] && IsDigit(s[0]) && IsDigit(s[|s| - 1]) &&
            ParseUnsignedDecimal(s) == Some(cents as real / 100.0)
  {
    var whole, frac := NatToDigits(cents / 100), TwoDigits(cents % 100);
    var s := CentsToDecimal(cents);
    assert s == whole + "." + frac;
    DigitsRoundTrip(cents / 100);
    PointedDigits(s, whole, frac, cents / 100, cents % 100);
    DecimalSplit(cents);
    assert s[0] == whole[0] && s[|s| - 1] == frac[1];
  }

  /** Digits, a point and two digits are read as reais and cents. */
  lemma PointedDigits(s: string, whole: string, frac: string, reais: nat, centavos: nat)
    requires s == whole + "." + frac
    requires whole != [] && AllDigits(whole) && DigitsValue(whole) == reais
    requires |frac| == 2 && AllDigits(frac) && DigitsValue(frac) == centavos
    ensures ParseUnsignedDecimal(s) == Some(reais as real + centavos as real / 100.0)
  {
    PointedValue(whole, frac, reais, centavos);
    DecimalPoint(s, whole, frac, reais as real + centavos as real / 100.0);
  }

  lemma PointedValue(whole: string, frac: string, reais: nat, centavos: nat)
    requires AllDigits(whole) && DigitsValue(whole) == reais
    requires |frac| == 2 && AllDigits(frac) && DigitsValue(frac) == centavos
    ensures DigitsValue(whole) as real + FractionValue(frac) == reais as real + centavos as real / 100.0
  {
    TwoDecimals(frac);
  }

  /** Two digits after the point are hundredths. */
  lemma TwoDecimals(frac: string)
    requires |frac| == 2 && AllDigits(frac)
    ensures FractionValue(frac) == DigitsValue(frac) as real / 100.0
  {
    var head := frac[..1];
    assert head[..0] == [] && head[0] == frac[0];
    assert DigitsValue(head) == DigitValue(frac[0]);
    assert frac[..|frac| - 1] == head;
    assert DigitsValue(frac) == DigitValue(frac[0]) * 10 + DigitValue(frac[1]);
    var tail := frac[1..];
    assert tail[1..] == [] && tail[0] == frac[1];
    assert FractionValue(tail) == DigitValue(frac[1]) as real / 10.0;
  }

  lemma DecimalSplit(cents: nat)
    ensures (cents / 100) as real + (cents % 100) as real / 100.0 == cents as real / 100.0
  {
    var q, r := cents / 100, cents % 100;
    assert cents == q * 100 + r;
    assert cents as real == q as real * 100.0 + r as real;
  }

  /** Text with two decimal points is not an unsigned decimal. */
  lemma TwoPoints(s: string, i: int, j: int)
    requires 0 <= i < j < |s| && s[i] == '.' && s[j] == '.'
    ensures ParseUnsignedDecimal(s) == None
  {
    var k := Find(s, '.');
    assert k <= i;
    var frac := s[k + 1..];
    assert frac[j - k - 1] == '.';
    assert !AllDigits(frac) by {
      assert !IsDigit(frac[j - k - 1]);
    }
  }

  /** Text that opens and closes with a digit is read with no stripping and
      no sign. */
  lemma UnsignedFloat(s: string)
    requires s != [] && IsDigit(s[0]) && IsDigit(s[|s| - 1])
    ensures ParseFloat(s) == ParseUnsignedDecimal(s)
  {
    StripNoSpace(s);
  }

  lemma UnsignedFloatValue(s: string, v: real)
    requires s != [] && IsDigit(s[0]) && IsDigit(s[|s| - 1])
    requires ParseUnsignedDecimal(s) == Some(v)
    ensures ParseFloat(s) == Some(v)
  {
    UnsignedFloat(s);
  }

  /** Digits, a point and digits are read as the whole part plus the fraction. */
  lemma DecimalPoint(s: string, whole: string, frac: string, v: real)
    requires s == whole + "." + frac
    requires whole != [] && AllDigits(whole) && AllDigits(frac)
    requires v == DigitsValue(whole) as real + FractionValue(frac)
    ensures ParseUnsignedDecimal(s) == Some(v)
  {
    assert Find(s, '.') == |whole| by {
      assert s[|whole|] == '.';
      assert forall j :: 0 <= j < |whole| ==> s[j] == whole[j];
    }
    assert s[..|whole|] == whole && s[|whole| + 1..] == frac;
  }
}
