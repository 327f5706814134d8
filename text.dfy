/**
 * Text handling the ledger relies on: the `num` coercion of typed amounts,
 * decimal rendering of counters, `String.prototype.trim`, and the plain
 * lexicographic order that stands for `localeCompare` on ASCII dates.
 */
module Text {
  import opened Wrappers

  predicate IsDigit(c: char) { '0' <= c <= '9' }

  /** The characters `/[^0-9.]/g` does not remove. */
  predicate IsKept(c: char) { IsDigit(c) || c == '.' }

  predicate AllDigits(s: string) { forall i :: 0 <= i < |s| ==> IsDigit(s[i]) }

  /** `v.replace(/[^0-9.]/g, '')`: the digits and dots of `s`, in order. */
  function Strip(s: string): (r: string)
    ensures |r| <= |s|
    ensures forall i :: 0 <= i < |r| ==> IsKept(r[i])
  {
    if s == [] then [] else (if IsKept(s[0]) then [s[0]] else []) + Strip(s[1..])
  }

  /** Stripping text that holds only digits and dots leaves it as it is. */
  lemma {:induction false} StripKeepsClean(s: string)
    requires forall i :: 0 <= i < |s| ==> IsKept(s[i])
    ensures Strip(s) == s
  {
    if s != [] {
      StripKeepsClean(s[1..]);
    }
  }

  lemma {:induction false} StripConcat(a: string, b: string)
    ensures Strip(a + b) == Strip(a) + Strip(b)
  {
    if a == [] {
      assert a + b == b;
    } else {
      assert (a + b)[1..] == a[1..] + b;
      StripConcat(a[1..], b);
    }
  }

  function DigitValue(c: char): nat
    requires IsDigit(c)
  {
    c as int - '0' as int
  }

  /** The value of a run of decimal digits, most significant first. */
  function DigitsValue(ds: string): nat
    requires AllDigits(ds)
  {
    if ds == [] then 0 else DigitsValue(ds[..|ds| - 1]) * 10 + DigitValue(ds[|ds| - 1])
  }

  function Pow10(n: nat): (r: nat)
    ensures r >= 1
  {
    if n == 0 then 1 else 10 * Pow10(n - 1)
  }

  function FirstDot(t: string): (k: nat)
    requires '.' in t
    ensures k < |t| && t[k] == '.' && '.' !in t[..k]
  {
    if t[0] == '.' then 0 else assert '.' in t[1..]; 1 + FirstDot(t[1..])
  }

  /**
   * `Number(t)` for text made of digits and dots: "" is 0; digits, or digits
   * around one dot with at least one digit, are a decimal; anything else
   * (".", "1.2.3") is NaN, here None.
   */
  function ParseNumber(t: string): (r: Option<real>)
    ensures r.Some? ==> r.value >= 0.0
  {
    if t == [] then Some(0.0)
    else if AllDigits(t) then Some(DigitsValue(t) as real)
    else if '.' !in t then None
    else
      var k := FirstDot(t);
      var whole, frac := t[..k], t[k + 1..];
      if AllDigits(whole) && AllDigits(frac) && (whole != [] || frac != []) then
        Some(DecimalValue(whole, frac))
      else None
  }

  /** The value of `whole.frac` written in decimal. */
  function DecimalValue(whole: string, frac: string): (r: real)
    requires AllDigits(whole) && AllDigits(frac)
    ensures r >= DigitsValue(whole) as real
  {
    DigitsValue(whole) as real + DigitsValue(frac) as real / Pow10(|frac|) as real
  }

  /**
   * `num(v)`: keep the digits and dots, convert, and map NaN to 0. A minus
   * sign is stripped like any other character, so the result is never negative.
   */
  function Num(v: string): (r: real)
    ensures r >= 0.0
  {
    match ParseNumber(Strip(v))
    case Some(x) => x
    case None => 0.0
  }

  /** `num` reads only the digits and dots of its input. */
  lemma NumReadsOnlyKept(v: string)
    ensures Num(v) == Num(Strip(v))
  {
    StripKeepsClean(Strip(v));
  }

  /** Empty text, a lone dot and text with no digits all coerce to 0. */
  lemma NumEdgeCases()
    ensures Num("") == 0.0
    ensures Num(".") == 0.0
    ensures Num("abc") == 0.0
  {
    assert Strip(".") == ".";
    assert FirstDot(".") == 0;
    assert Strip("abc") == "";
  }

  /** Text with two dots is no number and coerces to 0. */
  lemma NumTwoDots()
    ensures Num("1.2.3") == 0.0
  {
    assert Strip("1.2.3") == "1.2.3" by { StripKeepsClean("1.2.3"); }
    assert FirstDot("1.2.3") == 1 by { assert "1.2.3"[0] != '.'; assert "1.2.3"[1..] == ".2.3"; }
    assert !AllDigits("2.3") by { assert "2.3"[1] == '.'; }
  }

  /** Digits around one dot read as a decimal fraction. */
  lemma ParseNumberDecimal(whole: string, frac: string)
    requires AllDigits(whole) && AllDigits(frac) && (whole != [] || frac != [])
    ensures ParseNumber(whole + "." + frac) == Some(DecimalValue(whole, frac))
  {
    var t := whole + "." + frac;
    assert t[|whole|] == '.';
    assert !AllDigits(t) by { assert !IsDigit(t[|whole|]); }
    assert '.' in t;
    var k := FirstDot(t);
    assert k == |whole|;
    assert t[..k] == whole && t[k + 1..] == frac;
  }

  /** Characters other than digits and dots around a decimal do not change its value. */
  lemma NumOfDecimalAmidText(before: string, whole: string, frac: string, after: string)
    requires AllDigits(whole) && AllDigits(frac) && (whole != [] || frac != [])
    requires forall i :: 0 <= i < |before| ==> !IsKept(before[i])
    requires forall i :: 0 <= i < |after| ==> !IsKept(after[i])
    ensures Num(before + whole + "." + frac + after) == DecimalValue(whole, frac)
  {
    var clean := whole + "." + frac;
    var v := before + whole + "." + frac + after;
    assert Strip(v) == clean by {
      assert v == before + (clean + after);
      StripConcat(before, clean + after);
      StripConcat(clean, after);
      StripNone(before);
      StripNone(after);
      StripKeepsClean(clean);
    }
    ParseNumberDecimal(whole, frac);
  }

  lemma {:induction false} StripNone(s: string)
    requires forall i :: 0 <= i < |s| ==> !IsKept(s[i])
    ensures Strip(s) == []
  {
    if s != [] {
      StripNone(s[1..]);
    }
  }

  /** Letters after a decimal are ignored: "12.3abc" coerces to 12.3. */
  lemma NumIgnoresLetters()
    ensures Num("12.3abc") == 12.3
  {
    StripExample();
    ParseExample();
  }

  /** Text that is only digits and dots, followed by text with none, strips to its first part. */
  lemma StripDropsJunk(clean: string, junk: string)
    requires forall i :: 0 <= i < |clean| ==> IsKept(clean[i])
    requires forall i :: 0 <= i < |junk| ==> !IsKept(junk[i])
    ensures Strip(clean + junk) == clean
  {
    StripConcat(clean, junk);
    StripNone(junk);
    StripKeepsClean(clean);
  }

  lemma StripExample()
    ensures Strip("12.3abc") == "12.3"
  {
    var clean, junk := "12.3", "abc";
    assert "12.3abc" == clean + junk;
    StripDropsJunk(clean, junk);
  }

  lemma ParseExample()
    ensures ParseNumber("12.3") == Some(12.3)
  {
    assert "12.3" == "12" + "." + "3";
    assert ParseNumber("12" + "." + "3") == Some(DecimalValue("12", "3")) by {
      ParseNumberDecimal("12", "3");
    }
    assert DecimalValue("12", "3") == 12.3 by {
      assert DigitsValue("12") == 12 by { assert "12"[..1] == "1"; assert "1"[..0] == ""; }
      assert DigitsValue("3") == 3 by { assert "3"[..0] == ""; }
      assert Pow10(1) == 10;
    }
  }

  /** A minus sign does not make an amount negative: "-5" coerces to 5. */
  lemma NumDropsMinus(v: string)
    ensures Num("-" + v) == Num(v)
  {
    StripConcat("-", v);
    assert Strip("-") == "";
    assert "" + Strip(v) == Strip(v);
  }

  /** `${n}`: the decimal digits of `n`, without leading zeros. */
  function NatToString(n: nat): (s: string)
    ensures |s| >= 1 && AllDigits(s)
  {
    if n < 10 then [('0' as int + n) as char]
    else NatToString(n / 10) + [('0' as int + n % 10) as char]
  }

  /** Reading back a rendered counter gives the counter. */
  lemma {:induction false} NatToStringRoundTrip(n: nat)
    ensures DigitsValue(NatToString(n)) == n
  {
    var s := NatToString(n);
    if n < 10 {
      assert s[..0] == [];
    } else {
      NatToStringRoundTrip(n / 10);
      assert s[..|s| - 1] == NatToString(n / 10);
    }
  }

  /** Distinct counters render as distinct text. */
  lemma NatToStringInjective(m: nat, n: nat)
    requires NatToString(m) == NatToString(n)
    ensures m == n
  {
    NatToStringRoundTrip(m);
    NatToStringRoundTrip(n);
  }

  /** `num` applied to a rendered natural number gives that number back. */
  lemma NumOfNatToString(n: nat)
    ensures Num(NatToString(n)) == n as real
  {
    var s := NatToString(n);
    StripKeepsClean(s);
    NatToStringRoundTrip(n);
  }

  /** The characters `String.prototype.trim` removes: white space and line terminators. */
  predicate IsSpace(c: char)
  {
    || c == ' ' || ('\t' <= c <= '\r') || c == '\U{00A0}' || c == '\U{1680}'
    || ('\U{2000}' <= c <= '\U{200A}') || c == '\U{2028}' || c == '\U{2029}'
    || c == '\U{202F}' || c == '\U{205F}' || c == '\U{3000}' || c == '\U{FEFF}'
  }

  /** `s` without its leading white space: a suffix of `s` that starts with a non-space. */
  function TrimStart(s: string): (r: string)
    ensures |r| <= |s| && r == s[|s| - |r|..]
    ensures r == [] || !IsSpace(r[0])
    ensures forall i :: 0 <= i < |s| - |r| ==> IsSpace(s[i])
  {
    if s != [] && IsSpace(s[0]) then
      var r := TrimStart(s[1..]);
      assert forall i :: 1 <= i < |s| - |r| ==> s[i] == s[1..][i - 1];
      r
    else s
  }

  /** `s` without its trailing white space: a prefix of `s` that ends with a non-space. */
  function TrimEnd(s: string): (r: string)
    ensures |r| <= |s| && r == s[..|r|]
    ensures r == [] || !IsSpace(r[|r| - 1])
    ensures forall i :: |r| <= i < |s| ==> IsSpace(s[i])
  {
    if s != [] && IsSpace(s[|s| - 1]) then TrimEnd(s[..|s| - 1]) else s
  }

  /** `s.trim()`. */
  function Trim(s: string): (r: string)
    ensures r == [] || (!IsSpace(r[0]) && !IsSpace(r[|r| - 1]))
  {
    TrimEnd(TrimStart(s))
  }

  /** Cutting trailing white space from the tail `t == s[i..]` leaves a slice of `s`. */
  lemma TrimEndOfTail(s: string, t: string, i: nat)
    requires i <= |s| && t == s[i..]
    ensures i + |TrimEnd(t)| <= |s| && TrimEnd(t) == s[i..i + |TrimEnd(t)|]
    ensures forall k :: i + |TrimEnd(t)| <= k < |s| ==> IsSpace(s[k])
  {
    var r := TrimEnd(t);
    assert r == t[..|r|];
    forall k | i + |r| <= k < |s| ensures IsSpace(s[k]) {
      assert s[k] == t[k - i];
    }
  }

  /** Where `Trim(s)` starts and ends inside `s`, and that only white space lies outside. */
  lemma TrimBounds(s: string) returns (i: nat, j: nat)
    ensures i <= j <= |s| && Trim(s) == s[i..j]
    ensures forall k :: 0 <= k < i ==> IsSpace(s[k])
    ensures forall k :: j <= k < |s| ==> IsSpace(s[k])
  {
    var t := TrimStart(s);
    i := |s| - |t|;
    TrimEndOfTail(s, t, i);
    j := i + |TrimEnd(t)|;
    assert Trim(s) == TrimEnd(t);
  }

  /** Trimmed text is a piece of the input with only white space cut from either end. */
  lemma TrimIsInfix(s: string)
    ensures exists i, j :: (0 <= i <= j <= |s| && Trim(s) == s[i..j]
      && (forall k :: 0 <= k < i ==> IsSpace(s[k]))
      && (forall k :: j <= k < |s| ==> IsSpace(s[k])))
  {
    var i, j := TrimBounds(s);
  }

  /** Text trims to "" exactly when it is all white space, so `!category.trim()` tests that. */
  lemma TrimEmptyIff(s: string)
    ensures Trim(s) == [] <==> forall k :: 0 <= k < |s| ==> IsSpace(s[k])
  {
    TrimIsInfix(s);
  }

  /** Trimming twice is trimming once. */
  lemma TrimIdempotent(s: string)
    ensures Trim(Trim(s)) == Trim(s)
  {
    var r := Trim(s);
    if r != [] {
      assert TrimStart(r) == r;
      assert TrimEnd(r) == r;
    }
  }

  /** `a < b` in plain lexicographic order of code points (proper prefixes come first). */
  predicate LexLess(a: string, b: string)
  {
    b != [] && (a == [] || a[0] < b[0] || (a[0] == b[0] && LexLess(a[1..], b[1..])))
  }

  lemma {:induction false} LexLessIrreflexive(a: string)
    ensures !LexLess(a, a)
  {
    if a != [] {
      LexLessIrreflexive(a[1..]);
    }
  }

  lemma {:induction false} LexLessTransitive(a: string, b: string, c: string)
    requires LexLess(a, b) && LexLess(b, c)
    ensures LexLess(a, c)
  {
    if a != [] && a[0] == b[0] && b[0] == c[0] {
      LexLessTransitive(a[1..], b[1..], c[1..]);
    }
  }

  /** No two strings each precede the other. */
  lemma LexLessAsymmetric(a: string, b: string)
    ensures !(LexLess(a, b) && LexLess(b, a))
  {
    if LexLess(a, b) && LexLess(b, a) {
      LexLessTransitive(a, b, a);
      LexLessIrreflexive(a);
    }
  }

  /** Two different strings are ordered one way or the other. */
  lemma {:induction false} LexLessConnected(a: string, b: string)
    requires a != b
    ensures LexLess(a, b) || LexLess(b, a)
  {
    if a != [] && b != [] && a[0] == b[0] {
      assert a == [a[0]] + a[1..] && b == [b[0]] + b[1..];
      LexLessConnected(a[1..], b[1..]);
    }
  }
}
