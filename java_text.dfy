/**
 * The pieces of java.lang.String and java.lang.Integer that the modelled code
 * relies on: ASCII case folding (equalsIgnoreCase, toUpperCase), decimal
 * rendering (Integer.toString) and Integer.valueOf parsing.
 */
module JavaText {
  import opened Wrappers

  const MinInt32: int := -0x8000_0000
  const MaxInt32: int := 0x7fff_ffff

  predicate IsInt32(n: int) {
    MinInt32 <= n <= MaxInt32
  }

  function LowerChar(c: char): char {
    if 'A' <= c <= 'Z' then (c as int + 32) as char else c
  }

  function UpperChar(c: char): char {
    if 'a' <= c <= 'z' then (c as int - 32) as char else c
  }

  /** String.toUpperCase, restricted to ASCII letters. */
  function ToUpper(s: string): (r: string)
    ensures |r| == |s|
    ensures forall i :: 0 <= i < |s| ==> r[i] == UpperChar(s[i])
  {
    if s == [] then [] else [UpperChar(s[0])] + ToUpper(s[1..])
  }

  /** String.toLowerCase, restricted to ASCII letters. */
  function ToLower(s: string): (r: string)
    ensures |r| == |s|
    ensures forall i :: 0 <= i < |s| ==> r[i] == LowerChar(s[i])
  {
    if s == [] then [] else [LowerChar(s[0])] + ToLower(s[1..])
  }

  /** String.equalsIgnoreCase, restricted to ASCII letters. */
  predicate EqualsIgnoreCase(a: string, b: string) {
    |a| == |b| && forall i :: 0 <= i < |a| ==> LowerChar(a[i]) == LowerChar(b[i])
  }

  lemma EqualsIgnoreCaseReflexive(a: string)
    ensures EqualsIgnoreCase(a, a)
  {
  }

  /** Comparing ignoring case is comparing the lower-cased forms. */
  lemma EqualsIgnoreCaseIffLowerEqual(a: string, b: string)
    ensures EqualsIgnoreCase(a, b) <==> ToLower(a) == ToLower(b)
  {
    if ToLower(a) == ToLower(b) {
      assert |a| == |ToLower(a)|;
      forall i | 0 <= i < |a|
        ensures LowerChar(a[i]) == LowerChar(b[i])
      {
        assert ToLower(a)[i] == ToLower(b)[i];
      }
    }
  }

  predicate IsDigit(c: char) {
    '0' <= c <= '9'
  }

  function DigitValue(c: char): nat
    requires IsDigit(c)
  {
    c as int - '0' as int
  }

  function DigitChar(d: nat): (c: char)
    requires d < 10
    ensures IsDigit(c) && DigitValue(c) == d
  {
    ('0' as int + d) as char
  }

  predicate AllDigits(s: string) {
    forall i :: 0 <= i < |s| ==> IsDigit(s[i])
  }

  /** The value of a string of decimal digits, most significant first. */
  function DigitsValue(s: string): nat
    requires AllDigits(s)
  {
    if s == [] then 0 else 10 * DigitsValue(s[..|s| - 1]) + DigitValue(s[|s| - 1])
  }

  /** The decimal digits of n, without leading zeros. */
  function NatToString(n: nat): string
  {
    if n < 10 then [DigitChar(n)] else NatToString(n / 10) + [DigitChar(n % 10)]
  }

  /** Integer.toString: the decimal text of n, with a leading '-' when negative. */
  function IntToString(n: int): string {
    if n < 0 then "-" + NatToString(-n) else NatToString(n)
  }

  /**
   * Integer.valueOf(String): an optional '+' or '-', then at least one digit,
   * the value in the 32-bit signed range; anything else is a
   * NumberFormatException, here None.
   */
  function ParseJavaInt(s: string): (r: Option<int>)
    ensures r.Some? ==> IsInt32(r.value)
    ensures r.Some? ==> |s| > 0 && (s[0] == '+' || s[0] == '-' || IsDigit(s[0]))
  {
    if |s| == 0 then None
    else
      var digits := if s[0] == '-' || s[0] == '+' then s[1..] else s;
      if |digits| == 0 || !AllDigits(digits) then None
      else
        var v := if s[0] == '-' then -(DigitsValue(digits) as int) else DigitsValue(digits);
        if IsInt32(v) then Some(v) else None
  }

  /** The low 32 bits of n read as a signed int: Java's (int) cast of a long and BigInteger.intValue(). */
  function Int32Wrap(n: int): (r: int)
    ensures IsInt32(r) && (n - r) % 0x1_0000_0000 == 0
    ensures IsInt32(n) ==> r == n
  {
    var m := n % 0x1_0000_0000;
    if m > MaxInt32 then m - 0x1_0000_0000 else m
  }

  /** The characters String.trim() drops: every one at or below the space. */
  predicate IsTrimmed(c: char) {
    c <= ' '
  }

  /** The first index at or after i whose character String.trim() keeps, or |s|. */
  function TrimFrom(s: string, i: nat): (r: nat)
    requires i <= |s|
    ensures i <= r <= |s| && (r == |s| || !IsTrimmed(s[r]))
    ensures forall k :: i <= k < r ==> IsTrimmed(s[k])
    decreases |s| - i
  {
    if i < |s| && IsTrimmed(s[i]) then TrimFrom(s, i + 1) else i
  }

  /** The end, down from j but not below lo, of the characters String.trim() keeps. */
  function TrimTo(s: string, lo: nat, j: nat): (r: nat)
    requires lo <= j <= |s|
    ensures lo <= r <= j && (r == lo || !IsTrimmed(s[r - 1]))
    ensures forall k :: r <= k < j ==> IsTrimmed(s[k])
  {
    if j > lo && IsTrimmed(s[j - 1]) then TrimTo(s, lo, j - 1) else j
  }

  /**
   * String.trim(): s with its leading and trailing characters at or below
   * the space cut off; what is left neither starts nor ends with one.
   */
  function Trim(s: string): (r: string)
    ensures var lo := TrimFrom(s, 0);
      lo + |r| <= |s| && r == s[lo..lo + |r|] &&
      (forall k :: 0 <= k < lo ==> IsTrimmed(s[k])) &&
      (forall k :: lo + |r| <= k < |s| ==> IsTrimmed(s[k]))
    ensures r == [] || (!IsTrimmed(r[0]) && !IsTrimmed(r[|r| - 1]))
  {
    var lo := TrimFrom(s, 0);
    s[lo..TrimTo(s, lo, |s|)]
  }

  /** Trimming twice is trimming once. */
  lemma TrimIdempotent(s: string)
    ensures Trim(Trim(s)) == Trim(s)
  {
    var t := Trim(s);
    if t != [] {
      assert TrimFrom(t, 0) == 0;
      assert TrimTo(t, 0, |t|) == |t|;
    }
  }

  lemma {:induction false} NatToStringDigits(n: nat)
    ensures |NatToString(n)| > 0 && AllDigits(NatToString(n))
    ensures DigitsValue(NatToString(n)) == n
  {
    if n >= 10 {
      NatToStringDigits(n / 10);
      var s := NatToString(n);
      assert s[..|s| - 1] == NatToString(n / 10);
    }
  }

  /** Integer.valueOf(Integer.toString(n)) == n for every 32-bit n. */
  lemma ParseIntToString(n: int)
    requires IsInt32(n)
    ensures ParseJavaInt(IntToString(n)) == Some(n)
  {
    if n < 0 {
      NatToStringDigits(-n);
      assert IntToString(n)[1..] == NatToString(-n);
    } else {
      NatToStringDigits(n);
    }
  }

  /** Integer.valueOf rejects an empty text, a sign alone and anything but digits after the sign. */
  lemma ParseJavaIntRejectsMalformed()
    ensures ParseJavaInt("") == None && ParseJavaInt("+") == None && ParseJavaInt("-") == None
    ensures ParseJavaInt(" 7") == None && ParseJavaInt("7a") == None && ParseJavaInt("-+7") == None
  {
    assert !IsDigit(" 7"[0]);
    assert !IsDigit("7a"[1]);
    assert !IsDigit("-+7"[1..][0]);
  }

  /** A leading '+' and leading zeros are accepted. */
  lemma ParseJavaIntSignsAndZeros()
    ensures ParseJavaInt("+7") == Some(7) && ParseJavaInt("-07") == Some(-7)
  {
    assert "+7"[1..] == "7";
    assert "-07"[1..] == "07";
    assert "07"[..1] == "0";
    assert DigitsValue("0") == 0;
    assert DigitsValue("07") == 7;
    assert DigitsValue("7") == 7;
  }

  lemma DigitsOfMaxPrefix()
    ensures DigitsValue("214748364") == 214748364
  {
    assert DigitsValue("2") == 2;
    assert "21"[..1] == "2";
    assert DigitsValue("21") == 21;
    assert "214"[..2] == "21";
    assert DigitsValue("214") == 214;
    assert "2147"[..3] == "214";
    assert DigitsValue("2147") == 2147;
    assert "21474"[..4] == "2147";
    assert DigitsValue("21474") == 21474;
    assert "214748"[..5] == "21474";
    assert DigitsValue("214748") == 214748;
    assert "2147483"[..6] == "214748";
    assert DigitsValue("2147483") == 2147483;
    assert "21474836"[..7] == "2147483";
    assert DigitsValue("21474836") == 21474836;
    assert "214748364"[..8] == "21474836";
    assert DigitsValue("214748364") == 214748364;
  }

  /** The accepted range ends exactly at 2^31 - 1. */
  lemma ParseJavaIntUpperBound()
    ensures ParseJavaInt("2147483647") == Some(MaxInt32) && ParseJavaInt("2147483648") == None
  {
    DigitsOfMaxPrefix();
    assert "2147483647"[..9] == "214748364";
    assert "2147483648"[..9] == "214748364";
  }

  /** The accepted range starts exactly at -2^31. */
  lemma ParseJavaIntLowerBound()
    ensures ParseJavaInt("-2147483648") == Some(MinInt32) && ParseJavaInt("-2147483649") == None
  {
    DigitsOfMaxPrefix();
    assert "-2147483648"[1..] == "2147483648";
    assert "-2147483649"[1..] == "2147483649";
    assert "2147483648"[..9] == "214748364";
    assert "2147483649"[..9] == "214748364";
  }
}
