/** The play-count text parse: keep the digit characters of the element's text, in
    their original order, and read them as a decimal integer; text without digits
    reads as 0 (perp.py:34-36). */
module Digits {

  predicate IsDigit(c: char) {
    '0' <= c <= '9'
  }

  predicate AllDigits(s: string) {
    forall i :: 0 <= i < |s| ==> IsDigit(s[i])
  }

  predicate NoDigits(s: string) {
    forall i :: 0 <= i < |s| ==> !IsDigit(s[i])
  }

  function Pow10(k: nat): (p: nat)
    ensures p >= 1
  {
    if k == 0 then 1 else 10 * Pow10(k - 1)
  }

  /** The digit characters of `s`, in order (the source's `filter(str.isdigit, ...)`). */
  function DigitsOf(s: string): (d: string)
    ensures AllDigits(d)
    ensures |d| <= |s|
  {
    if s == [] then []
    else (if IsDigit(s[0]) then [s[0]] else []) + DigitsOf(s[1..])
  }

  function DigitValue(c: char): (v: nat)
    requires IsDigit(c)
    ensures v < 10
  {
    c as int - '0' as int
  }

  function DigitChar(v: nat): (c: char)
    requires v < 10
    ensures IsDigit(c) && DigitValue(c) == v
  {
    ('0' as int + v) as char
  }

  /** The integer a digit string denotes (the source's `int(...)`); leading zeros are allowed. */
  function NumberOf(d: string): (n: nat)
    requires AllDigits(d)
    ensures n < Pow10(|d|)
  {
    if d == [] then 0
    else 10 * NumberOf(d[..|d| - 1]) + DigitValue(d[|d| - 1])
  }

  /** The parsed play count of an element's text; it has no more digits than the text. */
  function ParsePlayCount(text: string): (r: nat)
    ensures r < Pow10(|DigitsOf(text)|)
  {
    var digits := DigitsOf(text);
    if digits == [] then 0 else NumberOf(digits)
  }

  /** Shortest decimal rendering of `n`: an independent partner of NumberOf. */
  function DecimalString(n: nat): (s: string)
    ensures AllDigits(s) && 1 <= |s|
  {
    if n < 10 then [DigitChar(n)] else DecimalString(n / 10) + [DigitChar(n % 10)]
  }

  // ---- the digit filter is exactly "keep the digits, in order" ----

  lemma {:induction false} DigitsOfAppend(a: string, b: string)
    ensures DigitsOf(a + b) == DigitsOf(a) + DigitsOf(b)
  {
    if a == [] {
      assert a + b == b;
    } else {
      assert (a + b)[1..] == a[1..] + b;
      DigitsOfAppend(a[1..], b);
    }
  }

  lemma {:induction false} DigitsOfAllDigits(s: string)
    requires AllDigits(s)
    ensures DigitsOf(s) == s
  {
    if s != [] {
      DigitsOfAllDigits(s[1..]);
    }
  }

  lemma {:induction false} DigitsOfEmptyIff(s: string)
    ensures DigitsOf(s) == [] <==> NoDigits(s)
  {
    if s != [] {
      DigitsOfEmptyIff(s[1..]);
      if !IsDigit(s[0]) && NoDigits(s[1..]) {
        forall i | 0 <= i < |s| ensures !IsDigit(s[i]) {
          if i > 0 { assert s[i] == s[1..][i - 1]; }
        }
      }
    }
  }

  /** Every digit of the result comes from `s`, and every digit of `s` survives. */
  lemma {:induction false} DigitsOfKeepsExactlyDigits(s: string, c: char)
    ensures c in DigitsOf(s) <==> (c in s && IsDigit(c))
  {
    if s != [] {
      DigitsOfKeepsExactlyDigits(s[1..], c);
      assert s == [s[0]] + s[1..];
    }
  }

  // ---- the integer parse ----

  lemma AllDigitsAppend(a: string, b: string)
    requires AllDigits(a) && AllDigits(b)
    ensures AllDigits(a + b)
  {
    assert forall i :: 0 <= i < |a + b| ==> (a + b)[i] == if i < |a| then a[i] else b[i - |a|];
  }

  lemma ShiftStep(x: int, y: int, p: int, last: int)
    ensures 10 * (x * p + y) + last == x * (10 * p) + (10 * y + last)
  {
  }

  lemma {:induction false} NumberOfAppend(a: string, b: string)
    requires AllDigits(a) && AllDigits(b)
    ensures AllDigits(a + b)
    ensures NumberOf(a + b) == NumberOf(a) * Pow10(|b|) + NumberOf(b)
  {
    AllDigitsAppend(a, b);
    if b == [] {
      assert a + b == a;
    } else {
      var b' := b[..|b| - 1];
      assert (a + b)[..|a + b| - 1] == a + b';
      assert (a + b)[|a + b| - 1] == b[|b| - 1];
      AllDigitsAppend(a, b');
      NumberOfAppend(a, b');
      ShiftStep(NumberOf(a), NumberOf(b'), Pow10(|b'|), DigitValue(b[|b| - 1]));
    }
  }

  /** Leading zeros do not change the parsed value, as with Python's `int("007")`. */
  lemma LeadingZeroIgnored(d: string)
    requires AllDigits(d)
    ensures AllDigits("0" + d) && NumberOf("0" + d) == NumberOf(d)
  {
    NumberOfAppend("0", d);
  }

  lemma {:induction false} NumberOfDecimalString(n: nat)
    ensures NumberOf(DecimalString(n)) == n
  {
    if n >= 10 {
      NumberOfDecimalString(n / 10);
      var s := DecimalString(n / 10) + [DigitChar(n % 10)];
      assert s[..|s| - 1] == DecimalString(n / 10);
    }
  }

  /** A rendered count between digit-free decorations ("", " plays", "Plays: ") parses back to itself. */
  lemma ParsePlayCountRoundTrip(prefix: string, n: nat, suffix: string)
    requires NoDigits(prefix) && NoDigits(suffix)
    ensures ParsePlayCount(prefix + DecimalString(n) + suffix) == n
  {
    var s := DecimalString(n);
    DigitsOfAllDigits(s);
    DigitsOfEmptyIff(prefix);
    DigitsOfEmptyIff(suffix);
    DigitsOfAppend(prefix, s);
    assert DigitsOf(prefix + s) == s;
    DigitsOfAppend(prefix + s, suffix);
    assert DigitsOf(prefix + s + suffix) == s;
    NumberOfDecimalString(n);
  }

  /** Text without any digit is read as 0, not as an error. */
  lemma NoDigitsParsesToZero(text: string)
    requires NoDigits(text)
    ensures ParsePlayCount(text) == 0
  {
    DigitsOfEmptyIff(text);
  }

  lemma NumberOfThree(d: string)
    requires |d| == 3 && AllDigits(d)
    ensures NumberOf(d) == 100 * DigitValue(d[0]) + 10 * DigitValue(d[1]) + DigitValue(d[2])
  {
    assert d[..2][..1] == [d[0]];
    assert NumberOf([d[0]]) == DigitValue(d[0]);
  }

  /** A digit-free separator between digit groups is dropped: "1" "," "234" reads as "1234". */
  lemma SeparatorDropped(x: string, sep: string, group: string)
    requires NoDigits(sep) && AllDigits(group)
    ensures DigitsOf(x + sep + group) == DigitsOf(x) + group
  {
    DigitsOfAppend(x + sep, group);
    DigitsOfAppend(x, sep);
    DigitsOfEmptyIff(sep);
    DigitsOfAllDigits(group);
  }

  lemma DigitsOfExample()
    ensures DigitsOf("1,234,567 plays") == "1" + "234" + "567"
  {
    var one, hi, lo, word := "1", "234", "567", " plays";
    assert "1,234,567 plays" == one + "," + hi + "," + lo + word;
    assert AllDigits(one) && AllDigits(hi) && AllDigits(lo);
    assert NoDigits(",") && NoDigits(word);
    DigitsOfAllDigits(one);
    SeparatorDropped(one, ",", hi);
    SeparatorDropped(one + "," + hi, ",", lo);
    DigitsOfAppend(one + "," + hi + "," + lo, word);
    DigitsOfEmptyIff(word);
  }

  lemma NumberOfExample()
    ensures AllDigits("1" + "234" + "567") && NumberOf("1" + "234" + "567") == 1234567
  {
    var one, hi, lo := "1", "234", "567";
    GroupValues();
    NumberOfAppend(one, hi);
    NumberOfAppend(one + hi, lo);
    assert Pow10(3) == 1000;
  }

  lemma GroupValues()
    ensures AllDigits("1") && AllDigits("234") && AllDigits("567")
    ensures NumberOf("1") == 1 && NumberOf("234") == 234 && NumberOf("567") == 567
  {
    assert AllDigits("234") && AllDigits("567");
    NumberOfThree("234");
    NumberOfThree("567");
    assert NumberOf("1") == 1;
  }

  /** Thousands separators and words are dropped: "1,234,567 plays" reads as 1234567. */
  lemma SeparatedCountExample()
    ensures ParsePlayCount("1,234,567 plays") == 1234567
  {
    DigitsOfExample();
    NumberOfExample();
  }
}
