/**
 * Character and string operations of the Python runtime that the bot relies on:
 * decimal digits, `int(text)`, `str(n)`, zero padding as in `'%02d'`,
 * `sep.join(parts)` and `str.lower()`.
 */
module Text {
  import opened Wrappers

  predicate IsDigit(c: char) {
    '0' <= c <= '9'
  }

  predicate AllDigits(s: string) {
    forall i | 0 <= i < |s| :: IsDigit(s[i])
  }

  function DigitValue(c: char): nat
    requires IsDigit(c)
  {
    c as int - '0' as int
  }

  function DigitChar(v: nat): (c: char)
    requires v <= 9
    ensures IsDigit(c) && DigitValue(c) == v
  {
    ('0' as int + v) as char
  }

  /** The value of a run of decimal digits, most significant first; leading zeros are allowed. */
  function DecimalValue(s: string): nat
    requires AllDigits(s)
  {
    if s == [] then 0 else DecimalValue(s[..|s| - 1]) * 10 + DigitValue(s[|s| - 1])
  }

  /** `str(n)` for a natural number: its decimal digits without leading zeros. */
  function NatToString(n: nat): (s: string)
    ensures |s| > 0 && AllDigits(s)
    ensures s[0] == '0' ==> n == 0
  {
    if n < 10 then [DigitChar(n)] else NatToString(n / 10) + [DigitChar(n % 10)]
  }

  lemma {:induction false} NatToStringValue(n: nat)
    ensures DecimalValue(NatToString(n)) == n
  {
    if n >= 10 {
      var s := NatToString(n);
      assert s[..|s| - 1] == NatToString(n / 10);
      NatToStringValue(n / 10);
    }
  }

  /**
   * Python's `int(text)` on an optional `+` or `-` sign followed by ASCII digits.
   * `None` stands for the `ValueError` that `int` raises on anything else.
   */
  function ParseInt(s: string): Option<int> {
    if |s| > 0 && (s[0] == '+' || s[0] == '-') then
      if |s| > 1 && AllDigits(s[1..]) then
        var magnitude: int := DecimalValue(s[1..]);
        Some(if s[0] == '-' then -magnitude else magnitude)
      else None
    else if |s| > 0 && AllDigits(s) then Some(DecimalValue(s))
    else None
  }

  /** The number printed by `str(n)` is read back by `int`. */
  lemma ParseIntOfNatToString(n: nat)
    ensures ParseInt(NatToString(n)) == Some(n)
  {
    NatToStringValue(n);
  }

  /** `ParseInt` accepts exactly a signed or unsigned non-empty run of digits. */
  lemma ParseIntAccepts(s: string)
    ensures ParseInt(s).Some? <==>
              (|s| > 0 && AllDigits(s)) || (|s| > 1 && (s[0] == '+' || s[0] == '-') && AllDigits(s[1..]))
  {
  }

  /** The value of a two-digit text, digit by digit. */
  lemma DecimalValue2(t: string)
    requires |t| == 2 && AllDigits(t)
    ensures DecimalValue(t) == 10 * DigitValue(t[0]) + DigitValue(t[1])
  {
    var head := t[..1];
    assert head[..0] == [] && head[0] == t[0];
    assert DecimalValue(head) == DigitValue(t[0]);
  }

  /** The value of four digits is the value of the first two, times a hundred, plus that of the last two. */
  lemma DecimalValue4(t: string)
    requires |t| == 4 && AllDigits(t)
    ensures DecimalValue(t) == 100 * DecimalValue(t[..2]) + DecimalValue(t[2..])
  {
    var t3 := t[..3];
    assert t3[..2] == t[..2] && t3[2] == t[2];
    DecimalValue2(t[..2]);
    DecimalValue2(t[2..]);
  }

  /** `'%02d' % v` */
  function Pad2(v: nat): (s: string)
    requires v <= 99
    ensures |s| == 2 && AllDigits(s) && DecimalValue(s) == v
  {
    var s := [DigitChar(v / 10), DigitChar(v % 10)];
    DecimalValue2(s);
    s
  }

  /** `'%04d' % v`: the hundreds, then the rest, each as two digits. */
  function Pad4(v: nat): (s: string)
    requires v <= 9999
    ensures |s| == 4 && AllDigits(s) && DecimalValue(s) == v
  {
    var s := Pad2(v / 100) + Pad2(v % 100);
    assert s[..2] == Pad2(v / 100) && s[2..] == Pad2(v % 100);
    DecimalValue4(s);
    s
  }

  /** Every two-digit text is the `'%02d'` rendering of its own value. */
  lemma Pad2OfValue(t: string)
    requires |t| == 2 && AllDigits(t)
    ensures DecimalValue(t) <= 99 && Pad2(DecimalValue(t)) == t
  {
    DecimalValue2(t);
  }

  /** Every four-digit text is the `'%04d'` rendering of its own value. */
  lemma Pad4OfValue(t: string)
    requires |t| == 4 && AllDigits(t)
    ensures DecimalValue(t) <= 9999 && Pad4(DecimalValue(t)) == t
  {
    var hi, lo := t[..2], t[2..];
    DecimalValue4(t);
    Pad2OfValue(hi);
    Pad2OfValue(lo);
    var v := DecimalValue(t);
    assert v / 100 == DecimalValue(hi) && v % 100 == DecimalValue(lo);
    assert t == hi + lo;
  }

  /** Python's `sep.join(parts)`. */
  function Join(parts: seq<string>, sep: string): string {
    if |parts| == 0 then ""
    else if |parts| == 1 then parts[0]
    else parts[0] + sep + Join(parts[1..], sep)
  }

  /** Iterating a Python `str`: the one-character strings of its characters, in order. */
  function Chars(s: string): (r: seq<string>)
    ensures |r| == |s| && forall i | 0 <= i < |s| :: r[i] == [s[i]]
  {
    seq(|s|, i requires 0 <= i < |s| => [s[i]])
  }

  /**
   * `sep.join(text)` for a one-character `sep` and a non-empty `text`: the characters of
   * `text` with `sep` between each pair of neighbours.
   */
  lemma {:induction false} JoinChars(text: string, sep: char)
    requires |text| > 0
    ensures var r := Join(Chars(text), [sep]);
      && |r| == 2 * |text| - 1
      && (forall i | 0 <= i < |text| :: r[2 * i] == text[i])
      && (forall i | 0 <= i < |text| - 1 :: r[2 * i + 1] == sep)
  {
    if |text| > 1 {
      JoinChars(text[1..], sep);
      assert Chars(text)[1..] == Chars(text[1..]);
      var rest := Join(Chars(text[1..]), [sep]);
      var r := Join(Chars(text), [sep]);
      assert r == [text[0]] + [sep] + rest;
      forall i | 1 <= i < |text|
        ensures r[2 * i] == text[i]
      {
        assert r[2 * i] == rest[2 * (i - 1)];
      }
      forall i | 1 <= i < |text| - 1
        ensures r[2 * i + 1] == sep
      {
        assert r[2 * i + 1] == rest[2 * (i - 1) + 1];
      }
    }
  }

  /**
   * Python's `str.lower()` on one character, for ASCII and the Cyrillic capitals
   * U+0400..U+042F and U+0490; every other character is returned unchanged.
   */
  function LowerChar(c: char): char {
    if 'A' <= c <= 'Z' then (c as int + 0x20) as char
    else if 0x0410 <= c as int <= 0x042F then (c as int + 0x20) as char
    else if 0x0400 <= c as int <= 0x040F then (c as int + 0x50) as char
    else if c as int == 0x0490 then 0x0491 as char
    else c
  }

  function Lower(s: string): (r: string)
    ensures |r| == |s| && forall i | 0 <= i < |s| :: r[i] == LowerChar(s[i])
  {
    seq(|s|, i requires 0 <= i < |s| => LowerChar(s[i]))
  }

  /** A basic Cyrillic small letter а..я. */
  predicate IsCyrillicSmall(c: char) {
    0x0430 <= c as int <= 0x044F
  }

  /** The capital of a basic Cyrillic small letter. */
  function CyrillicCapital(c: char): char
    requires IsCyrillicSmall(c)
  {
    (c as int - 0x20) as char
  }

  /** The characters that lower-case to a basic Cyrillic small letter are that letter and its capital. */
  lemma LowerToCyrillic(c: char, w: char)
    requires IsCyrillicSmall(w)
    ensures LowerChar(c) == w <==> c == w || c == CyrillicCapital(w)
  {
  }

  /**
   * A text lower-cases to a word of basic Cyrillic small letters exactly when it spells
   * that word letter by letter in either case.
   */
  lemma LowerEqualsCyrillicWord(text: string, word: string)
    requires forall i | 0 <= i < |word| :: IsCyrillicSmall(word[i])
    ensures Lower(text) == word <==>
              |text| == |word| &&
              forall i | 0 <= i < |word| :: text[i] == word[i] || text[i] == CyrillicCapital(word[i])
  {
    if |text| == |word| {
      forall i | 0 <= i < |word|
        ensures LowerChar(text[i]) == word[i] <==> text[i] == word[i] || text[i] == CyrillicCapital(word[i])
      {
        LowerToCyrillic(text[i], word[i]);
      }
      if forall i | 0 <= i < |word| :: text[i] == word[i] || text[i] == CyrillicCapital(word[i]) {
        assert Lower(text) == word;
      }
    }
  }
}
