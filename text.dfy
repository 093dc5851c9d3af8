/**
  Text helpers shared by the models: Python's `str.isdigit()`, `int(str)`,
  `str.lstrip("0")`, `str.lower()` and the `in` test on strings.
  Digits and whitespace are the ASCII ones; Python's are the Unicode classes.
 */
module Text {
  import opened Wrappers

  predicate IsDigit(c: char) { '0' <= c <= '9' }

  /** Python's `str.isspace()` restricted to ASCII: blank, tab to carriage return, and the four separators U+001C to U+001F. */
  predicate IsSpace(c: char) {
    c == ' ' || '\t' <= c <= '\r' || '\U{1C}' <= c <= '\U{1F}'
  }

  predicate AllDigits(s: string) { forall i :: 0 <= i < |s| ==> IsDigit(s[i]) }

  /** Python's `s.isdigit()`: at least one character, and all of them digits. */
  predicate IsDigitString(s: string) { |s| > 0 && AllDigits(s) }

  function DigitValue(c: char): (d: nat)
    requires IsDigit(c)
    ensures d < 10
  {
    (c as int) - ('0' as int)
  }

  function DigitChar(d: nat): (c: char)
    requires d < 10
    ensures IsDigit(c) && DigitValue(c) == d
  {
    (('0' as int) + d) as char
  }

  /** The number a string of digits spells, leading zeros allowed. */
  function DigitsValue(s: string): nat
    requires AllDigits(s)
  {
    if s == [] then 0 else DigitsValue(s[..|s| - 1]) * 10 + DigitValue(s[|s| - 1])
  }

  /** The canonical decimal spelling of n: no leading zero unless n is 0. */
  function Decimal(n: nat): (s: string)
    ensures IsDigitString(s)
    ensures s[0] != '0' || n == 0
    decreases n
  {
    if n < 10 then [DigitChar(n)] else Decimal(n / 10) + [DigitChar(n % 10)]
  }

  /** Reading back a printed number gives the number. */
  lemma {:induction false} DecimalValue(n: nat)
    ensures DigitsValue(Decimal(n)) == n
    decreases n
  {
    if n >= 10 {
      var s := Decimal(n);
      assert s[..|s| - 1] == Decimal(n / 10);
      DecimalValue(n / 10);
    }
  }

  /** k copies of c: leading zeros or padding blanks. */
  function Repeat(c: char, k: nat): (s: string)
    ensures |s| == k && forall i :: 0 <= i < k ==> s[i] == c
  {
    seq(k, _ => c)
  }

  lemma {:induction false} ZerosValue(k: nat)
    ensures AllDigits(Repeat('0', k)) && DigitsValue(Repeat('0', k)) == 0
  {
    if k > 0 {
      assert Repeat('0', k)[..k - 1] == Repeat('0', k - 1);
      ZerosValue(k - 1);
    }
  }

  /** Leading zeros do not change the value of a digit string. */
  lemma {:induction false} LeadingZerosValue(k: nat, s: string)
    requires AllDigits(s)
    ensures AllDigits(Repeat('0', k) + s) && DigitsValue(Repeat('0', k) + s) == DigitsValue(s)
    decreases |s|
  {
    var t := Repeat('0', k) + s;
    if s == [] {
      assert t == Repeat('0', k);
      ZerosValue(k);
    } else {
      assert t[..|t| - 1] == Repeat('0', k) + s[..|s| - 1];
      assert t[|t| - 1] == s[|s| - 1];
      LeadingZerosValue(k, s[..|s| - 1]);
    }
  }

  /** Python's `s.lstrip("0")`. */
  function LStripZeros(s: string): string
  {
    if s != [] && s[0] == '0' then LStripZeros(s[1..]) else s
  }

  /** Stripping the zeros in front of a string that does not start with one gives the string. */
  lemma {:induction false} LStripZerosPadded(k: nat, s: string)
    requires s == [] || s[0] != '0'
    ensures LStripZeros(Repeat('0', k) + s) == s
  {
    if k == 0 {
      assert Repeat('0', k) + s == s;
    } else {
      assert (Repeat('0', k) + s)[1..] == Repeat('0', k - 1) + s;
      LStripZerosPadded(k - 1, s);
    }
  }

  function LStripSpace(s: string): string
  {
    if s != [] && IsSpace(s[0]) then LStripSpace(s[1..]) else s
  }

  function RStripSpace(s: string): string
  {
    if s != [] && IsSpace(s[|s| - 1]) then RStripSpace(s[..|s| - 1]) else s
  }

  /** Python's `s.strip()` with ASCII whitespace. */
  function Strip(s: string): string
  {
    RStripSpace(LStripSpace(s))
  }

  lemma {:induction false} LStripSpacePadded(k: nat, s: string)
    requires s == [] || !IsSpace(s[0])
    ensures LStripSpace(Repeat(' ', k) + s) == s
  {
    if k == 0 {
      assert Repeat(' ', k) + s == s;
    } else {
      assert (Repeat(' ', k) + s)[1..] == Repeat(' ', k - 1) + s;
      LStripSpacePadded(k - 1, s);
    }
  }

  lemma {:induction false} RStripSpacePadded(s: string, k: nat)
    requires s == [] || !IsSpace(s[|s| - 1])
    ensures RStripSpace(s + Repeat(' ', k)) == s
  {
    if k == 0 {
      assert s + Repeat(' ', k) == s;
    } else {
      assert (s + Repeat(' ', k))[..|s| + k - 1] == s + Repeat(' ', k - 1);
      RStripSpacePadded(s, k - 1);
    }
  }

  /** Whitespace around a word is what `strip()` removes, and nothing else. */
  lemma StripPadded(before: nat, s: string, after: nat)
    requires s != [] && !IsSpace(s[0]) && !IsSpace(s[|s| - 1])
    ensures Strip(Repeat(' ', before) + s + Repeat(' ', after)) == s
  {
    assert Repeat(' ', before) + s + Repeat(' ', after) == Repeat(' ', before) + (s + Repeat(' ', after));
    LStripSpacePadded(before, s + Repeat(' ', after));
    RStripSpacePadded(s, after);
  }

  /**
    Python's `int(s)` on a string: surrounding whitespace, an optional sign and
    at least one digit; anything else raises ValueError, here None.
   */
  function ParseInt(s: string): (r: Option<int>)
    ensures IsDigitString(s) ==> r == Some(DigitsValue(s))
  {
    var t := Strip(s);
    assert IsDigitString(s) ==> t == s by {
      if IsDigitString(s) {
        assert !IsSpace(s[0]) && !IsSpace(s[|s| - 1]);
        StripPadded(0, s, 0);
        assert Repeat(' ', 0) + s + Repeat(' ', 0) == s;
      }
    }
    if IsDigitString(t) then Some(DigitsValue(t))
    else if |t| >= 2 && t[0] == '+' && IsDigitString(t[1..]) then Some(DigitsValue(t[1..]))
    else if |t| >= 2 && t[0] == '-' && IsDigitString(t[1..]) then Some(0 - DigitsValue(t[1..]))
    else None
  }

  /** `int()` reads a printed number back, with or without a sign and surrounding blanks. */
  lemma ParseIntSpelled(n: int, plus: bool, before: nat, after: nat)
    ensures ParseInt(Repeat(' ', before) + (if n < 0 then "-" else if plus then "+" else "") + Decimal(if n < 0 then -n else n) + Repeat(' ', after)) == Some(n)
  {
    var m: nat := if n < 0 then -n else n;
    var sign := if n < 0 then "-" else if plus then "+" else "";
    var w := sign + Decimal(m);
    var s := Repeat(' ', before) + sign + Decimal(m) + Repeat(' ', after);
    DecimalValue(m);
    assert w[|w| - 1] == Decimal(m)[|Decimal(m)| - 1];
    assert s == Repeat(' ', before) + w + Repeat(' ', after);
    StripPadded(before, w, after);
    assert Strip(s) == w;
    if sign == "" {
      assert w == Decimal(m);
    } else {
      assert w[1..] == Decimal(m);
      assert !IsDigitString(w) by { assert !IsDigit(w[0]); }
      assert |w| >= 2;
    }
  }

  /** `needle` occurs in `hay` starting at index i. */
  ghost predicate OccursAt(hay: string, needle: string, i: int)
  {
    0 <= i && i + |needle| <= |hay| && hay[i..i + |needle|] == needle
  }

  /** Python's `needle in hay` on strings. */
  function Contains(hay: string, needle: string): (b: bool)
    ensures b <==> exists i :: OccursAt(hay, needle, i)
    decreases |hay|
  {
    if needle <= hay then
      assert OccursAt(hay, needle, 0);
      true
    else if hay == [] then
      false
    else
      var rest := Contains(hay[1..], needle);
      assert !OccursAt(hay, needle, 0);
      assert forall i :: OccursAt(hay[1..], needle, i) ==> OccursAt(hay, needle, i + 1) by {
        forall i | OccursAt(hay[1..], needle, i) ensures OccursAt(hay, needle, i + 1) {
          assert hay[i + 1..i + 1 + |needle|] == hay[1..][i..i + |needle|];
        }
      }
      assert forall i :: OccursAt(hay, needle, i) ==> i > 0 && OccursAt(hay[1..], needle, i - 1) by {
        forall i | OccursAt(hay, needle, i) ensures i > 0 && OccursAt(hay[1..], needle, i - 1) {
          assert hay[1..][i - 1..i - 1 + |needle|] == hay[i..i + |needle|];
        }
      }
      rest
  }

  /** A text containing a word contains every piece of that word. */
  lemma ContainsTransitive(hay: string, word: string, piece: string)
    requires Contains(hay, word) && Contains(word, piece)
    ensures Contains(hay, piece)
  {
    var i :| OccursAt(hay, word, i);
    var j :| OccursAt(word, piece, j);
    forall k | 0 <= k < |piece| ensures hay[i + j + k] == piece[k] {
      assert hay[i..i + |word|][j + k] == word[j + k];
      assert word[j..j + |piece|][k] == piece[k];
    }
    assert hay[i + j..i + j + |piece|] == piece;
    assert OccursAt(hay, piece, i + j);
  }

  /** Python's `str.lower()` on one character, for ASCII and Cyrillic capitals. */
  function LowerChar(c: char): char
  {
    if 'A' <= c <= 'Z' || '\U{410}' <= c <= '\U{42F}' then ((c as int) + 32) as char
    else if '\U{400}' <= c <= '\U{40F}' then ((c as int) + 80) as char
    else c
  }

  /** Python's `str.lower()` for ASCII and Cyrillic text. */
  function Lower(s: string): string
  {
    seq(|s|, i requires 0 <= i < |s| => LowerChar(s[i]))
  }
}
