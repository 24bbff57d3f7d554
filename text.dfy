/** Character classes and the small string conversions the scrapers and the
    extractor rely on: Python's `str.isspace`, `str.strip`, `str.upper` on
    the Latin letters, `str.replace` of one character, `str.find`, `int()` of a
    digit string and `str()` / `format(n, '0Nd')` of an integer. */
module Text {

  predicate IsDigit(c: char) { '0' <= c <= '9' }

  predicate IsUpperAscii(c: char) { 'A' <= c <= 'Z' }

  predicate IsLowerAscii(c: char) { 'a' <= c <= 'z' }

  predicate IsLetterAscii(c: char) { IsUpperAscii(c) || IsLowerAscii(c) }

  /** The characters for which Python's `str.isspace()` holds; the `\s` class
      of a `str` regular expression is the same set. */
  predicate IsSpace(c: char) {
    var n := c as int;
    (9 <= n <= 13) || (0x1c <= n <= 0x20) || n == 0x85 || n == 0xa0 || n == 0x1680
    || (0x2000 <= n <= 0x200a) || n == 0x2028 || n == 0x2029 || n == 0x202f
    || n == 0x205f || n == 0x3000
  }

  predicate AllDigits(s: string) { forall i :: 0 <= i < |s| ==> IsDigit(s[i]) }

  function DigitValue(c: char): (v: nat)
    requires IsDigit(c)
    ensures v < 10
  {
    (c as int) - ('0' as int)
  }

  function DigitChar(v: nat): (c: char)
    requires v < 10
    ensures IsDigit(c) && DigitValue(c) == v
  {
    (('0' as int) + v) as char
  }

  /** `int(s)` for a non-empty string of ASCII digits. */
  function DigitsValue(s: string): nat
    requires AllDigits(s)
  {
    if s == [] then 0 else DigitsValue(s[..|s| - 1]) * 10 + DigitValue(s[|s| - 1])
  }

  /** The value of two digits. */
  lemma TwoDigitsValue(s: string)
    requires |s| == 2 && AllDigits(s)
    ensures DigitsValue(s) == DigitValue(s[0]) * 10 + DigitValue(s[1])
  {
    var first := s[..1];
    assert first[..0] == [] && first[0] == s[0];
    assert DigitsValue(first) == DigitValue(s[0]);
    assert DigitsValue(s) == DigitsValue(first) * 10 + DigitValue(s[1]);
  }

  /** `str(n)` for a natural number: decimal digits, no leading zero. */
  function NatToString(n: nat): (s: string)
    ensures |s| >= 1 && AllDigits(s)
    ensures |s| > 1 ==> s[0] != '0'
    decreases n
  {
    if n < 10 then [DigitChar(n)] else NatToString(n / 10) + [DigitChar(n % 10)]
  }

  lemma {:induction false} NatToStringValue(n: nat)
    ensures DigitsValue(NatToString(n)) == n
    decreases n
  {
    var s := NatToString(n);
    if n >= 10 {
      NatToStringValue(n / 10);
      assert s[..|s| - 1] == NatToString(n / 10);
    }
  }

  /** `format(n, '0{width}d')` for a natural number: `str(n)` left-padded with zeros. */
  function ZeroPad(n: nat, width: nat): (s: string)
    ensures AllDigits(s)
    ensures |s| == if |NatToString(n)| < width then width else |NatToString(n)|
  {
    var digits := NatToString(n);
    if |digits| < width then Zeros(width - |digits|) + digits else digits
  }

  function Zeros(k: nat): (s: string)
    ensures |s| == k && AllDigits(s)
    ensures forall i :: 0 <= i < k ==> s[i] == '0'
  {
    if k == 0 then [] else Zeros(k - 1) + ['0']
  }

  lemma {:induction false} LeadingZerosValue(k: nat, t: string)
    requires AllDigits(t)
    ensures AllDigits(Zeros(k) + t) && DigitsValue(Zeros(k) + t) == DigitsValue(t)
    decreases |t|
  {
    if t == [] {
      ZerosValue(k);
      assert Zeros(k) + t == Zeros(k);
    } else {
      var u := Zeros(k) + t;
      assert u[..|u| - 1] == Zeros(k) + t[..|t| - 1];
      LeadingZerosValue(k, t[..|t| - 1]);
    }
  }

  lemma {:induction false} ZerosValue(k: nat)
    ensures DigitsValue(Zeros(k)) == 0
  {
    if k > 0 {
      assert Zeros(k)[..k - 1] == Zeros(k - 1);
      ZerosValue(k - 1);
    }
  }

  lemma ZeroPadValue(n: nat, width: nat)
    ensures DigitsValue(ZeroPad(n, width)) == n
  {
    NatToStringValue(n);
    var digits := NatToString(n);
    if |digits| < width {
      LeadingZerosValue(width - |digits|, digits);
    }
  }

  function Pow10(k: nat): (p: nat)
    ensures p >= 1
  {
    if k == 0 then 1 else 10 * Pow10(k - 1)
  }

  lemma {:induction false} DigitsValueBound(s: string)
    requires AllDigits(s)
    ensures DigitsValue(s) < Pow10(|s|)
    decreases |s|
  {
    if s != [] {
      DigitsValueBound(s[..|s| - 1]);
    }
  }

  /** Two digit strings of the same length with the same value are equal. */
  lemma {:induction false} DigitsValueInjective(a: string, b: string)
    requires AllDigits(a) && AllDigits(b) && |a| == |b|
    requires DigitsValue(a) == DigitsValue(b)
    ensures a == b
    decreases |a|
  {
    if a != [] {
      var a', b' := a[..|a| - 1], b[..|b| - 1];
      assert DigitValue(a[|a| - 1]) == DigitsValue(a) % 10 && DigitsValue(a') == DigitsValue(a) / 10;
      assert DigitValue(b[|b| - 1]) == DigitsValue(b) % 10 && DigitsValue(b') == DigitsValue(b) / 10;
      DigitsValueInjective(a', b');
      assert a[|a| - 1] == b[|b| - 1];
      assert a == a' + [a[|a| - 1]] && b == b' + [b[|b| - 1]];
    }
  }

  lemma {:induction false} NatToStringLength(n: nat, k: nat)
    requires k >= 1 && n < Pow10(k)
    ensures |NatToString(n)| <= k
    decreases n
  {
    if n >= 10 {
      assert k >= 2;
      NatToStringLength(n / 10, k - 1);
    }
  }

  /** A `k`-digit string is what `format(int(s), '0{k}d')` gives back. */
  lemma ZeroPadOfDigits(s: string)
    requires |s| >= 1 && AllDigits(s)
    ensures ZeroPad(DigitsValue(s), |s|) == s
  {
    var v := DigitsValue(s);
    DigitsValueBound(s);
    NatToStringLength(v, |s|);
    ZeroPadValue(v, |s|);
    DigitsValueInjective(ZeroPad(v, |s|), s);
  }

  /** The value of two digit strings written one after the other. */
  lemma {:induction false} DigitsValueConcat(a: string, b: string)
    requires AllDigits(a) && AllDigits(b)
    ensures AllDigits(a + b) && DigitsValue(a + b) == DigitsValue(a) * Pow10(|b|) + DigitsValue(b)
    decreases |b|
  {
    if b == [] {
      assert a + b == a;
    } else {
      var b', d := b[..|b| - 1], DigitValue(b[|b| - 1]);
      assert (a + b)[..|a + b| - 1] == a + b' && (a + b)[|a + b| - 1] == b[|b| - 1];
      DigitsValueConcat(a, b');
      var x, p := DigitsValue(a), Pow10(|b'|);
      assert DigitsValue(a + b) == (x * p + DigitsValue(b')) * 10 + d;
      assert Pow10(|b|) == p * 10;
      assert DigitsValue(b) == DigitsValue(b') * 10 + d;
      AppendDigit(x, p, DigitsValue(b'), d);
    }
  }

  lemma AppendDigit(x: int, p: int, y: int, d: int)
    ensures (x * p + y) * 10 + d == x * (p * 10) + (y * 10 + d)
  {
  }

  /** A run of digits ends where the first non-digit starts: two digit
      strings followed by text starting with a non-digit are split apart
      in only one way. */
  lemma DigitPrefixUnique(x: string, u: string, y: string, v: string)
    requires AllDigits(x) && AllDigits(y) && x + u == y + v
    requires u != [] && v != [] && !IsDigit(u[0]) && !IsDigit(v[0])
    ensures x == y && u == v
  {
    assert (x + u)[|x|] == u[0] && (y + v)[|y|] == v[0];
    assert x == (x + u)[..|x|] && y == (y + v)[..|y|];
    assert u == (x + u)[|x|..] && v == (y + v)[|y|..];
  }

  /** `str(i)` for an integer. */
  function IntToString(i: int): (s: string)
    ensures |s| >= 1
  {
    if i < 0 then "-" + NatToString(-i) else NatToString(i)
  }

  /** `format(i, '03d')`: the sign counts toward the width of three. */
  function Format03(i: int): (s: string)
    ensures |s| >= 3
  {
    if i < 0 then "-" + ZeroPad(-i, 2) else ZeroPad(i, 3)
  }

  /** The string with every occurrence of `c` removed (`s.replace(c, '')`). */
  function RemoveChar(s: string, c: char): (r: string)
    ensures c !in r
    ensures forall x :: x != c ==> multiset(r)[x] == multiset(s)[x]
  {
    if s == [] then []
    else
      var rest := RemoveChar(s[1..], c);
      assert s == [s[0]] + s[1..];
      if s[0] == c then rest else [s[0]] + rest
  }

  lemma {:induction false} RemoveCharConcat(a: string, b: string, c: char)
    ensures RemoveChar(a + b, c) == RemoveChar(a, c) + RemoveChar(b, c)
    decreases |a|
  {
    if a == [] {
      assert a + b == b;
    } else {
      assert (a + b)[0] == a[0] && (a + b)[1..] == a[1..] + b;
      RemoveCharConcat(a[1..], b, c);
    }
  }

  lemma {:induction false} RemoveCharAbsent(s: string, c: char)
    requires c !in s
    ensures RemoveChar(s, c) == s
    decreases |s|
  {
    if s != [] {
      assert s[0] != c;
      RemoveCharAbsent(s[1..], c);
      assert s == [s[0]] + s[1..];
    }
  }

  /** `s.replace(a, b)` for single characters. */
  function ReplaceChar(s: string, a: char, b: char): (r: string)
    ensures |r| == |s|
    ensures forall i :: 0 <= i < |s| ==> r[i] == (if s[i] == a then b else s[i])
  {
    seq(|s|, i requires 0 <= i < |s| => if s[i] == a then b else s[i])
  }

  /** `c.upper()` for a character of the Basic Latin, Latin-1 Supplement and
      Latin Extended-A blocks (U+0000 to U+017F), following Unicode's full
      case mapping: `ß` becomes `SS` and `ŉ` becomes `ʼN`, `ÿ` becomes `Ÿ`,
      `µ` the Greek capital Mu, the dotless `ı` and the long `ſ` become `I`
      and `S`, and each lower-case letter of a case pair (`ą`, `ł`, `ó`, `ż`,
      ...) its capital. Every other character is kept. */
  function UpperChar(c: char): (r: string)
    ensures 1 <= |r| <= 2
    ensures |r| == 2 <==> c == 'ß' || c == 'ŉ'
    ensures IsLowerAscii(c) ==> r == [(c as int - 32) as char]
    ensures !IsLowerAscii(c) && c as int < 0x80 ==> r == [c]
  {
    UpperChar1(c)
  }

  /** Every character `c.upper()` produces is already upper case. */
  lemma UpperCharFixed(c: char)
    ensures forall k :: 0 <= k < |UpperChar(c)| ==> UpperChar(UpperChar(c)[k]) == [UpperChar(c)[k]]
  {
  }

  function UpperChar1(c: char): string {
    var n := c as int;
    if 'a' <= c <= 'z' then [(n - 32) as char]
    else if n == 0xb5 then ['\U{39C}']
    else if n == 0xdf then "SS"
    else if 0xe0 <= n <= 0xfe && n != 0xf7 then [(n - 32) as char]
    else if n == 0xff then ['\U{178}']
    else if n == 0x131 then "I"
    else if n == 0x149 then ['\U{2BC}', 'N']
    else if n == 0x17f then "S"
    else if ((0x100 <= n <= 0x12f || 0x132 <= n <= 0x137 || 0x14a <= n <= 0x177) && n % 2 == 1)
         || ((0x139 <= n <= 0x148 || 0x179 <= n <= 0x17e) && n % 2 == 0) then [(n - 1) as char]
    else [c]
  }

  /** `s.upper()`, character by character, as `UpperChar` gives it. */
  function Upper(s: string): (r: string)
    ensures |r| >= |s|
  {
    if s == [] then [] else Upper(s[..|s| - 1]) + UpperChar(s[|s| - 1])
  }

  /** Every character of `s.upper()` is already upper case. */
  lemma {:induction false} UpperAllFixed(s: string)
    ensures forall k :: 0 <= k < |Upper(s)| ==> UpperChar(Upper(s)[k]) == [Upper(s)[k]]
    decreases |s|
  {
    if s != [] {
      var front, last := s[..|s| - 1], s[|s| - 1];
      UpperAllFixed(front);
      UpperCharFixed(last);
      assert Upper(s) == Upper(front) + UpperChar(last);
    }
  }

  /** Upper-casing works piece by piece. */
  lemma {:induction false} UpperConcat(a: string, b: string)
    ensures Upper(a + b) == Upper(a) + Upper(b)
    decreases |b|
  {
    if b == [] {
      assert a + b == a;
    } else {
      var front, last := b[..|b| - 1], b[|b| - 1];
      var tail := UpperChar(last);
      calc {
        Upper(a + b);
        == { assert (a + b)[..|a + b| - 1] == a + front && (a + b)[|a + b| - 1] == last; }
        Upper(a + front) + tail;
        == { UpperConcat(a, front); }
        (Upper(a) + Upper(front)) + tail;
        Upper(a) + (Upper(front) + tail);
      }
    }
  }

  /** A text of upper-case characters is its own upper case. */
  lemma {:induction false} UpperFixed(r: string)
    requires forall k :: 0 <= k < |r| ==> UpperChar(r[k]) == [r[k]]
    ensures Upper(r) == r
    decreases |r|
  {
    if r != [] {
      UpperFixed(r[..|r| - 1]);
      assert r == r[..|r| - 1] + [r[|r| - 1]];
    }
  }

  /** Upper-casing twice is upper-casing once. */
  lemma UpperIdempotent(s: string)
    ensures Upper(Upper(s)) == Upper(s)
  {
    UpperAllFixed(s);
    UpperFixed(Upper(s));
  }

  /** A text without `ß` and `ŉ` keeps its length, and each character is
      upper-cased in place. */
  lemma {:induction false} UpperSameLength(s: string)
    requires forall k :: 0 <= k < |s| ==> s[k] != 'ß' && s[k] != 'ŉ'
    ensures |Upper(s)| == |s|
    ensures forall k :: 0 <= k < |s| ==> Upper(s)[k] == UpperChar(s[k])[0]
    decreases |s|
  {
    if s != [] {
      UpperSameLength(s[..|s| - 1]);
    }
  }

  /** `ß` widens to `SS`, so a two-letter cell can become a three-letter code
      and a three-letter cell a four-letter one; Polish letters are raised. */
  lemma UpperExamples()
    ensures Upper("waß") == "WASS"
    ensures Upper("ßa") == "SSA"
    ensures Upper("łód") == "ŁÓD"
  {
    UpperSharpS();
    UpperPolish();
  }

  lemma UpperSharpS()
    ensures Upper("waß") == "WASS" && Upper("ßa") == "SSA"
  {
    assert "waß"[..2] == "wa" && "wa"[..1] == "w" && "w"[..0] == [];
    assert Upper("wa") == "WA";
    assert "ßa"[..1] == "ß" && "ß"[..0] == [];
    assert Upper("ß") == "SS";
  }

  lemma UpperPolish()
    ensures Upper("łód") == "ŁÓD"
  {
    assert "łód"[..2] == "łó" && "łó"[..1] == "ł" && "ł"[..0] == [];
    assert Upper("łó") == "ŁÓ";
  }

  /** Number of leading whitespace characters. */
  function LeadingSpace(s: string): (k: nat)
    ensures k <= |s|
    ensures forall i :: 0 <= i < k ==> IsSpace(s[i])
    ensures k < |s| ==> !IsSpace(s[k])
  {
    if s != [] && IsSpace(s[0]) then 1 + LeadingSpace(s[1..]) else 0
  }

  /** Number of trailing whitespace characters. */
  function TrailingSpace(s: string): (k: nat)
    ensures k <= |s|
    ensures forall i :: |s| - k <= i < |s| ==> IsSpace(s[i])
    ensures k < |s| ==> !IsSpace(s[|s| - 1 - k])
  {
    if s != [] && IsSpace(s[|s| - 1]) then 1 + TrailingSpace(s[..|s| - 1]) else 0
  }

  /** `s.strip()`: whitespace removed from both ends. */
  function Strip(s: string): (r: string)
    ensures r == [] || (!IsSpace(r[0]) && !IsSpace(r[|r| - 1]))
    ensures exists i, j :: 0 <= i <= j <= |s| && r == s[i..j]
                           && (forall k :: 0 <= k < i ==> IsSpace(s[k]))
                           && (forall k :: j <= k < |s| ==> IsSpace(s[k]))
  {
    var a := LeadingSpace(s);
    var t := s[a..];
    var b := TrailingSpace(t);
    assert t[..|t| - b] == s[a..|s| - b];
    t[..|t| - b]
  }

  predicate OccursAt(text: string, pat: string, i: nat) {
    i + |pat| <= |text| && text[i..i + |pat|] == pat
  }

  /** An occurrence of `pat` at `i` starts with the pattern's first character. */
  lemma OccursAtHead(text: string, pat: string, i: nat)
    requires pat != [] && OccursAt(text, pat, i)
    ensures text[i] == pat[0]
  {
    assert text[i..i + |pat|][0] == pat[0];
  }

  /** `text.find(pat)` for a non-empty pattern: the first index, or -1. */
  function Find(text: string, pat: string): (k: int)
    requires pat != []
    ensures -1 <= k <= |text|
    ensures k >= 0 ==> OccursAt(text, pat, k) && forall i :: 0 <= i < k ==> !OccursAt(text, pat, i)
    ensures k == -1 ==> forall i :: 0 <= i <= |text| ==> !OccursAt(text, pat, i)
  {
    FindFrom(text, pat, 0)
  }

  function FindFrom(text: string, pat: string, from: nat): (k: int)
    requires pat != []
    ensures k == -1 || from <= k <= |text|
    ensures k >= 0 ==> OccursAt(text, pat, k) && forall i :: from <= i < k ==> !OccursAt(text, pat, i)
    ensures k == -1 ==> forall i :: from <= i <= |text| ==> !OccursAt(text, pat, i)
    decreases |text| - from
  {
    if from + |pat| > |text| then -1
    else if text[from..from + |pat|] == pat then from
    else FindFrom(text, pat, from + 1)
  }

  /** `pat in text` for a non-empty pattern. */
  predicate Contains(text: string, pat: string)
    requires pat != []
  {
    Find(text, pat) >= 0
  }
}
