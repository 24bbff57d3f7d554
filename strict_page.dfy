/** A page whose whole text is the strict price phrase
    `<digits> zł / osoba <digits> zł łącznie`: the first price pattern
    matches it at the start, and the offer carries both amounts. Each
    step of the match is stated as its own small lemma about one matcher. */
module StrictPage {
  import opened Wrappers
  import opened Text
  import opened Patterns
  import opened OfferLocator

  /** Plain digits `[i, e)` followed by ` zł`: an amount match ending after `zł`. */
  lemma AmountShape(t: string, i: nat, e: nat)
    requires i < e && e + 3 <= |t| && forall k :: i <= k < e ==> IsDigit(t[k])
    requires t[e] == ' ' && t[e + 1] == 'z' && t[e + 2] == 'ł'
    ensures AmountZl(t, i, true) == Some(AmountMatch(e, e + 3))
  {
    SkipDigitsRun(t, i, e);
    SkipSpaceRun(t, e, e + 1);
    assert Groups(t, e) == e;
    assert AmountEnd(t, i) == Some(e);
    assert CiAt(t, e + 1, "zł");
  }

  // The slash-and-`osoba` tail succeeds once the slash and the word follow their whitespace runs.
  lemma SlashOsobaParts(t: string, j: nat, s: nat, o: nat)
    requires j <= |t| && SkipSpace(t, j) == s && s < |t| && t[s] == '/'
    requires SkipSpace(t, s + 1) == o && CiAt(t, o, "osoba")
    ensures SlashOsobaAt(t, j) == Some(o + 5)
  {
  }

  /** The per-person part is an amount with `zł` followed by the slash-and-`osoba` tail. */
  lemma PerPersonParts(t: string, i: nat, m: AmountMatch, o: nat)
    requires i <= |t| && AmountZl(t, i, true) == Some(m) && m.end <= |t| && SlashOsobaAt(t, m.end) == Some(o)
    ensures PerPersonAt(t, i).Some? && PerPersonAt(t, i).value.0.amountEnd == m.amountEnd
            && PerPersonAt(t, i).value.1 == o
  {
  }

  /** The total part is an amount with `zł` followed by `łącznie`. */
  lemma TotalParts(t: string, k: nat, m: AmountMatch, l: nat)
    requires k <= |t| && AmountZl(t, k, true) == Some(m)
    requires m.end <= |t| && SkipSpace(t, m.end) == l && CiAt(t, l, "łącznie")
    ensures TotalAt(t, k).Some? && TotalAt(t, k).value.amountEnd == m.amountEnd && TotalAt(t, k).value.end == l + 7
  {
  }

  /** Pattern 1 at the start: the per-person part, a non-empty whitespace run, then the total. */
  lemma Pattern1Parts(t: string, a: nat, o: nat, w: nat, b: nat, e: nat)
    requires PerPersonAt(t, 0).Some? && PerPersonAt(t, 0).value.0.amountEnd == a && PerPersonAt(t, 0).value.1 == o
    requires o <= |t| && SkipSpace(t, o) == w && w != o
    requires TotalAt(t, w).Some? && TotalAt(t, w).value.amountEnd == b && TotalAt(t, w).value.end == e
    ensures Pattern1At(t, 0) == Some(PriceMatch(0, a, w, b, e))
  {
  }

  /** `osoba` written in lower case matches ignoring case. */
  lemma OsobaAt(t: string, o: nat)
    requires o + 5 <= |t| && t[o] == 'o' && t[o + 1] == 's' && t[o + 2] == 'o' && t[o + 3] == 'b' && t[o + 4] == 'a'
    ensures CiAt(t, o, "osoba")
  {
  }

  /** `łącznie` written in lower case matches ignoring case. */
  lemma LacznieAt(t: string, l: nat)
    requires l + 7 <= |t| && t[l] == 'ł' && t[l + 1] == 'ą' && t[l + 2] == 'c' && t[l + 3] == 'z'
    requires t[l + 4] == 'n' && t[l + 5] == 'i' && t[l + 6] == 'e'
    ensures CiAt(t, l, "łącznie")
  {
  }

  // The text ` / osoba` at `j` is the slash-and-`osoba` tail, ending after `osoba`.
  lemma SlashOsobaShape(t: string, j: nat)
    requires j + 8 <= |t| && t[j] == ' ' && t[j + 1] == '/' && t[j + 2] == ' '
    requires t[j + 3] == 'o' && t[j + 4] == 's' && t[j + 5] == 'o' && t[j + 6] == 'b' && t[j + 7] == 'a'
    ensures SlashOsobaAt(t, j) == Some(j + 8)
  {
    SkipSpaceRun(t, j, j + 1);
    SkipSpaceRun(t, j + 2, j + 3);
    OsobaAt(t, j + 3);
    SlashOsobaParts(t, j, j + 1, j + 3);
  }

  /** Digits `[0, p)` then ` zł / osoba`: the per-person part ends after `osoba`. */
  lemma PerPersonShape(t: string, p: nat)
    requires 0 < p && p + 11 <= |t| && forall k :: 0 <= k < p ==> IsDigit(t[k])
    requires t[p] == ' ' && t[p + 1] == 'z' && t[p + 2] == 'ł' && t[p + 3] == ' ' && t[p + 4] == '/'
    requires t[p + 5] == ' ' && t[p + 6] == 'o' && t[p + 7] == 's' && t[p + 8] == 'o' && t[p + 9] == 'b' && t[p + 10] == 'a'
    ensures PerPersonAt(t, 0).Some? && PerPersonAt(t, 0).value.0.amountEnd == p && PerPersonAt(t, 0).value.1 == p + 11
  {
    AmountShape(t, 0, p);
    SlashOsobaShape(t, p + 3);
    PerPersonParts(t, 0, AmountMatch(p, p + 3), p + 11);
  }

  /** The text ` łącznie` at `j`: one space, then the word. */
  lemma LacznieTail(t: string, j: nat)
    requires j + 8 <= |t| && t[j] == ' ' && t[j + 1] == 'ł' && t[j + 2] == 'ą' && t[j + 3] == 'c'
    requires t[j + 4] == 'z' && t[j + 5] == 'n' && t[j + 6] == 'i' && t[j + 7] == 'e'
    ensures SkipSpace(t, j) == j + 1 && CiAt(t, j + 1, "łącznie")
  {
    SkipSpaceRun(t, j, j + 1);
    LacznieAt(t, j + 1);
  }

  /** Digits `[q, e)` then ` zł łącznie`: the total part ends after `łącznie`. */
  lemma TotalShape(t: string, q: nat, e: nat)
    requires q < e && e + 11 <= |t| && forall k :: q <= k < e ==> IsDigit(t[k])
    requires t[e] == ' ' && t[e + 1] == 'z' && t[e + 2] == 'ł' && t[e + 3] == ' '
    requires t[e + 4] == 'ł' && t[e + 5] == 'ą' && t[e + 6] == 'c' && t[e + 7] == 'z' && t[e + 8] == 'n' && t[e + 9] == 'i' && t[e + 10] == 'e'
    ensures TotalAt(t, q).Some? && TotalAt(t, q).value.amountEnd == e && TotalAt(t, q).value.end == e + 11
  {
    AmountShape(t, q, e);
    LacznieTail(t, e + 3);
    TotalParts(t, q, AmountMatch(e, e + 3), e + 4);
  }

  /** A page that is exactly `<digits> zł / osoba <digits> zł łącznie`, the
      per-person digits at `[0, p)` and the total's at `[p + 12, e)`. */
  predicate PlainStrictPage(t: string, p: nat, e: nat) {
    0 < p && p + 12 < e && e + 11 == |t|
    && (forall k :: 0 <= k < p ==> IsDigit(t[k]))
    && t[p] == ' ' && t[p + 1] == 'z' && t[p + 2] == 'ł' && t[p + 3] == ' ' && t[p + 4] == '/'
    && t[p + 5] == ' ' && t[p + 6] == 'o' && t[p + 7] == 's' && t[p + 8] == 'o' && t[p + 9] == 'b' && t[p + 10] == 'a'
    && t[p + 11] == ' ' && (forall k :: p + 12 <= k < e ==> IsDigit(t[k]))
    && t[e] == ' ' && t[e + 1] == 'z' && t[e + 2] == 'ł' && t[e + 3] == ' '
    && t[e + 4] == 'ł' && t[e + 5] == 'ą' && t[e + 6] == 'c' && t[e + 7] == 'z' && t[e + 8] == 'n' && t[e + 9] == 'i' && t[e + 10] == 'e'
  }

  /** Pattern 1 matches the whole strict page at its start. */
  lemma Pattern1Shape(t: string, p: nat, e: nat)
    requires PlainStrictPage(t, p, e)
    ensures Pattern1At(t, 0) == Some(PriceMatch(0, p, p + 12, e, |t|))
  {
    PerPersonShape(t, p);
    SkipSpaceRun(t, p + 11, p + 12);
    TotalShape(t, p + 12, e);
    Pattern1Parts(t, p, p + 11, p + 12, e, |t|);
  }

  /** Both amount groups of a strict page are plain digits. */
  lemma PlainStrictPageDigits(t: string, p: nat, e: nat)
    requires PlainStrictPage(t, p, e)
    ensures AllDigits(t[0..p]) && AllDigits(t[p + 12..e])
  {
  }

  /** A search whose first position has a result stops there. */
  lemma FirstFromStart<T>(f: nat -> Option<T>, n: nat)
    requires f(0).Some?
    ensures FirstFrom(f, 0, n) == Some(0)
  {
  }

  /** When pattern 1 matches at the start, the search for it stops there. */
  lemma SearchAtStart(t: string)
    requires Pattern1At(t, 0).Some?
    ensures PriceSearch(1, t, 0) == Pattern1At(t, 0)
  {
    assert PriceAt(1, t, 0) == Pattern1At(t, 0);
    assert PricesOf(1, t)(0).Some?;
    FirstFromStart(PricesOf(1, t), |t|);
  }

  /** When pattern 1 matches at the start, that is the page's first price match. */
  lemma MatchAtStart(t: string)
    requires Pattern1At(t, 0).Some?
    ensures FirstPriceMatch(t, 1) == Pattern1At(t, 0)
  {
    SearchAtStart(t);
  }

  /** An amount group without spaces converts to the value of its digits. */
  lemma PlainAmount(g: string)
    requires g != [] && AllDigits(g)
    ensures ParseAmount(g) == Some(DigitsValue(g))
  {
    RemoveCharAbsent(g, ' ');
  }

  /** A pattern 1 match over the whole page with plain-digit groups gives
      the offer of both values, its excerpt being the whole page. */
  lemma PlainStrictOffer(t: string, a: nat, q: nat, e: nat)
    requires Pattern1At(t, 0) == Some(PriceMatch(0, a, q, e, |t|))
    requires 0 < a <= q < e <= |t| && AllDigits(t[0..a]) && AllDigits(t[q..e])
    ensures FirstOffer(t) == Some(Offer(t, DigitsValue(t[0..a]), DigitsValue(t[q..e])))
  {
    MatchAtStart(t);
    PlainAmount(t[0..a]);
    PlainAmount(t[q..e]);
    assert t[0..|t|] == t;
  }

  /** The value of the four digits at `i`. */
  lemma DigitsValueFour(t: string, i: nat)
    requires i + 4 <= |t| && forall k :: i <= k < i + 4 ==> IsDigit(t[k])
    ensures AllDigits(t[i..i + 4])
    ensures DigitsValue(t[i..i + 4]) == DigitValue(t[i]) * 1000 + DigitValue(t[i + 1]) * 100 + DigitValue(t[i + 2]) * 10 + DigitValue(t[i + 3])
  {
    var s := t[i..i + 4];
    assert s[..1][..0] == [];
    assert DigitsValue(s[..1]) == DigitValue(s[0]);
    assert s[..2][..1] == s[..1];
    assert DigitsValue(s[..2]) == DigitValue(s[0]) * 10 + DigitValue(s[1]);
    assert s[..3][..2] == s[..2];
    assert DigitsValue(s[..3]) == DigitValue(s[0]) * 100 + DigitValue(s[1]) * 10 + DigitValue(s[2]);
  }

  /** The offer of a strict page: the per-person and total amounts as written. */
  lemma PlainStrictPageOffer(t: string, p: nat, e: nat)
    requires PlainStrictPage(t, p, e)
    ensures AllDigits(t[0..p]) && AllDigits(t[p + 12..e])
    ensures FirstOffer(t) == Some(Offer(t, DigitsValue(t[0..p]), DigitsValue(t[p + 12..e])))
  {
    Pattern1Shape(t, p, e);
    PlainStrictPageDigits(t, p, e);
    PlainStrictOffer(t, p, p + 12, e);
  }

  // The layout of the worked example, character by character. The facts are
  // split over five small lemmas only to keep each proof cheap for the
  // solver: stated in one lemma, the literal's characters make it far dearer.

  /** The example opens with the four digits `1234`. */
  lemma ExampleHeadDigits(t: string)
    requires t == "1234 zł / osoba 2468 zł łącznie"
    ensures |t| == 31 && forall k :: 0 <= k < 4 ==> IsDigit(t[k])
  {
  }

  /** Then ` zł /`. */
  lemma ExampleHeadZl(t: string)
    requires t == "1234 zł / osoba 2468 zł łącznie"
    ensures t[4] == ' ' && t[5] == 'z' && t[6] == 'ł' && t[7] == ' ' && t[8] == '/'
  {
  }

  /** Then ` osoba `. */
  lemma ExampleHeadOsoba(t: string)
    requires t == "1234 zł / osoba 2468 zł łącznie"
    ensures t[9] == ' ' && t[10] == 'o' && t[11] == 's' && t[12] == 'o' && t[13] == 'b' && t[14] == 'a' && t[15] == ' '
  {
  }

  /** Then `2468 zł `. */
  lemma ExampleTailZl(t: string)
    requires t == "1234 zł / osoba 2468 zł łącznie"
    ensures |t| == 31 && forall k :: 16 <= k < 20 ==> IsDigit(t[k])
    ensures t[20] == ' ' && t[21] == 'z' && t[22] == 'ł' && t[23] == ' '
  {
  }

  /** And it closes with `łącznie`. */
  lemma ExampleTailLacznie(t: string)
    requires t == "1234 zł / osoba 2468 zł łącznie"
    ensures t[24] == 'ł' && t[25] == 'ą' && t[26] == 'c' && t[27] == 'z' && t[28] == 'n' && t[29] == 'i' && t[30] == 'e'
  {
  }

  /** `1234 zł / osoba 2468 zł łącznie` is a strict page with its amounts at `[0, 4)` and `[16, 20)`. */
  lemma ExampleLayout(t: string)
    requires t == "1234 zł / osoba 2468 zł łącznie"
    ensures PlainStrictPage(t, 4, 20)
  {
    ExampleHeadDigits(t);
    ExampleHeadZl(t);
    ExampleHeadOsoba(t);
    ExampleTailZl(t);
    ExampleTailLacznie(t);
  }

  /** Its per-person amount reads 1234. */
  lemma ExamplePerPerson(t: string)
    requires t == "1234 zł / osoba 2468 zł łącznie"
    ensures AllDigits(t[0..4]) && DigitsValue(t[0..4]) == 1234
  {
    assert t[0] == '1' && t[1] == '2' && t[2] == '3' && t[3] == '4';
    DigitsValueFour(t, 0);
  }

  /** Its total reads 2468. */
  lemma ExampleTotal(t: string)
    requires t == "1234 zł / osoba 2468 zł łącznie"
    ensures AllDigits(t[16..20]) && DigitsValue(t[16..20]) == 2468
  {
    assert t[16] == '2' && t[17] == '4' && t[18] == '6' && t[19] == '8';
    DigitsValueFour(t, 16);
  }

  /** The worked example: `1234 zł / osoba 2468 zł łącznie` gives the offer
      (1234, 2468), the whole page being its excerpt. */
  lemma StrictPriceExample(t: string)
    requires t == "1234 zł / osoba 2468 zł łącznie"
    ensures FirstOffer(t) == Some(Offer(t, 1234, 2468))
  {
    ExampleLayout(t);
    ExamplePerPerson(t);
    ExampleTotal(t);
    PlainStrictPageOffer(t, 4, 20);
  }
}
