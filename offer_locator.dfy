/** Locating the first (cheapest) offer in the text of a results page:
    three price patterns tried in order, each searched for its leftmost
    match, and, when none matches, a scan of every złoty amount for two
    neighbours that look like a per-person price and a total for two. */
module OfferLocator {
  import opened Wrappers
  import opened Text
  import opened Patterns

  /** An offer: the text around it and its two prices, in whole złoty. */
  datatype Offer = Offer(text: string, perPerson: nat, total: nat)

  /** How far before the first price the offer text starts. */
  const Lookback: nat := 1000
  /** The range of plausible prices in the fallback scan. */
  const MinPrice: nat := 1000
  const MaxPrice: nat := 50000
  /** How far a total may be from twice the per-person price. */
  const PairTolerance: nat := 100

  // ---------------------------------------------------------------------
  // Amount conversion.

  /** An amount group converted as `float(g.replace(' ', ''))` (the strict
      path) or `int(g.replace(' ', ''))` (the fallback): only ASCII spaces
      are removed, so any other whitespace left between the digit blocks
      makes the conversion fail. The groups always start and end with a
      digit, so the whitespace stripping both conversions do is inert. */
  function ParseAmount(g: string): Option<nat> {
    var digits := RemoveChar(g, ' ');
    if |digits| > 0 && AllDigits(digits) then Some(DigitsValue(digits)) else None
  }

  /** No whitespace but ASCII spaces (no tab, newline or no-break space). */
  predicate OnlyAsciiSpaces(g: string) {
    forall k :: 0 <= k < |g| && IsSpace(g[k]) ==> g[k] == ' '
  }

  /** An amount group converts exactly when all its whitespace is ASCII spaces. */
  lemma ParseAmountAccepts(g: string)
    requires AmountText(g)
    ensures ParseAmount(g).Some? <==> OnlyAsciiSpaces(g)
  {
    var digits := RemoveChar(g, ' ');
    if OnlyAsciiSpaces(g) {
      assert multiset(digits)[g[0]] == multiset(g)[g[0]] > 0;
      assert g[0] in digits;
      forall i | 0 <= i < |digits|
        ensures IsDigit(digits[i])
      {
        var x := digits[i];
        assert x in multiset(digits);
        assert x != ' ';
        assert x in multiset(g);
        var k :| 0 <= k < |g| && g[k] == x;
      }
    } else {
      var k :| 0 <= k < |g| && IsSpace(g[k]) && g[k] != ' ';
      assert multiset(digits)[g[k]] == multiset(g)[g[k]] > 0;
      assert g[k] in digits;
      var i :| 0 <= i < |digits| && digits[i] == g[k];
      assert !IsDigit(digits[i]);
    }
  }

  /** Removing the spaces of `a b` leaves the two digit blocks side by side. */
  lemma SpacelessGrouped(a: string, b: string)
    requires AllDigits(a) && AllDigits(b)
    ensures RemoveChar(a + " " + b, ' ') == a + b
  {
    assert ' ' !in a by {
      assert forall i :: 0 <= i < |a| ==> IsDigit(a[i]);
    }
    assert ' ' !in b by {
      assert forall i :: 0 <= i < |b| ==> IsDigit(b[i]);
    }
    RemoveCharAbsent(a, ' ');
    RemoveCharAbsent(b, ' ');
    RemoveCharConcat(a, " ", ' ');
    RemoveCharConcat(a + " ", b, ' ');
  }

  /** A thousands group after an ASCII space adds three digits to the value. */
  lemma ParseAmountGrouped(a: string, b: string)
    requires |a| > 0 && AllDigits(a) && |b| == 3 && AllDigits(b)
    ensures ParseAmount(a + " " + b) == Some(DigitsValue(a) * 1000 + DigitsValue(b))
  {
    SpacelessGrouped(a, b);
    DigitsValueConcat(a, b);
    assert Pow10(3) == 1000;
  }

  // ---------------------------------------------------------------------
  // The strict patterns.

  /** `content[max(0, start - 1000):end]`: the offer text before and through a match. */
  function Excerpt(content: string, start: nat, end: nat): (w: string)
    requires start <= end <= |content|
    ensures end - start <= |w| <= Lookback + (end - start)
    ensures w[|w| - (end - start)..] == content[start..end]
    ensures start >= Lookback ==> |w| == Lookback + (end - start)
  {
    content[if start >= Lookback then start - Lookback else 0..end]
  }

  /** The price patterns tried in order from `pattern`, the first that matches anywhere giving its leftmost match. */
  function FirstPriceMatch(content: string, pattern: nat): (r: Option<PriceMatch>)
    requires 1 <= pattern <= 4
    ensures r.Some? ==> WellFormed(content, r.value)
    ensures r.Some? ==> exists p :: pattern <= p <= 3 && PriceSearch(p, content, 0) == r
                                   && forall q :: pattern <= q < p ==> PriceSearch(q, content, 0).None?
    ensures r.None? <==> forall p :: pattern <= p <= 3 ==> PriceSearch(p, content, 0).None?
    decreases 4 - pattern
  {
    if pattern == 4 then None
    else
      var here := PriceSearch(pattern, content, 0);
      if here.Some? then here
      else FirstPriceMatch(content, pattern + 1)
  }

  /** The offer a strict match gives: both groups converted, or nothing when either conversion fails. */
  function StrictOffer(content: string, m: PriceMatch): Option<Offer>
    requires WellFormed(content, m)
  {
    var perPerson := ParseAmount(content[m.start..m.firstEnd]);
    var total := ParseAmount(content[m.secondStart..m.secondEnd]);
    if perPerson.Some? && total.Some? then Some(Offer(Excerpt(content, m.start, m.end), perPerson.value, total.value))
    else None
  }

  // ---------------------------------------------------------------------
  // The fallback scan.

  /** A plausible price of the fallback: its value and the span of its match. */
  datatype Price = Price(value: nat, start: nat, end: nat)

  /** The amount group of a match of the case-sensitive `(\d+(?:\s+\d{3})*)\s*zł` at `s.start`. */
  function AmountGroup(content: string, s: Span): string
    requires s.start <= |content|
  {
    match AmountZl(content, s.start, false)
    case None => ""
    case Some(m) => content[s.start..m.amountEnd]
  }

  /** A fallback match kept as a price: it converts with `int` and lies in the plausible range. */
  function Accepted(content: string, s: Span): (r: Option<Price>)
    requires s.start <= |content|
    ensures r.Some? ==> MinPrice <= r.value.value <= MaxPrice && r.value.start == s.start && r.value.end == s.end
  {
    var value := ParseAmount(AmountGroup(content, s));
    if value.Some? && MinPrice <= value.value <= MaxPrice then Some(Price(value.value, s.start, s.end)) else None
  }

  /** The conversion of every match, as a value the filter below can take. */
  function AcceptedIn(content: string): Span -> Option<Price> {
    (s: Span) => if s.start <= |content| then Accepted(content, s) else None
  }

  /** A conversion that keeps the span of the match it converts. */
  ghost predicate KeepsSpan(accept: Span -> Option<Price>) {
    forall s :: accept(s).Some? ==> accept(s).value.start == s.start && accept(s).value.end == s.end
  }

  /** The prices `accept` keeps from the first `n` matches of `spans`, in order. */
  function Candidates(accept: Span -> Option<Price>, spans: seq<Span>, n: nat): seq<Price>
    requires n <= |spans|
  {
    if n == 0 then []
    else
      var init := Candidates(accept, spans, n - 1);
      match accept(spans[n - 1])
      case Some(p) => init + [p]
      case None => init
  }

  /** The prices kept are exactly the conversions of the matches that succeed. */
  lemma {:induction false} CandidatesMembers(accept: Span -> Option<Price>, spans: seq<Span>, n: nat)
    requires n <= |spans|
    ensures forall p :: p in Candidates(accept, spans, n) <==> exists k :: 0 <= k < n && accept(spans[k]) == Some(p)
  {
    if n > 0 {
      CandidatesMembers(accept, spans, n - 1);
    }
  }

  /** Prices within the text, in document order, not overlapping. */
  predicate PricesOrdered(r: seq<Price>, bound: nat) {
    (forall k :: 0 <= k < |r| ==> r[k].start < r[k].end <= bound)
    && (forall k, l :: 0 <= k < l < |r| ==> r[k].end <= r[l].start)
  }

  /** Prices kept from ordered matches are ordered, and none ends after the last match considered. */
  lemma {:induction false} CandidatesOrdered(accept: Span -> Option<Price>, spans: seq<Span>, n: nat, bound: nat)
    requires n <= |spans| && Ordered(spans, 0, bound) && KeepsSpan(accept)
    ensures PricesOrdered(Candidates(accept, spans, n), bound)
    ensures forall k :: 0 <= k < |Candidates(accept, spans, n)| ==> n > 0 && Candidates(accept, spans, n)[k].end <= spans[n - 1].end
  {
    if n > 0 {
      CandidatesOrdered(accept, spans, n - 1, bound);
      var init := Candidates(accept, spans, n - 1);
      var last := spans[n - 1];
      assert forall k :: 0 <= k < |init| ==> n - 1 > 0 && init[k].end <= spans[n - 2].end;
      assert forall k :: 0 <= k < |init| ==> init[k].end <= last.start by {
        if n >= 2 {
          assert spans[n - 2].end <= last.start;
        }
      }
      if accept(last).Some? {
        var r := init + [accept(last).value];
        assert Candidates(accept, spans, n) == r;
        forall k, l | 0 <= k < l < |r|
          ensures r[k].end <= r[l].start
        {
          assert r[k] == init[k];
          if l < |init| {
            assert r[l] == init[l];
          }
        }
        assert forall k :: 0 <= k < |init| ==> r[k] == init[k];
      } else {
        assert Candidates(accept, spans, n) == init;
      }
    }
  }

  /** Two neighbouring prices where the second is about twice the first. */
  predicate Close(a: Price, b: Price) {
    -(PairTolerance as int) < b.value - 2 * a.value < PairTolerance
  }

  /** The first neighbouring pair from `i` that is close. */
  function FirstPair(prices: seq<Price>, i: nat): (r: Option<nat>)
    ensures r.Some? ==> i <= r.value && r.value + 1 < |prices| && Close(prices[r.value], prices[r.value + 1])
    ensures r.Some? ==> forall k :: i <= k < r.value ==> !Close(prices[k], prices[k + 1])
    ensures r.None? <==> forall k :: i <= k && k + 1 < |prices| ==> !Close(prices[k], prices[k + 1])
    decreases |prices| - i
  {
    if i + 1 >= |prices| then None
    else if Close(prices[i], prices[i + 1]) then Some(i)
    else FirstPair(prices, i + 1)
  }

  /** The prices of the fallback scan over the whole page. */
  function FallbackPrices(content: string): (r: seq<Price>)
    ensures forall k :: 0 <= k < |r| ==> MinPrice <= r[k].value <= MaxPrice
    ensures PricesOrdered(r, |content|)
  {
    var spans := FindAll(AmountPattern, content);
    assert KeepsSpan(AcceptedIn(content));
    CandidatesOrdered(AcceptedIn(content), spans, |spans|, |content|);
    CandidatesMembers(AcceptedIn(content), spans, |spans|);
    var r := Candidates(AcceptedIn(content), spans, |spans|);
    assert forall k :: 0 <= k < |r| ==> MinPrice <= r[k].value <= MaxPrice by {
      forall k | 0 <= k < |r|
        ensures MinPrice <= r[k].value <= MaxPrice
      {
        assert r[k] in r;
        var j :| 0 <= j < |spans| && AcceptedIn(content)(spans[j]) == Some(r[k]);
      }
    }
    r
  }

  /** The fallback: the first close pair of plausible prices, with the text
      from 1000 characters before the first through the second. */
  function Fallback(content: string): (r: Option<Offer>)
    ensures r.Some? ==> MinPrice <= r.value.perPerson <= MaxPrice && MinPrice <= r.value.total <= MaxPrice
    ensures r.Some? ==> -(PairTolerance as int) < r.value.total - 2 * r.value.perPerson < PairTolerance
    ensures r.None? <==> forall k :: 0 <= k && k + 1 < |FallbackPrices(content)| ==>
                           !Close(FallbackPrices(content)[k], FallbackPrices(content)[k + 1])
  {
    var prices := FallbackPrices(content);
    match FirstPair(prices, 0)
    case None => None
    case Some(k) => Some(Offer(Excerpt(content, prices[k].start, prices[k + 1].end), prices[k].value, prices[k + 1].value))
  }

  /** The first offer of a page: a strict match decides on its own (a
      failed conversion gives nothing, without a fallback); only when no
      price pattern matches does the fallback scan run. */
  function FirstOffer(content: string): (r: Option<Offer>)
    ensures FirstPriceMatch(content, 1).None? ==> r == Fallback(content)
    ensures FirstPriceMatch(content, 1).Some? ==>
              var m := FirstPriceMatch(content, 1).value;
              var perPerson := ParseAmount(content[m.start..m.firstEnd]);
              var total := ParseAmount(content[m.secondStart..m.secondEnd]);
              && (r.Some? <==> perPerson.Some? && total.Some?)
              && (r.Some? ==> r.value.text == Excerpt(content, m.start, m.end)
                              && r.value.perPerson == perPerson.value && r.value.total == total.value)
  {
    match FirstPriceMatch(content, 1)
    case Some(m) => StrictOffer(content, m)
    case None => Fallback(content)
  }

  /** Once a price pattern matches, the page has an offer exactly when
      both amount groups separate their digit blocks with ASCII spaces only:
      a no-break space or a newline inside an amount loses the offer, and
      the fallback is not tried. */
  lemma StrictOfferDecided(content: string)
    requires FirstPriceMatch(content, 1).Some?
    ensures var m := FirstPriceMatch(content, 1).value;
            FirstOffer(content).Some? <==>
              OnlyAsciiSpaces(content[m.start..m.firstEnd]) && OnlyAsciiSpaces(content[m.secondStart..m.secondEnd])
  {
    var m := FirstPriceMatch(content, 1).value;
    ParseAmountAccepts(content[m.start..m.firstEnd]);
    ParseAmountAccepts(content[m.secondStart..m.secondEnd]);
  }

  /** The fallback's conversion loop: each match converted with `int`
      and kept when it lies in the plausible range. */
  method CollectPrices(content: string, matches: seq<Span>) returns (prices: seq<Price>)
    requires Ordered(matches, 0, |content|)
    ensures prices == Candidates(AcceptedIn(content), matches, |matches|)
  {
    prices := [];
    for k := 0 to |matches|
      invariant prices == Candidates(AcceptedIn(content), matches, k)
    {
      var price := Accepted(content, matches[k]);
      assert AcceptedIn(content)(matches[k]) == price;
      if price.Some? {
        prices := prices + [price.value];
      }
    }
  }

  /** The fallback's pair loop: the first neighbouring pair that is close. */
  method FindPair(prices: seq<Price>) returns (r: Option<nat>)
    ensures r == FirstPair(prices, 0)
  {
    if |prices| >= 2 {
      for i := 0 to |prices| - 1
        invariant FirstPair(prices, i) == FirstPair(prices, 0)
      {
        if Close(prices[i], prices[i + 1]) {
          return Some(i);
        }
      }
    }
    return None;
  }

  /** The extraction step by step: the patterns in order with the first
      match kept, then either the strict conversion or the fallback scan
      and the search for a close pair. */
  method ExtractFirstOffer(content: string) returns (r: Option<Offer>)
    ensures r == FirstOffer(content)
  {
    var found: Option<PriceMatch> := None;
    for pattern := 1 to 4
      invariant found.None? && FirstPriceMatch(content, pattern) == FirstPriceMatch(content, 1)
    {
      found := PriceSearch(pattern, content, 0);
      if found.Some? {
        break;
      }
    }
    if found.None? {
      var prices := CollectPrices(content, FindAll(AmountPattern, content));
      assert prices == FallbackPrices(content);
      var pair := FindPair(prices);
      if pair.None? {
        return None;
      }
      var i := pair.value;
      return Some(Offer(Excerpt(content, prices[i].start, prices[i + 1].end), prices[i].value, prices[i + 1].value));
    }
    var m := found.value;
    assert FirstOffer(content) == StrictOffer(content, m);
    var perPerson := ParseAmount(content[m.start..m.firstEnd]);
    var total := ParseAmount(content[m.secondStart..m.secondEnd]);
    if perPerson.None? || total.None? {
      return None;
    }
    r := Some(Offer(Excerpt(content, m.start, m.end), perPerson.value, total.value));
  }
}
