/** Hand-written matchers for the regular expressions of the offer
    extractor. Each matcher looks at one start position of the whole text
    and returns where the match ends (and where its groups lie). Every
    `\s*`, `\s+`, `\d+` in these patterns is followed by something it cannot
    swallow, so the greedy reading is the only one that can succeed; the
    `\s*\n` tails are the exception and backtrack to the last newline of the
    whitespace run, as written below. `\s` is Python's whitespace, `\d` the
    ASCII digits. */
module Patterns {
  import opened Wrappers
  import opened Text

  // ---------------------------------------------------------------------
  // Building blocks.

  /** `\s*` from `i`: the end of the whitespace run. */
  function SkipSpace(t: string, i: nat): (j: nat)
    requires i <= |t|
    ensures i <= j <= |t|
    ensures forall k :: i <= k < j ==> IsSpace(t[k])
    ensures j < |t| ==> !IsSpace(t[j])
    decreases |t| - i
  {
    if i < |t| && IsSpace(t[i]) then SkipSpace(t, i + 1) else i
  }

  /** `\d*` from `i`: the end of the digit run. */
  function SkipDigits(t: string, i: nat): (j: nat)
    requires i <= |t|
    ensures i <= j <= |t|
    ensures forall k :: i <= k < j ==> IsDigit(t[k])
    ensures j < |t| ==> !IsDigit(t[j])
    decreases |t| - i
  {
    if i < |t| && IsDigit(t[i]) then SkipDigits(t, i + 1) else i
  }

  /** A whitespace run `[i, j)` that ends the run is what `\s*` takes. */
  lemma {:induction false} SkipSpaceRun(t: string, i: nat, j: nat)
    requires i <= j <= |t|
    requires forall k :: i <= k < j ==> IsSpace(t[k])
    requires j < |t| ==> !IsSpace(t[j])
    ensures SkipSpace(t, i) == j
    decreases j - i
  {
    if i < j {
      SkipSpaceRun(t, i + 1, j);
    }
  }

  /** A digit run `[i, j)` that ends the run is what `\d*` takes. */
  lemma {:induction false} SkipDigitsRun(t: string, i: nat, j: nat)
    requires i <= j <= |t|
    requires forall k :: i <= k < j ==> IsDigit(t[k])
    requires j < |t| ==> !IsDigit(t[j])
    ensures SkipDigits(t, i) == j
    decreases j - i
  {
    if i < j {
      SkipDigitsRun(t, i + 1, j);
    }
  }

  predicate DigitAt(t: string, i: nat) {
    i < |t| && IsDigit(t[i])
  }

  predicate UpperAt(t: string, i: nat) {
    i < |t| && IsUpperAscii(t[i])
  }

  /** `c` against the lower-case pattern letter `lower` under `re.IGNORECASE`:
      ASCII letters and the Polish ł and ą. */
  predicate CiChar(c: char, lower: char) {
    c == lower
    || ('a' <= lower <= 'z' && c as int == lower as int - 32)
    || (lower == 'ł' && c == 'Ł')
    || (lower == 'ą' && c == 'Ą')
  }

  /** The lower-case word `word` at `i`, ignoring case. */
  predicate CiAt(t: string, i: nat, word: string) {
    i + |word| <= |t| && forall k :: 0 <= k < |word| ==> CiChar(t[i + k], word[k])
  }

  /** The word at `i`, exactly or ignoring case. */
  predicate WordAt(t: string, i: nat, word: string, ignoreCase: bool) {
    if ignoreCase then CiAt(t, i, word) else OccursAt(t, word, i)
  }

  /** The first position from `from` where `word` occurs ignoring case (`.*?word`). */
  function FindCi(t: string, from: nat, word: string): (r: Option<nat>)
    requires from <= |t|
    ensures r.Some? ==> from <= r.value && CiAt(t, r.value, word)
    ensures r.Some? ==> forall l :: from <= l < r.value ==> !CiAt(t, l, word)
    ensures r.None? ==> forall l :: from <= l <= |t| ==> !CiAt(t, l, word)
    decreases |t| - from
  {
    if CiAt(t, from, word) then Some(from)
    else if from == |t| then None
    else FindCi(t, from + 1, word)
  }

  /** The first position in `[k, n]` where `f` has a result: what
      `re.search` and a lazy `.*?` look for. */
  function FirstFrom<T>(f: nat -> Option<T>, k: nat, n: nat): (r: Option<nat>)
    requires k <= n
    ensures r.Some? ==> k <= r.value <= n && f(r.value).Some?
    ensures r.None? ==> forall j :: k <= j <= n ==> f(j).None?
    decreases n - k
  {
    if f(k).Some? then Some(k)
    else if k == n then None
    else FirstFrom(f, k + 1, n)
  }

  /** No position before the one found has a result. */
  lemma {:induction false} FirstFromLeast<T>(f: nat -> Option<T>, k: nat, n: nat, j: nat)
    requires k <= n
    requires FirstFrom(f, k, n).Some? && k <= j < FirstFrom(f, k, n).value
    ensures f(j).None?
    decreases n - k
  {
    if j > k {
      FirstFromLeast(f, k + 1, n, j);
    }
  }

  // ---------------------------------------------------------------------
  // Amounts: `(\d+(?:\s+\d{3})*)\s*zł`.

  /** `\s+\d{3}` matches at `j`. */
  predicate BlockAt(t: string, j: nat)
    requires j <= |t|
  {
    var k := SkipSpace(t, j);
    k > j && k + 3 <= |t| && IsDigit(t[k]) && IsDigit(t[k + 1]) && IsDigit(t[k + 2])
  }

  /** `[j, e)` is a sequence of `\s+\d{3}` blocks. */
  predicate Blocks(t: string, j: nat, e: nat)
    requires j <= e <= |t|
    decreases e - j
  {
    j == e || (BlockAt(t, j) && SkipSpace(t, j) + 3 <= e && Blocks(t, SkipSpace(t, j) + 3, e))
  }

  /** `(?:\s+\d{3})*` from `j`: whitespace then exactly three digits, as often as possible. */
  function Groups(t: string, j: nat): (e: nat)
    requires j <= |t|
    ensures j <= e <= |t|
    ensures Blocks(t, j, e) && !BlockAt(t, e)
    ensures forall k :: j <= k < e ==> IsDigit(t[k]) || IsSpace(t[k])
    ensures e > j ==> IsDigit(t[e - 1])
    decreases |t| - j
  {
    var k := SkipSpace(t, j);
    if k > j && k + 3 <= |t| && IsDigit(t[k]) && IsDigit(t[k + 1]) && IsDigit(t[k + 2]) then Groups(t, k + 3) else j
  }

  /** Digits and whitespace, starting and ending with a digit: what the amount group captures. */
  predicate AmountText(s: string) {
    |s| > 0 && IsDigit(s[0]) && IsDigit(s[|s| - 1]) && forall k :: 0 <= k < |s| ==> IsDigit(s[k]) || IsSpace(s[k])
  }

  /** The end of `\d+(?:\s+\d{3})*` at `i`. */
  function AmountEnd(t: string, i: nat): (r: Option<nat>)
    requires i <= |t|
    ensures r.Some? <==> DigitAt(t, i)
    ensures r.Some? ==> i < r.value <= |t| && AmountText(t[i..r.value])
    ensures r.Some? ==> var d := SkipDigits(t, i); d <= r.value && Blocks(t, d, r.value) && !BlockAt(t, r.value)
  {
    if DigitAt(t, i) then
      var d := SkipDigits(t, i);
      var e := Groups(t, d);
      assert forall k :: i <= k < e ==> IsDigit(t[k]) || IsSpace(t[k]);
      Some(e)
    else None
  }

  datatype AmountMatch = AmountMatch(amountEnd: nat, end: nat)

  /** `(\d+(?:\s+\d{3})*)\s*zł` at `i`: where the amount group ends and where the match ends. */
  function AmountZl(t: string, i: nat, ignoreCase: bool): (r: Option<AmountMatch>)
    requires i <= |t|
    ensures r.Some? ==> AmountEnd(t, i) == Some(r.value.amountEnd) && r.value.amountEnd + 2 <= r.value.end <= |t|
  {
    match AmountEnd(t, i)
    case None => None
    case Some(a) =>
      var k := SkipSpace(t, a);
      if WordAt(t, k, "zł", ignoreCase) then Some(AmountMatch(a, k + 2)) else None
  }

  // ---------------------------------------------------------------------
  // The three price patterns (all under `re.IGNORECASE | re.DOTALL`).

  /** A price match: the per-person group `[start, firstEnd)`, the total
      group `[secondStart, secondEnd)` and the end of the match. */
  datatype PriceMatch = PriceMatch(start: nat, firstEnd: nat, secondStart: nat, secondEnd: nat, end: nat)

  predicate WellFormed(t: string, m: PriceMatch) {
    m.start < m.firstEnd <= m.secondStart < m.secondEnd <= m.end <= |t|
    && AmountText(t[m.start..m.firstEnd]) && AmountText(t[m.secondStart..m.secondEnd])
  }

  /** `(\d+(?:\s+\d{3})*)\s*zł\s*łącznie` at `k`: the total group and the match end. */
  datatype Total = Total(start: nat, amountEnd: nat, end: nat)

  function TotalAt(t: string, k: nat): (r: Option<Total>)
    requires k <= |t|
    ensures r.Some? ==> r.value.start == k && k < r.value.amountEnd <= r.value.end <= |t|
                        && AmountText(t[k..r.value.amountEnd])
  {
    match AmountZl(t, k, true)
    case None => None
    case Some(m) =>
      var l := SkipSpace(t, m.end);
      if CiAt(t, l, "łącznie") then Some(Total(k, m.amountEnd, l + 7)) else None
  }

  // `\s*/\s*osoba` at `j`: the end of `osoba`.
  function SlashOsobaAt(t: string, j: nat): (r: Option<nat>)
    requires j <= |t|
    ensures r.Some? ==> j < r.value <= |t|
  {
    var s := SkipSpace(t, j);
    if s < |t| && t[s] == '/' then
      var o := SkipSpace(t, s + 1);
      if CiAt(t, o, "osoba") then Some(o + 5) else None
    else None
  }

  // `(\d+(?:\s+\d{3})*)\s*zł\s*/\s*osoba` at `i`: the per-person amount match and the end of `osoba`.
  function PerPersonAt(t: string, i: nat): (r: Option<(AmountMatch, nat)>)
    requires i <= |t|
    ensures r.Some? ==> AmountEnd(t, i) == Some(r.value.0.amountEnd) && r.value.0.amountEnd < r.value.1 <= |t|
  {
    match AmountZl(t, i, true)
    case None => None
    case Some(m) =>
      match SlashOsobaAt(t, m.end)
      case None => None
      case Some(o) => Some((m, o))
  }

  // Pattern 1: `A\s*zł\s*/\s*osoba\s+A\s*zł\s*łącznie`.
  function Pattern1At(t: string, i: nat): (r: Option<PriceMatch>)
    requires i <= |t|
    ensures r.Some? ==> r.value.start == i && WellFormed(t, r.value)
  {
    match PerPersonAt(t, i)
    case None => None
    case Some((m, o)) =>
      var w := SkipSpace(t, o);
      if w == o then None
      else
        match TotalAt(t, w)
        case None => None
        case Some(total) => Some(PriceMatch(i, m.amountEnd, w, total.amountEnd, total.end))
  }

  /** The total at each position, as a value the searches below can take. */
  function TotalsOf(t: string): nat -> Option<Total> {
    (j: nat) => if j <= |t| then TotalAt(t, j) else None
  }

  /** `.*?` then the total, lazily: the total at the first position from `k` where one matches. */
  function LazyTotal(t: string, k: nat): (r: Option<Total>)
    requires k <= |t|
    ensures r.Some? ==> k <= r.value.start <= |t| && TotalAt(t, r.value.start) == r
    ensures r.None? ==> forall j :: k <= j <= |t| ==> TotalAt(t, j).None?
  {
    var first := FirstFrom(TotalsOf(t), k, |t|);
    assert forall j :: k <= j <= |t| ==> TotalsOf(t)(j) == TotalAt(t, j);
    if first.Some? then TotalAt(t, first.value) else None
  }

  /** The lazy `.*?` takes the nearest total: none starts earlier. */
  lemma LazyTotalFirst(t: string, k: nat, j: nat)
    requires k <= |t|
    requires LazyTotal(t, k).Some? && k <= j < LazyTotal(t, k).value.start
    ensures TotalAt(t, j).None?
  {
    FirstFromLeast(TotalsOf(t), k, |t|, j);
    assert TotalsOf(t)(j).None?;
  }

  // Pattern 2: `A\s*zł\s*/\s*osoba.*?A\s*zł\s*łącznie`.
  function Pattern2At(t: string, i: nat): (r: Option<PriceMatch>)
    requires i <= |t|
    ensures r.Some? ==> r.value.start == i && WellFormed(t, r.value)
  {
    match PerPersonAt(t, i)
    case None => None
    case Some((m, o)) =>
      match LazyTotal(t, o)
      case None => None
      case Some(total) => Some(PriceMatch(i, m.amountEnd, total.start, total.amountEnd, total.end))
  }

  /** In pattern 3, after an `osoba`: `.*?A\s*zł.*?łącznie`, trying each
      amount in turn until one is followed somewhere by `łącznie`. */
  function Pattern3Tail(t: string, k: nat): (r: Option<Total>)
    requires k <= |t|
    ensures r.Some? ==> k <= r.value.start < r.value.amountEnd <= r.value.end <= |t|
                        && AmountText(t[r.value.start..r.value.amountEnd])
    decreases |t| - k
  {
    if k == |t| then None
    else
      match AmountZl(t, k, true)
      case None => Pattern3Tail(t, k + 1)
      case Some(m) =>
        match FindCi(t, m.end, "łącznie")
        case Some(l) => Some(Total(k, m.amountEnd, l + 7))
        case None => Pattern3Tail(t, k + 1)
  }

  /** In pattern 3, after the first `zł`: `.*?osoba`, trying each `osoba` in
      turn until the rest of the pattern matches after it. */
  function Pattern3Mid(t: string, o: nat): (r: Option<Total>)
    requires o <= |t|
    ensures r.Some? ==> o < r.value.start < r.value.amountEnd <= r.value.end <= |t|
                        && AmountText(t[r.value.start..r.value.amountEnd])
    decreases |t| - o
  {
    if o == |t| then None
    else if CiAt(t, o, "osoba") then
      match Pattern3Tail(t, o + 5)
      case Some(total) => Some(total)
      case None => Pattern3Mid(t, o + 1)
    else Pattern3Mid(t, o + 1)
  }

  /** Pattern 3: `A\s*zł.*?osoba.*?A\s*zł.*?łącznie`. */
  function Pattern3At(t: string, i: nat): (r: Option<PriceMatch>)
    requires i <= |t|
    ensures r.Some? ==> r.value.start == i && WellFormed(t, r.value)
  {
    match AmountZl(t, i, true)
    case None => None
    case Some(m) =>
      match Pattern3Mid(t, m.end)
      case None => None
      case Some(total) => Some(PriceMatch(i, m.amountEnd, total.start, total.amountEnd, total.end))
  }

  /** Price pattern 1, 2 or 3 at `i`. */
  function PriceAt(pattern: nat, t: string, i: nat): (r: Option<PriceMatch>)
    requires i <= |t|
    ensures r.Some? ==> r.value.start == i && WellFormed(t, r.value)
  {
    if pattern == 1 then Pattern1At(t, i)
    else if pattern == 2 then Pattern2At(t, i)
    else Pattern3At(t, i)
  }

  /** Pattern `pattern` at each position, as a value the searches below can take. */
  function PricesOf(pattern: nat, t: string): nat -> Option<PriceMatch> {
    (j: nat) => if j <= |t| then PriceAt(pattern, t, j) else None
  }

  /** `re.search`: the match at the first position from `i` where there is one. */
  function PriceSearch(pattern: nat, t: string, i: nat): (r: Option<PriceMatch>)
    requires i <= |t|
    ensures r.Some? ==> i <= r.value.start <= |t| && PriceAt(pattern, t, r.value.start) == r
    ensures r.None? ==> forall j :: i <= j <= |t| ==> PriceAt(pattern, t, j).None?
  {
    var first := FirstFrom(PricesOf(pattern, t), i, |t|);
    assert forall j :: i <= j <= |t| ==> PricesOf(pattern, t)(j) == PriceAt(pattern, t, j);
    if first.Some? then PriceAt(pattern, t, first.value) else None
  }

  /** `re.search` reports the leftmost match: no earlier position matches. */
  lemma PriceSearchFirst(pattern: nat, t: string, i: nat, j: nat)
    requires i <= |t|
    requires PriceSearch(pattern, t, i).Some? && i <= j < PriceSearch(pattern, t, i).value.start
    ensures PriceAt(pattern, t, j).None?
  {
    FirstFromLeast(PricesOf(pattern, t), i, |t|, j);
    assert PricesOf(pattern, t)(j).None?;
  }

  // ---------------------------------------------------------------------
  // Times, durations and stopovers.

  /** `\d{2}:\d{2}` at `i`. */
  predicate ClockAt(t: string, i: nat) {
    i + 5 <= |t| && IsDigit(t[i]) && IsDigit(t[i + 1]) && t[i + 2] == ':' && IsDigit(t[i + 3]) && IsDigit(t[i + 4])
  }

  /** A time range: departure and arrival text and the end of the match. */
  datatype TimeRange = TimeRange(departure: string, arrival: string, end: nat)

  /** `\s*[–-]\s*` after the clock at `i` spans `[i + 5, a)`, with the dash at `k`. */
  predicate DashAfter(t: string, i: nat, k: nat, a: nat) {
    i + 5 <= k < a <= |t| && (t[k] == '-' || t[k] == '–')
    && (forall j :: i + 5 <= j < k ==> IsSpace(t[j]))
    && (forall j :: k < j < a ==> IsSpace(t[j]))
  }

  /** `\d{2}:\d{2}(?:\+\d)?` spans `[a, e)`; the optional `+N` is taken whenever it follows. */
  predicate ArrivalSpan(t: string, a: nat, e: nat) {
    ClockAt(t, a) && (e == a + 5 || e == a + 7)
    && (e == a + 7 <==> a + 7 <= |t| && t[a + 5] == '+' && IsDigit(t[a + 6]))
  }

  /** `(\d{2}:\d{2})\s*[–-]\s*(\d{2}:\d{2}(?:\+\d)?)` at `i`. */
  function TimeRangeAt(t: string, i: nat): (r: Option<TimeRange>)
    requires i <= |t|
    ensures r.Some? ==> i + 11 <= r.value.end <= |t| && |r.value.departure| == 5
    ensures r.Some? ==> ClockAt(t, i) && r.value.departure == t[i..i + 5]
                        && exists k: nat, a: nat :: DashAfter(t, i, k, a) && ArrivalSpan(t, a, r.value.end)
                                          && r.value.arrival == t[a..r.value.end]
  {
    if !ClockAt(t, i) then None
    else
      var k := SkipSpace(t, i + 5);
      if k < |t| && (t[k] == '–' || t[k] == '-') then
        var a := SkipSpace(t, k + 1);
        if !ClockAt(t, a) then None
        else
          var e := if a + 7 <= |t| && t[a + 5] == '+' && IsDigit(t[a + 6]) then a + 7 else a + 5;
          assert DashAfter(t, i, k, a) && ArrivalSpan(t, a, e);
          Some(TimeRange(t[i..i + 5], t[a..e], e))
      else None
  }

  /** A clock, a dash between whitespace runs and a second clock make a
      time-range match. */
  lemma TimeRangeAtFound(t: string, i: nat, k: nat, a: nat)
    requires i <= |t| && ClockAt(t, i) && ClockAt(t, a) && DashAfter(t, i, k, a)
    ensures TimeRangeAt(t, i).Some?
  {
    SkipSpaceRun(t, i + 5, k);
    SkipSpaceRun(t, k + 1, a);
  }

  /** The spans of `\d+\s*h\s*\d+\s*min`: hours digits `[start, hoursEnd)`,
      minutes digits `[minutesStart, minutesEnd)`, the match end. */
  datatype DurationMatch = DurationMatch(hoursEnd: nat, minutesStart: nat, minutesEnd: nat, end: nat)

  function DurationAt(t: string, i: nat): (r: Option<DurationMatch>)
    requires i <= |t|
    ensures r.Some? ==> i < r.value.hoursEnd < r.value.minutesStart < r.value.minutesEnd < r.value.end <= |t|
    ensures r.Some? ==> AllDigits(t[i..r.value.hoursEnd]) && AllDigits(t[r.value.minutesStart..r.value.minutesEnd])
    ensures r.Some? ==> exists b :: r.value.hoursEnd <= b < r.value.minutesStart && t[b] == 'h'
                          && (forall k :: r.value.hoursEnd <= k < b ==> IsSpace(t[k]))
                          && (forall k :: b < k < r.value.minutesStart ==> IsSpace(t[k]))
    ensures r.Some? ==> r.value.minutesEnd <= r.value.end - 3 && OccursAt(t, "min", r.value.end - 3)
                        && forall k :: r.value.minutesEnd <= k < r.value.end - 3 ==> IsSpace(t[k])
  {
    if !DigitAt(t, i) then None
    else
      var a := SkipDigits(t, i);
      var b := SkipSpace(t, a);
      if b < |t| && t[b] == 'h' then
        var c := SkipSpace(t, b + 1);
        if !DigitAt(t, c) then None
        else
          var d := SkipDigits(t, c);
          var e := SkipSpace(t, d);
          if OccursAt(t, "min", e) then Some(DurationMatch(a, c, d, e + 3)) else None
      else None
  }

  /** The four pieces of `h + " h " + mm + " min"`, cut back out of it. */
  lemma DurationTextPieces(h: string, mm: string)
    ensures var t := h + " h " + mm + " min";
            |t| == |h| + 3 + |mm| + 4
            && t[..|h|] == h && t[|h|..|h| + 3] == " h "
            && t[|h| + 3..|h| + 3 + |mm|] == mm && t[|h| + 3 + |mm|..] == " min"
  {
    var t := h + " h " + mm + " min";
    assert t == h + (" h " + (mm + " min"));
    assert t[|h|..] == " h " + (mm + " min");
    assert t[|h| + 3..] == mm + " min";
  }

  /** A digit run, a space, `h`, a space, a digit run, a space and `min`
      is a duration match at the start of the text. */
  lemma DurationAtRuns(t: string, a: nat, d: nat)
    requires 0 < a && a + 3 < d && d + 4 <= |t|
    requires forall k :: 0 <= k < a ==> IsDigit(t[k])
    requires t[a] == ' ' && t[a + 1] == 'h' && t[a + 2] == ' '
    requires forall k :: a + 3 <= k < d ==> IsDigit(t[k])
    requires t[d] == ' ' && t[d + 1..d + 4] == "min"
    ensures DurationAt(t, 0) == Some(DurationMatch(a, a + 3, d, d + 4))
  {
    assert IsDigit(t[0]) && IsDigit(t[a + 3]);
    SkipDigitsRun(t, 0, a);
    SkipSpaceRun(t, a, a + 1);
    SkipSpaceRun(t, a + 2, a + 3);
    SkipDigitsRun(t, a + 3, d);
    assert t[d + 1] == 'm';
    SkipSpaceRun(t, d, d + 1);
    assert OccursAt(t, "min", d + 1);
    DurationAtSteps(t, a, a + 3, d, d + 1);
  }

  /** The scan of `DurationAt` from 0, given where each of its skips stops. */
  lemma DurationAtSteps(t: string, a: nat, c: nat, d: nat, e: nat)
    requires a + 2 <= |t| && DigitAt(t, 0) && SkipDigits(t, 0) == a && SkipSpace(t, a) == a + 1 && t[a + 1] == 'h'
    requires SkipSpace(t, a + 2) == c && DigitAt(t, c) && SkipDigits(t, c) == d && SkipSpace(t, d) == e
    requires OccursAt(t, "min", e)
    ensures DurationAt(t, 0) == Some(DurationMatch(a, c, d, e + 3))
  {
  }

  /** A text made of a digit run, ` h `, a digit run and ` min` is one
      duration match covering it, with the groups at the runs. */
  lemma DurationAtPieces(t: string, h: string, mm: string)
    requires h != "" && AllDigits(h) && mm != "" && AllDigits(mm)
    requires |t| == |h| + 3 + |mm| + 4
    requires t[..|h|] == h && t[|h|..|h| + 3] == " h "
    requires t[|h| + 3..|h| + 3 + |mm|] == mm && t[|h| + 3 + |mm|..] == " min"
    ensures DurationAt(t, 0) == Some(DurationMatch(|h|, |h| + 3, |h| + 3 + |mm|, |h| + 3 + |mm| + 4))
  {
    var a, d := |h|, |h| + 3 + |mm|;
    forall k | 0 <= k < a ensures IsDigit(t[k]) {
      assert t[k] == t[..a][k];
    }
    assert t[a] == t[a..a + 3][0] && t[a + 1] == t[a..a + 3][1] && t[a + 2] == t[a..a + 3][2];
    forall k | a + 3 <= k < d ensures IsDigit(t[k]) {
      assert t[k] == t[a + 3..d][k - (a + 3)];
    }
    assert t[d] == t[d..][0];
    assert t[d + 1..d + 4] == t[d..][1..];
    DurationAtRuns(t, a, d);
  }

  /** Two digit runs written as `"<h> h <mm> min"` are one duration match
      covering the whole text, with the groups at the runs. */
  lemma DurationAtShape(h: string, mm: string)
    requires |h| > 0 && AllDigits(h) && |mm| > 0 && AllDigits(mm)
    ensures DurationAt(h + " h " + mm + " min", 0)
            == Some(DurationMatch(|h|, |h| + 3, |h| + 3 + |mm|, |h| + 3 + |mm| + 4))
  {
    DurationTextPieces(h, mm);
    DurationAtPieces(h + " h " + mm + " min", h, mm);
  }

  /** A stopover: the airport code and the duration text span. */
  datatype StopMatch = StopMatch(airport: string, durationStart: nat, durationEnd: nat)

  /** `([A-Z]{3})\s*Przesiadka\s*(\d+\s*h\s*\d+\s*min)` at `i`. */
  function StopoverAt(t: string, i: nat): (r: Option<StopMatch>)
    requires i <= |t|
    ensures r.Some? ==> i + 13 <= r.value.durationStart < r.value.durationEnd <= |t|
    ensures r.Some? ==> r.value.airport == t[i..i + 3] && UpperAt(t, i) && UpperAt(t, i + 1) && UpperAt(t, i + 2)
    ensures r.Some? ==> exists k :: i + 3 <= k && k + 10 <= r.value.durationStart && OccursAt(t, "Przesiadka", k)
                          && (forall j :: i + 3 <= j < k ==> IsSpace(t[j]))
                          && (forall j :: k + 10 <= j < r.value.durationStart ==> IsSpace(t[j]))
    ensures r.Some? ==> DurationAt(t, r.value.durationStart).Some?
                        && DurationAt(t, r.value.durationStart).value.end == r.value.durationEnd
  {
    if !(UpperAt(t, i) && UpperAt(t, i + 1) && UpperAt(t, i + 2)) then None
    else
      var k := SkipSpace(t, i + 3);
      if !OccursAt(t, "Przesiadka", k) then None
      else
        var m := SkipSpace(t, k + 10);
        match DurationAt(t, m)
        case None => None
        case Some(d) => Some(StopMatch(t[i..i + 3], m, d.end))
  }

  // ---------------------------------------------------------------------
  // The section separators, whose `\s*\n` tail backtracks.

  /** The last newline in `[p, e)`, as an end position. */
  function LastNewlineIn(t: string, p: nat, e: nat): (r: Option<nat>)
    requires p <= e <= |t|
    ensures r.Some? ==> p < r.value <= e && t[r.value - 1] == '\n'
    ensures r.Some? ==> forall k :: r.value <= k < e ==> t[k] != '\n'
    ensures r.None? ==> forall k :: p <= k < e ==> t[k] != '\n'
    decreases e - p
  {
    if e == p then None
    else if t[e - 1] == '\n' then Some(e)
    else LastNewlineIn(t, p, e - 1)
  }

  /** `\s*\n` at `p`: `\s*` takes the whole whitespace run, then gives back
      characters until a newline follows. */
  function SpaceNewline(t: string, p: nat): (r: Option<nat>)
    requires p <= |t|
    ensures r.Some? ==> p < r.value <= |t|
  {
    LastNewlineIn(t, p, SkipSpace(t, p))
  }

  /** The patterns the extractor runs with `finditer`/`findall`. */
  datatype Pattern =
    | TimeRangePattern     // (\d{2}:\d{2})\s*[–-]\s*(\d{2}:\d{2}(?:\+\d)?)
    | DurationPattern      // (\d+\s*h\s*\d+\s*min)
    | StopoverPattern      // ([A-Z]{3})\s*Przesiadka\s*(\d+\s*h\s*\d+\s*min)
    | AmountPattern        // (\d+(?:\s+\d{3})*)\s*zł, case-sensitive
    | BlankLine            // \n\s*\n
    | DurationLine         // \d+\s*h\s*\d+\s*min\s*\n
    | AirChinaLine         // Air\s+China\s*\n
    | CodeLine             // \n[A-Z]{3}\s*\n

  /** Where a match of the pattern at `i` ends. */
  function MatchEnd(p: Pattern, t: string, i: nat): (r: Option<nat>)
    requires i <= |t|
    ensures r.Some? ==> i < r.value <= |t|
  {
    match p
    case TimeRangePattern => if TimeRangeAt(t, i).Some? then Some(TimeRangeAt(t, i).value.end) else None
    case DurationPattern => if DurationAt(t, i).Some? then Some(DurationAt(t, i).value.end) else None
    case StopoverPattern => if StopoverAt(t, i).Some? then Some(StopoverAt(t, i).value.durationEnd) else None
    case AmountPattern => if AmountZl(t, i, false).Some? then Some(AmountZl(t, i, false).value.end) else None
    case BlankLine => if i < |t| && t[i] == '\n' then SpaceNewline(t, i + 1) else None
    case DurationLine => if DurationAt(t, i).Some? then SpaceNewline(t, DurationAt(t, i).value.end) else None
    case AirChinaLine =>
      if OccursAt(t, "Air", i) then
        var w := SkipSpace(t, i + 3);
        if w > i + 3 && OccursAt(t, "China", w) then SpaceNewline(t, w + 5) else None
      else None
    case CodeLine =>
      if i < |t| && t[i] == '\n' && UpperAt(t, i + 1) && UpperAt(t, i + 2) && UpperAt(t, i + 3) then SpaceNewline(t, i + 4)
      else None
  }

  // ---------------------------------------------------------------------
  // finditer / findall.

  datatype Span = Span(start: nat, end: nat)

  /** Spans in document order that do not overlap. */
  predicate Ordered(spans: seq<Span>, from: nat, bound: nat) {
    (forall k :: 0 <= k < |spans| ==> from <= spans[k].start < spans[k].end <= bound)
    && (forall k, l :: 0 <= k < l < |spans| ==> spans[k].end <= spans[l].start)
  }

  /** Each match ends after it starts and within the text. */
  ghost predicate Advances(f: nat -> Option<nat>, n: nat) {
    forall j: nat :: j < n && f(j).Some? ==> j < f(j).value <= n
  }

  /** `finditer` from position `i`: after a match the scan resumes at its end. */
  function Scan(f: nat -> Option<nat>, i: nat, n: nat): (r: seq<Span>)
    requires i <= n && Advances(f, n)
    ensures Ordered(r, i, n)
    decreases n - i
  {
    if i == n then []
    else
      match f(i)
      case Some(e) => [Span(i, e)] + Scan(f, e, n)
      case None => Scan(f, i + 1, n)
  }

  /** Every span the scan reports is a match, and an empty scan means no match at all. */
  lemma {:induction false} ScanMatches(f: nat -> Option<nat>, i: nat, n: nat)
    requires i <= n && Advances(f, n)
    ensures forall k :: 0 <= k < |Scan(f, i, n)| ==> f(Scan(f, i, n)[k].start) == Some(Scan(f, i, n)[k].end)
    ensures Scan(f, i, n) == [] <==> forall j :: i <= j < n ==> f(j).None?
    decreases n - i
  {
    if i < n {
      match f(i)
      case Some(e) =>
        ScanMatches(f, e, n);
        var rest := Scan(f, e, n);
        assert Scan(f, i, n) == [Span(i, e)] + rest;
        assert forall k :: 1 <= k < |Scan(f, i, n)| ==> Scan(f, i, n)[k] == rest[k - 1];
      case None =>
        ScanMatches(f, i + 1, n);
    }
  }

  /** The scan misses no match before its first one. */
  lemma {:induction false} ScanFirst(f: nat -> Option<nat>, i: nat, n: nat, j: nat)
    requires i <= n && Advances(f, n)
    requires Scan(f, i, n) != [] && i <= j < Scan(f, i, n)[0].start
    ensures f(j).None?
    decreases n - i
  {
    if j > i {
      ScanFirst(f, i + 1, n, j);
    }
  }

  /** Where a match of the pattern at each position ends. */
  function EndsOf(p: Pattern, t: string): (f: nat -> Option<nat>)
    ensures Advances(f, |t|)
  {
    (j: nat) => if j <= |t| then MatchEnd(p, t, j) else None
  }

  /** `findall`/`finditer` over the whole text: the matches in order, not overlapping. */
  function FindAll(p: Pattern, t: string): (r: seq<Span>)
    ensures Ordered(r, 0, |t|)
  {
    Scan(EndsOf(p, t), 0, |t|)
  }

  /** Each span `FindAll` reports is a match of the pattern, and it reports
      nothing exactly when the pattern matches nowhere. */
  lemma FindAllMatches(p: Pattern, t: string)
    ensures forall k :: 0 <= k < |FindAll(p, t)| ==> MatchEnd(p, t, FindAll(p, t)[k].start) == Some(FindAll(p, t)[k].end)
    ensures FindAll(p, t) == [] <==> forall j :: 0 <= j < |t| ==> MatchEnd(p, t, j).None?
  {
    ScanMatches(EndsOf(p, t), 0, |t|);
    assert forall j :: 0 <= j <= |t| ==> EndsOf(p, t)(j) == MatchEnd(p, t, j);
  }

  /** The first span `FindAll` reports is the leftmost match. */
  lemma FindAllFirst(p: Pattern, t: string, j: nat)
    requires FindAll(p, t) != [] && j < FindAll(p, t)[0].start
    ensures MatchEnd(p, t, j).None?
  {
    ScanFirst(EndsOf(p, t), 0, |t|, j);
    assert EndsOf(p, t)(j) == MatchEnd(p, t, j);
  }
}
