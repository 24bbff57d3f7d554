/** What the three scrapers share: the airline registry, the Kayak search
    URL, the output file base name with its timestamp, the per-request
    result record and the success/failure tallies of the session and round
    summaries. */
module Scraping {
  import opened Wrappers
  import opened Text
  import opened Calendar

  /** A registry entry: display name and the Kayak URL filter parameter. */
  datatype AirlineInfo = AirlineInfo(name: string, filter: string)

  /** Airline key (`"LOT"`, `"China_Air"`, ...) to its entry. */
  type Registry = map<string, AirlineInfo>

  /** The registry the current text scraper installs when the configuration
      has no `airlines_config` section. */
  function DefaultAirlines(): (r: Registry)
    ensures "LOT" in r && "Turkish" in r && "Emirates" in r && "Qatar" in r && "China_Air" in r
    ensures forall k :: k in r ==> FilterShape(r[k].filter)
  {
    map[
      "LOT" := AirlineInfo("LOT Polish Airlines", KayakFilter("LO")),
      "Lufthansa" := AirlineInfo("Lufthansa + Multi", KayakFilter("LH%2CMULT")),
      "KLM" := AirlineInfo("KLM + Multi", KayakFilter("KL%2CMULT")),
      "Air_France" := AirlineInfo("Air France + Multi", KayakFilter("AF%2CMULT")),
      "Swiss" := AirlineInfo("Swiss", KayakFilter("LX")),
      "Austrian" := AirlineInfo("Austrian Airlines", KayakFilter("OS")),
      "Finnair" := AirlineInfo("Finnair", KayakFilter("AY")),
      "SAS" := AirlineInfo("SAS", KayakFilter("SK")),
      "Korean_Air" := AirlineInfo("Korean Air", KayakFilter("KE")),
      "All_Nippon" := AirlineInfo("All Nippon Airways", KayakFilter("NH")),
      "Singapore" := AirlineInfo("Singapore Airlines", KayakFilter("SQ")),
      "Cathay_Pacific" := AirlineInfo("Cathay Pacific", KayakFilter("CX")),
      "Asiana" := AirlineInfo("Asiana Airlines", KayakFilter("OZ")),
      "Air_China" := AirlineInfo("Air China", KayakFilter("CA")),
      "China_Air" := AirlineInfo("Air China", KayakFilter("CA")),
      "Turkish" := AirlineInfo("Turkish Airlines + Multi", KayakFilter("TK%2CMULT")),
      "Emirates" := AirlineInfo("Emirates", KayakFilter("EK")),
      "Qatar" := AirlineInfo("Qatar Airways", KayakFilter("QR")),
      "Etihad" := AirlineInfo("Etihad Airways", KayakFilter("EY")),
      "British_Airways" := AirlineInfo("British Airways", KayakFilter("BA"))
    ]
  }

  /** A Kayak airline filter: `fs=airlines%3D<codes>%3Bbfc%3D1`. */
  predicate FilterShape(f: string) {
    |f| > 24 && f[..14] == "fs=airlines%3D" && f[|f| - 10..] == "%3Bbfc%3D1"
  }

  /** The filter for the airline codes `codes` (`LO`, `LH%2CMULT`, ...). */
  function KayakFilter(codes: string): (f: string)
    requires codes != ""
    ensures FilterShape(f) && f[14..|f| - 10] == codes
  {
    var f := "fs=airlines%3D" + codes + "%3Bbfc%3D1";
    assert f[..14] == "fs=airlines%3D" && f[14..|f| - 10] == codes && f[|f| - 10..] == "%3Bbfc%3D1";
    f
  }

  // ---------------------------------------------------------------------
  // The search URL.

  const KayakFlights := "https://www.kayak.pl/flights/"
  const SortByPrice := "adults?sort=price_a&"

  /** `url` starts with the flights address and the route `origin-destination/`
      and ends with the sort order and the airline filter. */
  predicate UrlShape(url: string, origin: string, destination: string, filter: string) {
    Framed(url, KayakFlights + origin + "-" + destination + "/", SortByPrice + filter)
  }

  /** `s` begins with `head` and ends with `tail`, the two not overlapping. */
  predicate Framed(s: string, head: string, tail: string) {
    |s| >= |head| + |tail| && s[..|head|] == head && s[|s| - |tail|..] == tail
  }

  /** The Kayak search URL for one route, date pair, passenger count and
      airline filter (written right-nested, the order the pieces are read back in). */
  function KayakUrl(origin: string, destination: string, departure: string, returnDate: string,
                    passengers: int, filter: string): (r: string)
    ensures UrlShape(r, origin, destination, filter)
  {
    UrlLayout(KayakFlights, origin, destination, departure, returnDate, IntToString(passengers), SortByPrice + filter);
    KayakFlights + (origin + ("-" + (destination + ("/" + (departure + ("/" + (returnDate + ("/"
      + (IntToString(passengers) + (SortByPrice + filter))))))))))
  }

  /** The right-nested URL begins with the address and route and ends with `tail`. */
  lemma UrlLayout(base: string, origin: string, destination: string, departure: string, returnDate: string,
                  passengers: string, tail: string)
    ensures Framed(base + (origin + ("-" + (destination + ("/" + (departure + ("/" + (returnDate + ("/"
                     + (passengers + tail))))))))), base + origin + "-" + destination + "/", tail)
  {
    var r := base + (origin + ("-" + (destination + ("/" + (departure + ("/" + (returnDate + ("/"
             + (passengers + tail)))))))));
    var head := base + origin + "-" + destination + "/";
    var mid := departure + "/" + returnDate + "/" + passengers;
    assert r == head + mid + tail;
  }

  lemma NatToStringInjective(a: nat, b: nat)
    requires NatToString(a) == NatToString(b)
    ensures a == b
  {
    NatToStringValue(a);
    NatToStringValue(b);
  }

  /** Equal concatenations with equal-length heads have equal heads and tails. */
  lemma ConcatCancel(a: string, b: string, c: string, d: string)
    requires |a| == |c| && a + b == c + d
    ensures a == c && b == d
  {
    assert a == (a + b)[..|a|] && c == (c + d)[..|c|];
    assert b == (a + b)[|a|..] && d == (c + d)[|c|..];
  }

  /** For three-character airport codes and ten-character dates, the URL
      determines every field it was built from: two requests that differ
      in any of them are sent to different URLs. */
  lemma KayakUrlInjective(o1: string, d1: string, dep1: string, ret1: string, p1: nat, f1: string,
                          o2: string, d2: string, dep2: string, ret2: string, p2: nat, f2: string)
    requires |o1| == 3 && |d1| == 3 && |dep1| == 10 && |ret1| == 10
    requires |o2| == 3 && |d2| == 3 && |dep2| == 10 && |ret2| == 10
    requires KayakUrl(o1, d1, dep1, ret1, p1, f1) == KayakUrl(o2, d2, dep2, ret2, p2, f2)
    ensures o1 == o2 && d1 == d2 && dep1 == dep2 && ret1 == ret2 && p1 == p2 && f1 == f2
  {
    var t1, t2 := SortByPrice + f1, SortByPrice + f2;
    var s1, s2 := NatToString(p1) + t1, NatToString(p2) + t2;
    var r1, r2 := ret1 + ("/" + s1), ret2 + ("/" + s2);
    ConcatCancel(KayakFlights, o1 + ("-" + (d1 + ("/" + (dep1 + ("/" + r1))))),
                 KayakFlights, o2 + ("-" + (d2 + ("/" + (dep2 + ("/" + r2))))));
    ConcatCancel(o1, "-" + (d1 + ("/" + (dep1 + ("/" + r1)))), o2, "-" + (d2 + ("/" + (dep2 + ("/" + r2)))));
    ConcatCancel("-", d1 + ("/" + (dep1 + ("/" + r1))), "-", d2 + ("/" + (dep2 + ("/" + r2))));
    ConcatCancel(d1, "/" + (dep1 + ("/" + r1)), d2, "/" + (dep2 + ("/" + r2)));
    ConcatCancel("/", dep1 + ("/" + r1), "/", dep2 + ("/" + r2));
    ConcatCancel(dep1, "/" + r1, dep2, "/" + r2);
    ConcatCancel("/", r1, "/", r2);
    ConcatCancel(ret1, "/" + s1, ret2, "/" + s2);
    ConcatCancel("/", s1, "/", s2);
    assert t1[0] == 'a' && t2[0] == 'a';
    DigitPrefixUnique(NatToString(p1), t1, NatToString(p2), t2);
    NatToStringInjective(p1, p2);
    ConcatCancel(SortByPrice, f1, SortByPrice, f2);
  }

  // ---------------------------------------------------------------------
  // Output file names.

  /** The wall-clock reading `datetime.now()` supplies. */
  datatype Clock = Clock(date: Civil, hour: int, minute: int, second: int, microsecond: int)

  predicate ValidClock(c: Clock) {
    ValidCivil(c.date) && 0 <= c.hour < 24 && 0 <= c.minute < 60 && 0 <= c.second < 60
    && 0 <= c.microsecond < 1000000
  }

  /** The first three of the six `%f` digits. */
  function Millis(microsecond: nat): (s: string)
    requires microsecond < 1000000
    ensures |s| == 3 && AllDigits(s)
  {
    NatToStringLength(microsecond, 6);
    ZeroPad(microsecond, 6)[..3]
  }

  lemma DivideOut(v: nat, a: nat, b: nat)
    requires v == a * 1000 + b && b < 1000
    ensures a == v / 1000
  {
  }

  /** Cutting the last three `%f` digits leaves the milliseconds. */
  lemma MillisValue(microsecond: nat)
    requires microsecond < 1000000
    ensures DigitsValue(Millis(microsecond)) == microsecond / 1000
  {
    NatToStringLength(microsecond, 6);
    var us := ZeroPad(microsecond, 6);
    var hi, lo := us[..3], us[3..];
    assert us == hi + lo;
    DigitsValueConcat(hi, lo);
    ZeroPadValue(microsecond, 6);
    DigitsValueBound(lo);
    assert Pow10(|lo|) == 1000;
    DivideOut(microsecond, DigitsValue(hi), DigitsValue(lo));
  }

  /** `%Y%m%d` for a valid date */
  function CompactDate(d: Civil): (s: string)
    requires ValidCivil(d)
    ensures |s| == 8 && AllDigits(s)
  {
    NatToStringLength(d.year, 4);
    NatToStringLength(d.month, 2);
    NatToStringLength(d.day, 2);
    Digits3(ZeroPad(d.year, 4), ZeroPad(d.month, 2), ZeroPad(d.day, 2))
  }

  /** `%H%M%S` */
  function CompactTime(hour: nat, minute: nat, second: nat): (s: string)
    requires hour < 24 && minute < 60 && second < 60
    ensures |s| == 6 && AllDigits(s)
  {
    NatToStringLength(hour, 2);
    NatToStringLength(minute, 2);
    NatToStringLength(second, 2);
    Digits3(ZeroPad(hour, 2), ZeroPad(minute, 2), ZeroPad(second, 2))
  }

  function Digits3(a: string, b: string, c: string): (s: string)
    requires AllDigits(a) && AllDigits(b) && AllDigits(c)
    ensures |s| == |a| + |b| + |c| && AllDigits(s)
  {
    a + b + c
  }

  /** `strftime("%Y%m%d_%H%M%S_%f")[:-3]`: date, time and milliseconds. */
  function Timestamp(c: Clock): (s: string)
    requires ValidClock(c)
    ensures |s| == 19 && s[8] == '_' && s[15] == '_'
    ensures AllDigits(s[..8]) && AllDigits(s[9..15]) && AllDigits(s[16..])
    ensures DigitsValue(s[16..]) == c.microsecond / 1000
  {
    var date := CompactDate(c.date);
    var time := CompactTime(c.hour, c.minute, c.second);
    var millis := Millis(c.microsecond);
    TimestampLayout(date, time, millis);
    MillisValue(c.microsecond);
    date + ("_" + (time + ("_" + millis)))
  }

  /** Where the three parts of a timestamp sit once joined by underscores. */
  lemma TimestampLayout(date: string, time: string, millis: string)
    requires |date| == 8 && |time| == 6 && |millis| == 3
    ensures var s := date + ("_" + (time + ("_" + millis)));
            |s| == 19 && s[8] == '_' && s[15] == '_' && s[..8] == date && s[9..15] == time && s[16..] == millis
  {
    var rest := time + ("_" + millis);
    var s := date + ("_" + rest);
    ConcatCancel(date, "_" + rest, s[..8], s[8..]);
    assert s[9..] == rest;
    ConcatCancel(time, "_" + millis, s[9..15], s[15..]);
  }

  /** `R{round:03d}_` when a round number is given and is not 0 (`if round_number:`). */
  function RoundPrefix(roundNumber: Option<int>): (r: string)
    ensures r == "" <==> roundNumber.None? || roundNumber.value == 0
    ensures r != "" ==> |r| >= 5 && r[0] == 'R' && r[|r| - 1] == '_'
    ensures r != "" && 0 < roundNumber.value < 1000 ==>
              |r| == 5 && AllDigits(r[1..4]) && DigitsValue(r[1..4]) == roundNumber.value
  {
    if roundNumber.Some? && roundNumber.value != 0 then
      var n := roundNumber.value;
      var r := "R" + Format03(n) + "_";
      assert r[1..|r| - 1] == Format03(n);
      if 0 < n < 1000 then
        ZeroPadValue(n, 3);
        NatToStringLength(n, 3);
        r
      else r
    else ""
  }

  /** `{origin}_{destination}_{key}_{departure}_{return}_{timestamp}` with the
      round prefix: the name of the current text scraper and the Excel scraper. */
  function BaseName(roundNumber: Option<int>, origin: string, destination: string, key: string,
                    departure: string, returnDate: string, timestamp: string): (r: string)
    ensures |r| == |RoundPrefix(roundNumber)| + |origin| + |destination| + |key| + |departure| + |returnDate| + |timestamp| + 5
    ensures r[..|RoundPrefix(roundNumber)|] == RoundPrefix(roundNumber)
    ensures r[|r| - |timestamp| - 1] == '_' && r[|r| - |timestamp|..] == timestamp
  {
    var fields := origin + "_" + destination + "_" + key + "_" + departure + "_" + returnDate;
    NameLayout(RoundPrefix(roundNumber), fields, '_', timestamp);
    RoundPrefix(roundNumber) + fields + "_" + timestamp
  }

  /** The pieces of `p + fields + [c] + timestamp`, cut back out of it. */
  lemma NameLayout(p: string, fields: string, c: char, timestamp: string)
    ensures var r := p + fields + [c] + timestamp;
            |r| == |p| + |fields| + 1 + |timestamp| && r[..|p|] == p
            && r[|r| - |timestamp| - 1] == c && r[|r| - |timestamp|..] == timestamp
  {
    var r := p + fields + [c] + timestamp;
    assert r == p + (fields + [c] + timestamp);
    assert r == (p + fields + [c]) + timestamp;
  }

  /** The older text scraper's name: the route is written `{origin}-{destination}`. */
  function HyphenBaseName(roundNumber: Option<int>, origin: string, destination: string, key: string,
                          departure: string, returnDate: string, timestamp: string): (r: string)
    ensures var b := BaseName(roundNumber, origin, destination, key, departure, returnDate, timestamp);
            var p := |RoundPrefix(roundNumber)| + |origin|;
            |r| == |b| && p < |r| && r[p] == '-' && b[p] == '_'
            && forall k :: 0 <= k < |r| && k != p ==> r[k] == b[k]
  {
    var head := RoundPrefix(roundNumber) + origin;
    var tail := destination + "_" + key + "_" + departure + "_" + returnDate;
    FieldsAfterOrigin(RoundPrefix(roundNumber), origin, destination, key, departure, returnDate, timestamp);
    HyphenLayout(head, tail, timestamp, BaseName(roundNumber, origin, destination, key, departure, returnDate, timestamp));
    head + "-" + tail + "_" + timestamp
  }

  /** The current name, regrouped around the separator after the origin. */
  lemma FieldsAfterOrigin(p: string, origin: string, destination: string, key: string,
                          departure: string, returnDate: string, timestamp: string)
    ensures p + (origin + "_" + destination + "_" + key + "_" + departure + "_" + returnDate) + "_" + timestamp
            == (p + origin) + "_" + (destination + "_" + key + "_" + departure + "_" + returnDate) + "_" + timestamp
  {
    var tail := destination + "_" + key + "_" + departure + "_" + returnDate;
    assert origin + "_" + destination + "_" + key + "_" + departure + "_" + returnDate == origin + "_" + tail;
  }

  /** Writing `-` instead of `_` after the route's origin changes that one character. */
  lemma HyphenLayout(head: string, tail: string, timestamp: string, b: string)
    requires b == head + "_" + tail + "_" + timestamp
    ensures var r := head + "-" + tail + "_" + timestamp;
            |r| == |b| && |head| < |r| && r[|head|] == '-' && b[|head|] == '_'
            && forall k :: 0 <= k < |r| && k != |head| ==> r[k] == b[k]
  {
    var rest := tail + "_" + timestamp;
    assert head + "-" + tail + "_" + timestamp == head + ("-" + rest);
    assert b == head + ("_" + rest);
  }

  /** `os.path.join(session_dir, base_name + ".txt")`; the session folder
      name never ends in a separator. */
  function TextPath(sessionDir: string, baseName: string): string {
    sessionDir + "/" + baseName + ".txt"
  }

  // ---------------------------------------------------------------------
  // One scrape and its result record.

  /** What the browser part of a scrape came to: the driver could not be
      created (before the URL was built), a later step raised, or the page
      title and body text were captured and saved. */
  datatype PageOutcome = DriverFailed(error: string) | PageFailed(error: string) | Captured(title: string, text: string)

  datatype TextResult<R> = TextResult(
    request: R, timestamp: string, url: string, success: bool, errorMessage: Option<string>,
    textPath: Option<string>, pageTitle: Option<string>, textLength: int)

  /** The `TextResult` a scrape returns: a failure keeps the URL only when
      it was already built, and records no text. */
  function ScrapeResult<R>(request: R, timestamp: string, url: string, textPath: string, outcome: PageOutcome): (r: TextResult<R>)
    ensures r.request == request && r.timestamp == timestamp
    ensures r.success <==> outcome.Captured?
    ensures r.success ==> r.textLength == |outcome.text| && r.url == url && r.textPath == Some(textPath)
                          && r.pageTitle == Some(outcome.title) && r.errorMessage.None?
    ensures !r.success ==> r.textLength == 0 && r.textPath.None? && r.pageTitle.None? && r.errorMessage == Some(outcome.error)
    ensures r.url == (if outcome.DriverFailed? then "N/A" else url)
  {
    match outcome
    case DriverFailed(e) => TextResult(request, timestamp, "N/A", false, Some(e), None, None, 0)
    case PageFailed(e) => TextResult(request, timestamp, url, false, Some(e), None, None, 0)
    case Captured(title, text) => TextResult(request, timestamp, url, true, None, Some(textPath), Some(title), |text|)
  }

  // ---------------------------------------------------------------------
  // Summary tallies.

  /** `len([r for r in results if r.success])` */
  function SuccessCount<R>(results: seq<TextResult<R>>): nat {
    if results == [] then 0
    else SuccessCount(results[..|results| - 1]) + (if results[|results| - 1].success then 1 else 0)
  }

  /** `len([r for r in results if not r.success])` */
  function FailureCount<R>(results: seq<TextResult<R>>): nat {
    if results == [] then 0
    else FailureCount(results[..|results| - 1]) + (if results[|results| - 1].success then 0 else 1)
  }

  /** `sum([r.text_length for r in results if r.success])` */
  function TotalTextLength<R>(results: seq<TextResult<R>>): int {
    if results == [] then 0
    else TotalTextLength(results[..|results| - 1])
         + (if results[|results| - 1].success then results[|results| - 1].textLength else 0)
  }

  /** The text length of every result, successful or not. */
  function AllTextLength<R>(results: seq<TextResult<R>>): int {
    if results == [] then 0 else AllTextLength(results[..|results| - 1]) + results[|results| - 1].textLength
  }

  datatype Summary = Summary(totalRequests: nat, successful: nat, failed: nat, airlines: set<string>, totalTextLength: int)

  /** The tallies of `save_session_summary` / `save_round_summary`; `keyOf`
      reads the airline key out of a request. */
  function Summarize<R>(requestCount: nat, results: seq<TextResult<R>>, keyOf: R -> string): Summary {
    Summary(requestCount, SuccessCount(results), FailureCount(results),
            set i | 0 <= i < |results| :: keyOf(results[i].request), TotalTextLength(results))
  }

  /** Every result is counted once, as a success or as a failure. */
  lemma {:induction false} TalliesPartition<R>(results: seq<TextResult<R>>)
    ensures SuccessCount(results) + FailureCount(results) == |results|
  {
    if results != [] {
      TalliesPartition(results[..|results| - 1]);
    }
  }

  /** Tallies add up over consecutive batches (the rolling mode's running totals). */
  lemma {:induction false} TalliesAppend<R>(a: seq<TextResult<R>>, b: seq<TextResult<R>>)
    ensures SuccessCount(a + b) == SuccessCount(a) + SuccessCount(b)
    ensures FailureCount(a + b) == FailureCount(a) + FailureCount(b)
    ensures TotalTextLength(a + b) == TotalTextLength(a) + TotalTextLength(b)
    decreases |b|
  {
    if b == [] {
      assert a + b == a;
    } else {
      assert (a + b)[..|a + b| - 1] == a + b[..|b| - 1];
      TalliesAppend(a, b[..|b| - 1]);
    }
  }

  /** Only successful results carry any text: the text total skips failures
      without losing anything, for results a scrape produces. */
  lemma {:induction false} TotalCountsOnlySuccesses<R>(results: seq<TextResult<R>>)
    requires forall i :: 0 <= i < |results| ==> !results[i].success ==> results[i].textLength == 0
    ensures TotalTextLength(results) == AllTextLength(results)
  {
    if results != [] {
      TotalCountsOnlySuccesses(results[..|results| - 1]);
    }
  }

  lemma SummaryConsistent<R>(requestCount: nat, results: seq<TextResult<R>>, keyOf: R -> string)
    ensures var s := Summarize(requestCount, results, keyOf);
            s.successful + s.failed == |results|
            && (forall i :: 0 <= i < |results| ==> keyOf(results[i].request) in s.airlines)
            && (forall k :: k in s.airlines ==> exists i :: 0 <= i < |results| && keyOf(results[i].request) == k)
  {
    TalliesPartition(results);
  }
}
