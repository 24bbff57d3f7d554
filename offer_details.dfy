/** Reading the details of one offer out of its text: the outbound and
    return sections, the stopovers of each, the flight time without the
    layovers, the direction of the route and the whole record. */
module OfferDetails {
  import opened Wrappers
  import opened Text
  import opened Patterns

  // ---------------------------------------------------------------------
  // Splitting the offer into its outbound and return sections.

  /** The separators tried in order between the first two time ranges: a
      blank line, a duration at the end of a line, the Air China name at
      the end of a line, an airport code on a line of its own. */
  const Separators: seq<Pattern> := [BlankLine, DurationLine, AirChinaLine, CodeLine]

  /** The end of the last of a list of matches, if any. */
  function LastEnd(spans: seq<Span>): Option<nat> {
    if spans == [] then None else Some(spans[|spans| - 1].end)
  }

  /** The end of the last span of the first non-empty list, from `i` on. */
  function FirstLastEnd(found: seq<seq<Span>>, i: nat): Option<nat>
    requires i <= |found|
    decreases |found| - i
  {
    if i == |found| then None
    else if found[i] != [] then LastEnd(found[i])
    else FirstLastEnd(found, i + 1)
  }

  /** The first non-empty list decides; there is nothing when all are empty. */
  lemma {:induction false} FirstLastEndFirst(found: seq<seq<Span>>, i: nat)
    requires i <= |found|
    ensures FirstLastEnd(found, i).Some? ==>
              exists p :: i <= p < |found| && found[p] != [] && FirstLastEnd(found, i) == LastEnd(found[p])
                          && forall q :: i <= q < p ==> found[q] == []
    ensures FirstLastEnd(found, i).None? <==> forall p :: i <= p < |found| ==> found[p] == []
    decreases |found| - i
  {
    if i < |found| && found[i] == [] {
      FirstLastEndFirst(found, i + 1);
      if FirstLastEnd(found, i).Some? {
        var p :| i + 1 <= p < |found| && found[p] != [] && FirstLastEnd(found, i + 1) == LastEnd(found[p])
                 && forall q :: i + 1 <= q < p ==> found[q] == [];
        assert forall q :: i <= q < p ==> found[q] == [];
      }
    }
  }

  /** The matches of each separator in `middle`, in the order they are tried. */
  function SeparatorMatches(middle: string): (r: seq<seq<Span>>)
    ensures |r| == |Separators|
    ensures forall p :: 0 <= p < |r| ==> r[p] == FindAll(Separators[p], middle)
  {
    [FindAll(BlankLine, middle), FindAll(DurationLine, middle),
     FindAll(AirChinaLine, middle), FindAll(CodeLine, middle)]
  }

  /** The end of the last match of the first separator that matches
      `middle` at all: a position inside `middle`, after its start. */
  function SeparatorEnd(middle: string): (r: Option<nat>)
    ensures r.Some? ==> 0 < r.value <= |middle|
  {
    var found := SeparatorMatches(middle);
    FirstLastEndFirst(found, 0);
    if FirstLastEnd(found, 0).Some? then
      var p :| 0 <= p < |found| && found[p] != [] && FirstLastEnd(found, 0) == LastEnd(found[p]);
      assert found[p][|found[p]| - 1].start < found[p][|found[p]| - 1].end;
      FirstLastEnd(found, 0)
    else None
  }

  /** The separator that decides is the first one with a match, and its
      last match gives the split; there is none when no separator matches. */
  lemma SeparatorEndFirst(middle: string)
    ensures SeparatorEnd(middle).Some? ==>
              exists p :: 0 <= p < |Separators| && SeparatorEnd(middle) == LastEnd(FindAll(Separators[p], middle))
                          && forall q :: 0 <= q < p ==> FindAll(Separators[q], middle) == []
    ensures SeparatorEnd(middle).None? <==> forall p :: 0 <= p < |Separators| ==> FindAll(Separators[p], middle) == []
  {
    FirstLastEndFirst(SeparatorMatches(middle), 0);
  }

  /** Where the outbound section ends: with fewer than two time ranges the
      whole text is outbound; otherwise the split lies after the first
      time range and no later than the start of the second. */
  function SplitPoint(text: string): (s: nat)
    ensures s <= |text|
    ensures |FindAll(TimeRangePattern, text)| < 2 ==> s == |text|
    ensures |FindAll(TimeRangePattern, text)| >= 2 ==>
              FindAll(TimeRangePattern, text)[0].end <= s <= FindAll(TimeRangePattern, text)[1].start
  {
    var ranges := FindAll(TimeRangePattern, text);
    if |ranges| < 2 then |text|
    else
      var e1 := ranges[0].end;
      var s2 := ranges[1].start;
      match SeparatorEnd(text[e1..s2])
      case None => e1
      case Some(e) => e1 + e
  }

  /** The outbound and the return section: together they are the whole text. */
  function SplitSections(text: string): (r: (string, string))
    ensures r.0 + r.1 == text
    ensures |FindAll(TimeRangePattern, text)| < 2 ==> r == (text, "")
  {
    var s := SplitPoint(text);
    CutAt(text, s);
    (text[..s], text[s..])
  }

  lemma CutAt(text: string, s: nat)
    requires s <= |text|
    ensures text[..s] + text[s..] == text
    ensures s == |text| ==> text[..s] == text && text[s..] == ""
  {
  }

  /** The split step by step: the time ranges, then the separators in
      order, the first one that matches deciding. */
  method SplitOfferSections(text: string) returns (outbound: string, inbound: string)
    ensures (outbound, inbound) == SplitSections(text)
  {
    var ranges := FindAll(TimeRangePattern, text);
    if |ranges| < 2 {
      return text, "";
    }
    var e1 := ranges[0].end;
    var s2 := ranges[1].start;
    var middle := text[e1..s2];
    ghost var found := SeparatorMatches(middle);
    var split := e1;
    for i := 0 to |Separators|
      invariant split == e1 && FirstLastEnd(found, i) == FirstLastEnd(found, 0)
    {
      var matches := FindAll(Separators[i], middle);
      if matches != [] {
        split := e1 + matches[|matches| - 1].end;
        assert FirstLastEnd(found, 0) == Some(matches[|matches| - 1].end);
        break;
      }
    }
    assert split == SplitPoint(text);
    outbound := text[..split];
    inbound := text[split..];
  }

  // ---------------------------------------------------------------------
  // Stopovers.

  /** The stopovers of a section: how many the text lists, and the airport
      and layover duration of the first three (the slots of the rest are
      empty strings). */
  datatype Stopovers = Stopovers(count: nat, airports: seq<string>, durations: seq<string>)

  /** The two groups of a stopover match: airport code and duration text. */
  function StopAt(text: string, s: Span): (string, string)
    requires s.start <= |text|
  {
    match StopoverAt(text, s.start)
    case None => ("", "")
    case Some(m) => (m.airport, text[m.durationStart..m.durationEnd])
  }

  /** `re.findall` of `([A-Z]{3})\s*Przesiadka\s*(\d+\s*h\s*\d+\s*min)`. */
  function StopList(text: string): (r: seq<(string, string)>)
    ensures |r| == |FindAll(StopoverPattern, text)|
  {
    var spans := FindAll(StopoverPattern, text);
    seq(|spans|, k requires 0 <= k < |spans| => StopAt(text, spans[k]))
  }

  /** Slot `i` of the three: the `i`-th stopover, or empty strings. */
  function Slot(stops: seq<(string, string)>, i: nat): (string, string) {
    if i < |stops| then stops[i] else ("", "")
  }

  /** The stopovers of a section, as the record the extractor fills in. */
  function StopoversOf(text: string): (r: Stopovers)
    ensures r.count == |FindAll(StopoverPattern, text)| && |r.airports| == 3 && |r.durations| == 3
    ensures forall i :: 0 <= i < 3 ==> (r.airports[i], r.durations[i]) == Slot(StopList(text), i)
  {
    var stops := StopList(text);
    Stopovers(|stops|, [Slot(stops, 0).0, Slot(stops, 1).0, Slot(stops, 2).0],
              [Slot(stops, 0).1, Slot(stops, 1).1, Slot(stops, 2).1])
  }

  /** The three slots filled step by step: empty strings, then the first
      three stopovers written in order. */
  method FillSlots(stops: seq<(string, string)>) returns (airports: seq<string>, durations: seq<string>)
    ensures airports == [Slot(stops, 0).0, Slot(stops, 1).0, Slot(stops, 2).0]
    ensures durations == [Slot(stops, 0).1, Slot(stops, 1).1, Slot(stops, 2).1]
  {
    airports := ["", "", ""];
    durations := ["", "", ""];
    var n := if |stops| < 3 then |stops| else 3;
    for i := 0 to n
      invariant |airports| == 3 && |durations| == 3
      invariant forall j :: 0 <= j < 3 ==> airports[j] == (if j < i then stops[j].0 else "")
      invariant forall j :: 0 <= j < 3 ==> durations[j] == (if j < i then stops[j].1 else "")
    {
      airports := airports[i := stops[i].0];
      durations := durations[i := stops[i].1];
    }
  }

  /** The stopovers of a section step by step: the matches counted, the slots filled. */
  method ParseStopovers(text: string) returns (r: Stopovers)
    ensures r == StopoversOf(text)
  {
    var stops := StopList(text);
    var airports, durations := FillSlots(stops);
    r := Stopovers(|stops|, airports, durations);
  }

  // ---------------------------------------------------------------------
  // Flight time without the layovers.

  /** `re.match(r'(\d+)\s*h\s*(\d+)\s*min', s)` read as minutes. */
  function DurationMinutes(s: string): (r: Option<nat>)
    ensures r.Some? <==> DurationAt(s, 0).Some?
    ensures r.Some? ==> var d := DurationAt(s, 0).value;
                        r.value == DigitsValue(s[..d.hoursEnd]) * 60 + DigitsValue(s[d.minutesStart..d.minutesEnd])
  {
    match DurationAt(s, 0)
    case None => None
    case Some(d) => Some(MinutesOf(s, d))
  }

  /** The hours group times 60 plus the minutes group of a duration match. */
  function MinutesOf(s: string, d: DurationMatch): nat
    requires d.hoursEnd <= d.minutesStart <= d.minutesEnd <= |s|
    requires AllDigits(s[..d.hoursEnd]) && AllDigits(s[d.minutesStart..d.minutesEnd])
  {
    DigitsValue(s[..d.hoursEnd]) * 60 + DigitsValue(s[d.minutesStart..d.minutesEnd])
  }

  /** The empty text is no duration. */
  lemma DurationNonEmpty(s: string)
    requires DurationMinutes(s).Some?
    ensures s != ""
  {
  }

  /** The empty text does not read as a duration. */
  lemma EmptyReadsNothing()
    ensures DurationMinutes("").None?
  {
  }

  /** `f"{m // 60} h {m % 60:02d} min"`. */
  function FormatDuration(m: nat): string {
    NatToString(m / 60) + " h " + ZeroPad(m % 60, 2) + " min"
  }

  /** The minutes of a duration match whose groups are the given digit strings. */
  lemma MinutesOfGroups(t: string, h: string, mm: string, total: nat)
    requires |h| + 3 + |mm| <= |t|
    requires t[..|h|] == h && t[|h| + 3..|h| + 3 + |mm|] == mm && AllDigits(h) && AllDigits(mm)
    requires DigitsValue(h) * 60 + DigitsValue(mm) == total
    ensures MinutesOf(t, DurationMatch(|h|, |h| + 3, |h| + 3 + |mm|, |h| + 3 + |mm| + 4)) == total
  {
    var d := DurationMatch(|h|, |h| + 3, |h| + 3 + |mm|, |h| + 3 + |mm| + 4);
    assert t[..d.hoursEnd] == h;
    assert t[d.minutesStart..d.minutesEnd] == mm;
  }

  /** Hours, ` h `, minutes and ` min` read as that many minutes. */
  lemma DurationTextMinutes(h: string, mm: string, total: nat)
    requires h != "" && AllDigits(h) && mm != "" && AllDigits(mm)
    requires DigitsValue(h) * 60 + DigitsValue(mm) == total
    ensures DurationMinutes(h + " h " + mm + " min") == Some(total)
  {
    DurationTextPieces(h, mm);
    MinutesOfGroups(h + " h " + mm + " min", h, mm, total);
    DurationAtShape(h, mm);
  }

  /** The hours and the padded minutes of a formatted duration are digit
      strings worth the whole number of minutes. */
  lemma FormatDurationPieces(m: nat)
    ensures NatToString(m / 60) != "" && AllDigits(NatToString(m / 60))
    ensures ZeroPad(m % 60, 2) != "" && AllDigits(ZeroPad(m % 60, 2))
    ensures DigitsValue(NatToString(m / 60)) * 60 + DigitsValue(ZeroPad(m % 60, 2)) == m
  {
    NatToStringValue(m / 60);
    ZeroPadValue(m % 60, 2);
  }

  /** The formatted duration reads back as the same number of minutes. */
  lemma FormatDurationParses(m: nat)
    ensures DurationMinutes(FormatDuration(m)) == Some(m)
  {
    FormatDurationPieces(m);
    DurationTextMinutes(NatToString(m / 60), ZeroPad(m % 60, 2), m);
  }

  /** A slot's layover in minutes, or nothing when the slot is empty or does not read as a duration. */
  function SlotMinutes(durations: seq<string>, i: nat): nat {
    var d := if i < |durations| then durations[i] else "";
    if d != "" && DurationMinutes(d).Some? then DurationMinutes(d).value else 0
  }

  /** The number of stopover slots a record keeps. */
  const StopSlots: nat := 3

  /** The layovers of the first `n` slots in minutes. */
  function LayoverMinutes(durations: seq<string>, n: nat): nat {
    if n == 0 then 0 else LayoverMinutes(durations, n - 1) + SlotMinutes(durations, n - 1)
  }

  /** The flight time left of a travel time after `layovers` minutes:
      the difference formatted again, the original text when the
      difference is not positive, and nothing when the travel time does
      not read as a duration. */
  function FlightTimeAfter(total: string, layovers: nat): (r: string)
    ensures DurationMinutes(total).None? ==> r == ""
    ensures DurationMinutes(total).Some? && DurationMinutes(total).value <= layovers ==> r == total
    ensures DurationMinutes(total).Some? && DurationMinutes(total).value > layovers ==>
              r == FormatDuration(DurationMinutes(total).value - layovers)
  {
    if total == "" then EmptyReadsNothing(); ""
    else FlightOfReading(total, DurationMinutes(total), layovers)
  }

  /** The rest of the computation once the travel time `total` has been read as `minutes`. */
  function FlightOfReading(total: string, minutes: Option<nat>, layovers: nat): (r: string)
    ensures minutes.None? ==> r == ""
    ensures minutes.Some? && minutes.value <= layovers ==> r == total
    ensures minutes.Some? && minutes.value > layovers ==> r == FormatDuration(minutes.value - layovers)
  {
    match minutes
    case None => ""
    case Some(t) =>
      var flight := t - layovers;
      if flight <= 0 then total else FormatDuration(flight)
  }

  /** The actual flight time of a section: its travel time less the
      layovers of the three stopover slots. */
  function FlightTime(total: string, stops: Stopovers): (r: string)
    ensures FlightTimeIs(total, LayoverMinutes(stops.durations, StopSlots), r)
  {
    FlightTimeOfSlots(total, stops.durations, StopSlots);
    FlightTimeAfter(total, LayoverMinutes(stops.durations, StopSlots))
  }

  /** The meaning of the flight time for the layovers of any number of slots. */
  lemma FlightTimeOfSlots(total: string, durations: seq<string>, n: nat)
    ensures FlightTimeIs(total, LayoverMinutes(durations, n), FlightTimeAfter(total, LayoverMinutes(durations, n)))
  {
    FlightTimeIsAfter(total, LayoverMinutes(durations, n));
  }

  /** The flight time after any number of layover minutes means what `FlightTimeIs` says. */
  lemma FlightTimeIsAfter(total: string, layovers: nat)
    ensures FlightTimeIs(total, layovers, FlightTimeAfter(total, layovers))
  {
    FlightTimeMeaning(total, layovers);
  }

  /** `r` is what `calculate_flight_times` promises for a travel time and
      `layovers` minutes: nothing when the travel time does not read as a
      duration, the travel time itself when the layovers take all of it,
      and otherwise a text that reads as the difference. */
  predicate FlightTimeIs(total: string, layovers: nat, r: string) {
    && (DurationMinutes(total).None? ==> r == "")
    && (DurationMinutes(total).Some? && DurationMinutes(total).value <= layovers ==> r == total)
    && (DurationMinutes(total).Some? && DurationMinutes(total).value > layovers ==>
          DurationMinutes(r) == Some(DurationMinutes(total).value - layovers))
  }

  /** When the total reads as more minutes than the layovers, the flight
      time is their difference, formatted. */
  lemma FlightTimeFormatted(total: string, layovers: nat)
    requires DurationMinutes(total).Some? && DurationMinutes(total).value > layovers
    ensures FlightTimeAfter(total, layovers) == FormatDuration(DurationMinutes(total).value - layovers)
  {
    DurationNonEmpty(total);
    assert total != "";
  }

  /** What the flight time means: nothing when the total does not read as
      a duration, a duration of the total less the layovers when that is
      positive, the total itself otherwise. */
  lemma FlightTimeMeaning(total: string, layovers: nat)
    ensures DurationMinutes(total).None? ==> FlightTimeAfter(total, layovers) == ""
    ensures DurationMinutes(total).Some? && DurationMinutes(total).value > layovers ==>
              DurationMinutes(FlightTimeAfter(total, layovers)) == Some(DurationMinutes(total).value - layovers)
    ensures DurationMinutes(total).Some? && DurationMinutes(total).value <= layovers ==>
              FlightTimeAfter(total, layovers) == total
  {
    FlightTimeUnread(total, layovers);
    FlightTimeReparses(total, layovers);
    FlightTimeKept(total, layovers);
  }

  lemma FlightTimeUnread(total: string, layovers: nat)
    ensures DurationMinutes(total).None? ==> FlightTimeAfter(total, layovers) == ""
  {
  }

  lemma FlightTimeReparses(total: string, layovers: nat)
    ensures DurationMinutes(total).Some? && DurationMinutes(total).value > layovers ==>
              DurationMinutes(FlightTimeAfter(total, layovers)) == Some(DurationMinutes(total).value - layovers)
  {
    if DurationMinutes(total).Some? && DurationMinutes(total).value > layovers {
      FlightTimeReadsBack(total, layovers);
    }
  }

  /** A positive difference, once formatted, reads back as that difference. */
  lemma FlightTimeReadsBack(total: string, layovers: nat)
    requires DurationMinutes(total).Some? && DurationMinutes(total).value > layovers
    ensures DurationMinutes(FlightTimeAfter(total, layovers)) == Some(DurationMinutes(total).value - layovers)
  {
    FlightTimeFormatted(total, layovers);
    FormattedReadsBack(FlightTimeAfter(total, layovers), DurationMinutes(total).value - layovers);
  }

  /** Any text that is a formatted duration reads back as its minutes. */
  lemma FormattedReadsBack(s: string, m: nat)
    requires s == FormatDuration(m)
    ensures DurationMinutes(s) == Some(m)
  {
    FormatDurationParses(m);
  }

  lemma FlightTimeKept(total: string, layovers: nat)
    ensures DurationMinutes(total).Some? && DurationMinutes(total).value <= layovers ==>
              FlightTimeAfter(total, layovers) == total
  {
    if DurationMinutes(total).Some? {
      DurationNonEmpty(total);
    }
  }

  /** The flight time never exceeds the travel time it is computed from. */
  lemma FlightTimeBounded(total: string, layovers: nat)
    requires DurationMinutes(FlightTimeAfter(total, layovers)).Some?
    ensures DurationMinutes(total).Some?
    ensures DurationMinutes(FlightTimeAfter(total, layovers)).value <= DurationMinutes(total).value
  {
    FlightTimeMeaning(total, layovers);
  }

  /** A two-digit number is written as its two digits. */
  lemma TwoDigitString(n: nat)
    requires 10 <= n < 100
    ensures NatToString(n) == [DigitChar(n / 10), DigitChar(n % 10)]
  {
    assert NatToString(n / 10) == [DigitChar(n / 10)];
  }

  /** A number below 100 padded to two places is its two digits. */
  lemma PadTwoDigits(n: nat)
    requires n < 100
    ensures ZeroPad(n, 2) == [DigitChar(n / 10), DigitChar(n % 10)]
  {
    if n < 10 {
      assert NatToString(n) == [DigitChar(n)];
      assert Zeros(1) == [DigitChar(0)];
    } else {
      TwoDigitString(n);
    }
  }

  /** `15 h 05 min` reads as 905 minutes. */
  lemma TravelTimeExample()
    ensures DurationMinutes("15 h 05 min") == Some(905)
  {
    TwoDigitsValue("15");
    TwoDigitsValue("05");
    assert "15" + " h " + "05" + " min" == "15 h 05 min";
    DurationTextMinutes("15", "05", 905);
  }

  /** `4 h 15 min` reads as 255 minutes. */
  lemma LayoverTimeExample()
    ensures DurationMinutes("4 h 15 min") == Some(255)
  {
    TwoDigitsValue("15");
    assert "4" + " h " + "15" + " min" == "4 h 15 min";
    DurationTextMinutes("4", "15", 255);
  }

  /** One layover of `4 h 15 min` in the first slot is 255 minutes. */
  lemma LayoverExample()
    ensures LayoverMinutes(["4 h 15 min", "", ""], StopSlots) == 255
  {
    var d := ["4 h 15 min", "", ""];
    assert |d| == 3 && d[0] == "4 h 15 min" && d[1] == "" && d[2] == "";
    LayoverTimeExample();
    OneLayover(d, 255);
  }

  /** Three slots of which only the first holds a duration: the layovers are that duration. */
  lemma OneLayover(d: seq<string>, m: nat)
    requires |d| == 3 && DurationMinutes(d[0]) == Some(m) && d[1] == "" && d[2] == ""
    ensures LayoverMinutes(d, StopSlots) == m
  {
    DurationNonEmpty(d[0]);
    EmptyReadsNothing();
    LayoverStep(d, 0, d[0], m);
    LayoverStep(d, 1, "", 0);
    LayoverStep(d, 2, "", 0);
  }

  /** 650 minutes are written `10 h 50 min`. */
  lemma FormattedExample()
    ensures FormatDuration(650) == "10 h 50 min"
  {
    assert 650 / 60 == 10 && 650 % 60 == 50;
    TwoDigitString(10);
    PadTwoDigits(50);
    assert DigitChar(1) == '1' && DigitChar(0) == '0' && DigitChar(5) == '5';
    assert NatToString(10) == "10" && ZeroPad(50, 2) == "50";
  }

  /** The worked case: a travel time of `15 h 05 min` with one layover of
      `4 h 15 min` leaves `10 h 50 min` of flying. */
  lemma FlightTimeExample()
    ensures FlightTime("15 h 05 min", Stopovers(1, ["VIE", "", ""], ["4 h 15 min", "", ""])) == "10 h 50 min"
  {
    TravelTimeExample();
    LayoverExample();
    FlightTimeFormatted("15 h 05 min", 255);
    FormattedExample();
  }

  /** The layovers of the three slots summed, slot by slot; a slot that is
      empty or does not read as a duration adds nothing. */
  method SumLayovers(durations: seq<string>) returns (layovers: nat)
    ensures layovers == LayoverMinutes(durations, StopSlots)
  {
    layovers := 0;
    for i := 0 to StopSlots
      invariant layovers == LayoverMinutes(durations, i)
    {
      var d := if i < |durations| then durations[i] else "";
      var add := ReadLayover(d);
      LayoverStep(durations, i, d, add);
      layovers := layovers + add;
    }
  }

  /** One slot's layover: the minutes of a non-empty duration text that reads as one, nothing otherwise. */
  method ReadLayover(d: string) returns (add: nat)
    ensures d != "" && DurationMinutes(d).Some? ==> add == DurationMinutes(d).value
    ensures d == "" || DurationMinutes(d).None? ==> add == 0
  {
    add := 0;
    if d != "" {
      var m := DurationMinutes(d);
      if m.Some? {
        add := m.value;
      }
    }
  }

  /** One slot's step of the sum: what the loop adds for slot `i` is that slot's layover. */
  lemma LayoverStep(durations: seq<string>, i: nat, d: string, add: nat)
    requires d == if i < |durations| then durations[i] else ""
    requires add == if d != "" && DurationMinutes(d).Some? then DurationMinutes(d).value else 0
    ensures LayoverMinutes(durations, i + 1) == LayoverMinutes(durations, i) + add
  {
  }

  /** The computation step by step: the total read, the three slots' layovers summed, the difference formatted. */
  method CalculateFlightTimes(total: string, stops: Stopovers) returns (r: string)
    ensures r == FlightTime(total, stops)
  {
    if total == "" {
      return "";
    }
    var totalMinutes := DurationMinutes(total);
    if totalMinutes.None? {
      return "";
    }
    var layovers := SumLayovers(stops.durations);
    var flight := (totalMinutes.value as int) - layovers;
    if flight <= 0 {
      return total;
    }
    r := FormatDuration(flight);
    FlightTimeOfPositive(total, stops, layovers, flight, r);
  }

  lemma FlightTimeOfPositive(total: string, stops: Stopovers, layovers: nat, flight: nat, r: string)
    requires layovers == LayoverMinutes(stops.durations, StopSlots)
    requires DurationMinutes(total).Some? && flight == DurationMinutes(total).value - layovers && flight > 0
    requires r == FormatDuration(flight)
    ensures r == FlightTime(total, stops)
  {
    FlightTimeFormatted(total, layovers);
  }

  // ---------------------------------------------------------------------
  // The direction of the route.

  /** Warsaw and Incheon, departure first: whichever code occurs first in
      the text, when both occur; Warsaw to Incheon otherwise. */
  function ParseAirports(text: string): (r: (string, string))
    ensures r == ("WAW", "ICN") || r == ("ICN", "WAW")
    ensures r == ("ICN", "WAW") <==> Contains(text, "WAW") && Contains(text, "ICN") && Find(text, "ICN") < Find(text, "WAW")
  {
    if Contains(text, "WAW") && Contains(text, "ICN") then
      var waw := Find(text, "WAW");
      var icn := Find(text, "ICN");
      OccursAtHead(text, "WAW", waw);
      OccursAtHead(text, "ICN", icn);
      if waw < icn then ("WAW", "ICN") else ("ICN", "WAW")
    else ("WAW", "ICN")
  }

  // ---------------------------------------------------------------------
  // The whole record.

  /** The details read from an offer's text. */
  datatype Details = Details(
    totalPrice: nat, pricePerPerson: nat,
    airlinesOutbound: string, airlinesReturn: string,
    departureAirport: string, destinationAirport: string,
    departureTime: string, arrivalTime: string,
    returnDepartureTime: string, returnArrivalTime: string,
    travelOutbound: string, travelReturn: string,
    flightOutbound: string, flightReturn: string,
    outboundStops: Stopovers, returnStops: Stopovers)

  /** `re.findall` of the time-range pattern: departure and arrival of each match. */
  function TimeRanges(text: string): (r: seq<(string, string)>)
    ensures |r| == |FindAll(TimeRangePattern, text)|
    ensures forall k :: 0 <= k < |r| ==>
              var m := TimeRangeAt(text, FindAll(TimeRangePattern, text)[k].start);
              m.Some? && m.value.end == FindAll(TimeRangePattern, text)[k].end
              && r[k] == (m.value.departure, m.value.arrival)
  {
    TimeRangeSpans(text);
    var spans := FindAll(TimeRangePattern, text);
    seq(|spans|, k requires 0 <= k < |spans| =>
      var m := TimeRangeAt(text, spans[k].start);
      if m.Some? then (m.value.departure, m.value.arrival) else ("", ""))
  }

  /** Each span found for the time-range pattern is a time-range match that ends where the span ends. */
  lemma TimeRangeSpans(text: string)
    ensures forall k :: 0 <= k < |FindAll(TimeRangePattern, text)| ==>
              var span := FindAll(TimeRangePattern, text)[k];
              span.start < span.end <= |text|
              && TimeRangeAt(text, span.start).Some? && TimeRangeAt(text, span.start).value.end == span.end
  {
    FindAllMatches(TimeRangePattern, text);
  }

  /** `re.findall` of `(\d+\s*h\s*\d+\s*min)`: the text of each match. */
  function DurationTexts(text: string): (r: seq<string>)
    ensures |r| == |FindAll(DurationPattern, text)|
    ensures forall k :: 0 <= k < |r| ==>
              var span := FindAll(DurationPattern, text)[k];
              DurationAt(text, span.start).Some? && DurationAt(text, span.start).value.end == span.end
              && r[k] == text[span.start..span.end]
  {
    DurationSpans(text);
    var spans := FindAll(DurationPattern, text);
    seq(|spans|, k requires 0 <= k < |spans| => text[spans[k].start..spans[k].end])
  }

  /** Each span found for `(\d+\s*h\s*\d+\s*min)` is a duration match that ends where the span ends. */
  lemma DurationSpans(text: string)
    ensures forall k :: 0 <= k < |FindAll(DurationPattern, text)| ==>
              var span := FindAll(DurationPattern, text)[k];
              span.start < span.end <= |text|
              && DurationAt(text, span.start).Some? && DurationAt(text, span.start).value.end == span.end
  {
    FindAllMatches(DurationPattern, text);
  }

  /** Entry `i` of a list, or the empty string when the list is shorter. */
  function Nth(s: seq<string>, i: nat): string {
    if i < |s| then s[i] else ""
  }

  /** Departure and arrival of time range `i`, or empty strings. */
  function Times(ranges: seq<(string, string)>, i: nat): (string, string) {
    if i < |ranges| then ranges[i] else ("", "")
  }

  /** The details of an offer: the airline from the file name for both
      directions, the route's direction, the first two time ranges and
      travel times, and for each section its stopovers and the flight
      time left after the layovers. */
  function ParseOfferFromText(offerText: string, perPerson: nat, total: nat, airline: string): (d: Details)
    ensures d.totalPrice == total && d.pricePerPerson == perPerson
    ensures d.airlinesOutbound == airline && d.airlinesReturn == airline
    ensures (d.departureAirport, d.destinationAirport) == ParseAirports(offerText)
    ensures FindAll(TimeRangePattern, offerText) == [] ==> d.departureTime == "" && d.arrivalTime == ""
    ensures |FindAll(TimeRangePattern, offerText)| >= 1 ==> (d.departureTime, d.arrivalTime) == TimeRanges(offerText)[0]
    ensures |FindAll(TimeRangePattern, offerText)| >= 2 ==>
              (d.returnDepartureTime, d.returnArrivalTime) == TimeRanges(offerText)[1]
    ensures |FindAll(DurationPattern, offerText)| >= 1 ==> d.travelOutbound == DurationTexts(offerText)[0]
    ensures |FindAll(DurationPattern, offerText)| >= 2 ==> d.travelReturn == DurationTexts(offerText)[1]
    ensures |FindAll(TimeRangePattern, offerText)| < 2 ==> d.returnDepartureTime == "" && d.returnArrivalTime == ""
    ensures FindAll(DurationPattern, offerText) == [] ==> d.travelOutbound == "" && d.flightOutbound == ""
    ensures d.outboundStops == StopoversOf(SplitSections(offerText).0)
    ensures d.returnStops == StopoversOf(SplitSections(offerText).1)
    ensures d.flightOutbound == FlightTime(d.travelOutbound, d.outboundStops)
    ensures d.flightReturn == FlightTime(d.travelReturn, d.returnStops)
    ensures |FindAll(DurationPattern, offerText)| < 2 ==> d.travelReturn == "" && d.flightReturn == ""
    ensures |FindAll(TimeRangePattern, offerText)| < 2 ==> d.returnStops == StopoversOf("")
  {
    var airports := ParseAirports(offerText);
    var ranges := TimeRanges(offerText);
    var durations := DurationTexts(offerText);
    var sections := SplitSections(offerText);
    var outboundStops := StopoversOf(sections.0);
    var returnStops := StopoversOf(sections.1);
    var travelOutbound := Nth(durations, 0);
    var travelReturn := Nth(durations, 1);
    Details(total, perPerson, airline, airline, airports.0, airports.1,
            Times(ranges, 0).0, Times(ranges, 0).1, Times(ranges, 1).0, Times(ranges, 1).1,
            travelOutbound, travelReturn,
            FlightTime(travelOutbound, outboundStops), FlightTime(travelReturn, returnStops),
            outboundStops, returnStops)
  }
}
