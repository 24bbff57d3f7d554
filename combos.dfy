/** The two date-combination generators of the text scrapers
    (`generate_date_combinations_rolling` and
    `generate_date_combinations_standard`, identical in both scraper
    versions). Each enumerates `(departure, return, duration)` triples over
    the window `[earliest, latest]` for durations `minDays..maxDays`: the
    rolling one with the departure date as the outer loop, the standard one
    with the duration as the outer loop. Dates are day ordinals; a date the
    loops compute outside years 1..9999 raises `OverflowError` in the source,
    which the generator's `except` branch turns into the empty list. */
module DateCombos {
  import opened Wrappers
  import opened Calendar

  /** One `(departure, return, duration)` triple, dates as day ordinals. */
  datatype Combo = Combo(departure: int, returnDay: int, duration: int)

  /** The constraints of the window: return = departure + duration, both
      dates inside `[earliest, latest]`, the duration inside `[minDays, maxDays]`. */
  predicate InWindow(c: Combo, earliest: int, latest: int, minDays: int, maxDays: int) {
    c.returnDay == c.departure + c.duration
    && earliest <= c.departure && c.returnDay <= latest
    && minDays <= c.duration <= maxDays
  }

  predicate IsDay(n: int) {
    1 <= n <= MaxOrdinal
  }

  // ---------------------------------------------------------------------
  // Rolling order: for each departure day, every duration that still fits.

  /** The triples for departure `dep` and durations `minDays..d-1`, in order. */
  function DurationsBelow(dep: int, latest: int, minDays: int, d: int): seq<Combo>
    decreases d - minDays
  {
    if d <= minDays then []
    else DurationsBelow(dep, latest, minDays, d - 1)
         + (if dep + (d - 1) <= latest then [Combo(dep, dep + (d - 1), d - 1)] else [])
  }

  /** The triples for departures `earliest..dep-1`, in order. */
  function RollingBelow(earliest: int, dep: int, latest: int, minDays: int, maxDays: int): seq<Combo>
    decreases dep - earliest
  {
    if dep <= earliest then []
    else RollingBelow(earliest, dep - 1, latest, minDays, maxDays) + DurationsBelow(dep - 1, latest, minDays, maxDays + 1)
  }

  /** Whether the rolling loops compute a date outside years 1..9999: the
      step past `latest`, or a return date `departure + duration`. */
  predicate RollingOverflows(earliest: int, latest: int, minDays: int, maxDays: int) {
    earliest <= latest
    && (latest == MaxOrdinal
        || (minDays <= maxDays && (earliest + minDays < 1 || latest + maxDays > MaxOrdinal)))
  }

  /** What the rolling generator returns for two parsed dates. */
  function Rolling(earliest: int, latest: int, minDays: int, maxDays: int): seq<Combo> {
    if RollingOverflows(earliest, latest, minDays, maxDays) then []
    else RollingBelow(earliest, latest + 1, latest, minDays, maxDays)
  }

  // ---------------------------------------------------------------------
  // Standard order: for each duration, every departure day that fits.

  /** The triples for one duration and departures `earliest..dep-1`, in order. */
  function DeparturesBelow(earliest: int, dep: int, d: int): seq<Combo>
    decreases dep - earliest
  {
    if dep <= earliest then [] else DeparturesBelow(earliest, dep - 1, d) + [Combo(dep - 1, dep - 1 + d, d)]
  }

  /** The triples for durations `minDays..d-1`; a duration whose last
      possible departure `latest - d` is before `earliest` adds nothing. */
  function StandardBelow(earliest: int, latest: int, minDays: int, d: int): seq<Combo>
    decreases d - minDays
  {
    if d <= minDays then []
    else StandardBelow(earliest, latest, minDays, d - 1)
         + (if latest - (d - 1) < earliest then [] else DeparturesBelow(earliest, latest - (d - 1) + 1, d - 1))
  }

  /** Whether the standard loops for duration `d` compute a date outside
      years 1..9999: the last possible departure `latest - d`, the first
      return date `earliest + d`, or the step past a last departure of 9999-12-31. */
  predicate DurationOverflows(earliest: int, latest: int, d: int) {
    !IsDay(latest - d) || (earliest <= latest - d && (earliest + d < 1 || latest - d == MaxOrdinal))
  }

  predicate StandardOverflows(earliest: int, latest: int, minDays: int, maxDays: int) {
    exists d :: minDays <= d <= maxDays && DurationOverflows(earliest, latest, d)
  }

  /** What the standard generator returns for two parsed dates. */
  function Standard(earliest: int, latest: int, minDays: int, maxDays: int): seq<Combo> {
    if StandardOverflows(earliest, latest, minDays, maxDays) then []
    else StandardBelow(earliest, latest, minDays, maxDays + 1)
  }

  // ---------------------------------------------------------------------
  // The generators on text dates: an unparsable date gives the empty list.

  function RollingCombos(earliest: string, latest: string, minDays: int, maxDays: int): seq<Combo> {
    match (ParseDate(earliest), ParseDate(latest))
    case (Some(e), Some(l)) => Rolling(e, l, minDays, maxDays)
    case _ => []
  }

  function StandardCombos(earliest: string, latest: string, minDays: int, maxDays: int): seq<Combo> {
    match (ParseDate(earliest), ParseDate(latest))
    case (Some(e), Some(l)) => Standard(e, l, minDays, maxDays)
    case _ => []
  }

  /** `generate_date_combinations_rolling`: parse both dates, then enumerate. */
  method GenerateRolling(earliestDeparture: string, latestReturn: string, minDays: int, maxDays: int)
    returns (combos: seq<Combo>)
    ensures combos == RollingCombos(earliestDeparture, latestReturn, minDays, maxDays)
  {
    var parsedEarliest, parsedLatest := ParseDate(earliestDeparture), ParseDate(latestReturn);
    if parsedEarliest.None? || parsedLatest.None? {
      return [];
    }
    combos := RollingDays(parsedEarliest.value, parsedLatest.value, minDays, maxDays);
  }

  /** `generate_date_combinations_standard`: parse both dates, then enumerate. */
  method GenerateStandard(earliestDeparture: string, latestReturn: string, minDays: int, maxDays: int)
    returns (combos: seq<Combo>)
    ensures combos == StandardCombos(earliestDeparture, latestReturn, minDays, maxDays)
  {
    var parsedEarliest, parsedLatest := ParseDate(earliestDeparture), ParseDate(latestReturn);
    if parsedEarliest.None? || parsedLatest.None? {
      return [];
    }
    combos := StandardDays(parsedEarliest.value, parsedLatest.value, minDays, maxDays);
  }

  /** The loops of the rolling generator on two parsed dates; an out-of-range
      date ends the whole generator with the empty list. */
  method RollingDays(earliest: int, latest: int, minDays: int, maxDays: int) returns (combos: seq<Combo>)
    requires IsDay(earliest) && IsDay(latest)
    ensures combos == Rolling(earliest, latest, minDays, maxDays)
  {
    combos := [];
    var current := earliest;
    while current <= latest
      invariant earliest <= current && (current <= latest + 1 || current == earliest)
      invariant IsDay(current)
      invariant current > earliest && minDays <= maxDays ==> earliest + minDays >= 1 && current - 1 + maxDays <= MaxOrdinal
      invariant combos == RollingBelow(earliest, current, latest, minDays, maxDays)
      decreases latest - current
    {
      ghost var before := combos;
      var duration := minDays;
      while duration <= maxDays
        invariant minDays <= duration && (duration <= maxDays + 1 || duration == minDays)
        invariant duration > minDays ==> IsDay(current + minDays) && IsDay(current + duration - 1)
        invariant combos == before + DurationsBelow(current, latest, minDays, duration)
        decreases maxDays - duration
      {
        var returnDate := current + duration;
        if !IsDay(returnDate) {
          return [];
        }
        if returnDate <= latest {
          combos := combos + [Combo(current, returnDate, duration)];
        }
        duration := duration + 1;
      }
      if current == MaxOrdinal {
        return [];
      }
      current := current + 1;
    }
  }

  /** The loops of the standard generator on two parsed dates. */
  method StandardDays(earliest: int, latest: int, minDays: int, maxDays: int) returns (combos: seq<Combo>)
    requires IsDay(earliest) && IsDay(latest)
    ensures combos == Standard(earliest, latest, minDays, maxDays)
  {
    combos := [];
    var duration := minDays;
    while duration <= maxDays
      invariant minDays <= duration && (duration <= maxDays + 1 || duration == minDays)
      invariant forall d :: minDays <= d < duration ==> !DurationOverflows(earliest, latest, d)
      invariant combos == StandardBelow(earliest, latest, minDays, duration)
      decreases maxDays - duration
    {
      var latestPossibleDeparture := latest - duration;
      if !IsDay(latestPossibleDeparture) {
        assert DurationOverflows(earliest, latest, duration);
        return [];
      }
      if latestPossibleDeparture < earliest {
        duration := duration + 1;
        continue;
      }
      var found, overflow := StandardDepartures(earliest, latestPossibleDeparture, latest, duration);
      if overflow {
        return [];
      }
      combos := combos + found;
      duration := duration + 1;
    }
  }

  /** The inner loop of the standard generator: every departure day from
      `earliest` to the last possible departure `latest - duration`; an
      out-of-range return date, or the step past 9999-12-31, is reported as
      an overflow. */
  method StandardDepartures(earliest: int, lastDeparture: int, latest: int, duration: int)
    returns (found: seq<Combo>, overflow: bool)
    requires IsDay(earliest) && IsDay(latest) && IsDay(lastDeparture) && earliest <= lastDeparture
    requires lastDeparture == latest - duration
    ensures overflow <==> DurationOverflows(earliest, latest, duration)
    ensures !overflow ==> found == DeparturesBelow(earliest, lastDeparture + 1, duration)
  {
    found := [];
    var current := earliest;
    while current <= lastDeparture
      invariant earliest <= current <= lastDeparture + 1
      invariant current > earliest ==> earliest + duration >= 1 && current - 1 < MaxOrdinal
      invariant found == DeparturesBelow(earliest, current, duration)
      decreases lastDeparture - current
    {
      var returnDate := current + duration;
      if !IsDay(returnDate) {
        return found, true;
      }
      if returnDate <= latest {
        found := found + [Combo(current, returnDate, duration)];
      }
      if current == MaxOrdinal {
        return found, true;
      }
      current := current + 1;
    }
    overflow := false;
  }

  // ---------------------------------------------------------------------
  // What the generators produce: membership, order, and agreement.

  lemma {:induction false} DurationsBelowMembers(dep: int, latest: int, minDays: int, d: int, c: Combo)
    ensures c in DurationsBelow(dep, latest, minDays, d)
            <==> c.departure == dep && c.returnDay == dep + c.duration && minDays <= c.duration < d && c.returnDay <= latest
    decreases d - minDays
  {
    if d > minDays {
      DurationsBelowMembers(dep, latest, minDays, d - 1, c);
    }
  }

  lemma {:induction false} RollingBelowMembers(earliest: int, dep: int, latest: int, minDays: int, maxDays: int, c: Combo)
    ensures c in RollingBelow(earliest, dep, latest, minDays, maxDays)
            <==> earliest <= c.departure < dep && c.returnDay == c.departure + c.duration
                 && minDays <= c.duration <= maxDays && c.returnDay <= latest
    decreases dep - earliest
  {
    if dep > earliest {
      var a := RollingBelow(earliest, dep - 1, latest, minDays, maxDays);
      var b := DurationsBelow(dep - 1, latest, minDays, maxDays + 1);
      assert RollingBelow(earliest, dep, latest, minDays, maxDays) == a + b;
      assert c in a + b <==> c in a || c in b;
      RollingBelowMembers(earliest, dep - 1, latest, minDays, maxDays, c);
      DurationsBelowMembers(dep - 1, latest, minDays, maxDays + 1, c);
    }
  }

  lemma {:induction false} DeparturesBelowMembers(earliest: int, dep: int, d: int, c: Combo)
    ensures c in DeparturesBelow(earliest, dep, d)
            <==> earliest <= c.departure < dep && c.duration == d && c.returnDay == c.departure + d
    decreases dep - earliest
  {
    if dep > earliest {
      DeparturesBelowMembers(earliest, dep - 1, d, c);
    }
  }

  lemma {:induction false} StandardBelowMembers(earliest: int, latest: int, minDays: int, d: int, c: Combo)
    ensures c in StandardBelow(earliest, latest, minDays, d)
            <==> minDays <= c.duration < d && earliest <= c.departure
                 && c.returnDay == c.departure + c.duration && c.returnDay <= latest
    decreases d - minDays
  {
    if d > minDays {
      var a := StandardBelow(earliest, latest, minDays, d - 1);
      StandardBelowMembers(earliest, latest, minDays, d - 1, c);
      if latest - (d - 1) < earliest {
        assert StandardBelow(earliest, latest, minDays, d) == a + [];
      } else {
        var b := DeparturesBelow(earliest, latest - (d - 1) + 1, d - 1);
        assert StandardBelow(earliest, latest, minDays, d) == a + b;
        assert c in a + b <==> c in a || c in b;
        DeparturesBelowMembers(earliest, latest - (d - 1) + 1, d - 1, c);
      }
    }
  }

  /** Without an overflow, the rolling generator yields exactly the triples
      of the window whose departure is not after `latest`. */
  lemma RollingMembers(earliest: int, latest: int, minDays: int, maxDays: int, c: Combo)
    requires !RollingOverflows(earliest, latest, minDays, maxDays)
    ensures c in Rolling(earliest, latest, minDays, maxDays)
            <==> InWindow(c, earliest, latest, minDays, maxDays) && c.departure <= latest
  {
    RollingBelowMembers(earliest, latest + 1, latest, minDays, maxDays, c);
  }

  /** Without an overflow, the standard generator yields exactly the triples
      of the window. */
  lemma StandardMembers(earliest: int, latest: int, minDays: int, maxDays: int, c: Combo)
    requires !StandardOverflows(earliest, latest, minDays, maxDays)
    ensures c in Standard(earliest, latest, minDays, maxDays) <==> InWindow(c, earliest, latest, minDays, maxDays)
  {
    StandardBelowMembers(earliest, latest, minDays, maxDays + 1, c);
  }

  /** Rolling order: by departure, then by duration. */
  predicate RollingBefore(a: Combo, b: Combo) {
    a.departure < b.departure || (a.departure == b.departure && a.duration < b.duration)
  }

  /** Standard order: by duration, then by departure. */
  predicate StandardBefore(a: Combo, b: Combo) {
    a.duration < b.duration || (a.duration == b.duration && a.departure < b.departure)
  }

  predicate RollingSorted(s: seq<Combo>) {
    forall i, j :: 0 <= i < j < |s| ==> RollingBefore(s[i], s[j])
  }

  predicate StandardSorted(s: seq<Combo>) {
    forall i, j :: 0 <= i < j < |s| ==> StandardBefore(s[i], s[j])
  }

  predicate Distinct(s: seq<Combo>) {
    forall i, j :: 0 <= i < j < |s| ==> s[i] != s[j]
  }

  lemma {:induction false} DurationsBelowSorted(dep: int, latest: int, minDays: int, d: int)
    ensures RollingSorted(DurationsBelow(dep, latest, minDays, d))
    decreases d - minDays
  {
    if d > minDays {
      var a := DurationsBelow(dep, latest, minDays, d - 1);
      DurationsBelowSorted(dep, latest, minDays, d - 1);
      forall i | 0 <= i < |a|
        ensures a[i].departure == dep && a[i].duration < d - 1
      {
        DurationsBelowMembers(dep, latest, minDays, d - 1, a[i]);
      }
    }
  }

  lemma {:induction false} RollingBelowSorted(earliest: int, dep: int, latest: int, minDays: int, maxDays: int)
    ensures RollingSorted(RollingBelow(earliest, dep, latest, minDays, maxDays))
    decreases dep - earliest
  {
    if dep > earliest {
      var a := RollingBelow(earliest, dep - 1, latest, minDays, maxDays);
      var b := DurationsBelow(dep - 1, latest, minDays, maxDays + 1);
      RollingBelowSorted(earliest, dep - 1, latest, minDays, maxDays);
      DurationsBelowSorted(dep - 1, latest, minDays, maxDays + 1);
      forall i | 0 <= i < |a|
        ensures a[i].departure < dep - 1
      {
        RollingBelowMembers(earliest, dep - 1, latest, minDays, maxDays, a[i]);
      }
      forall j | 0 <= j < |b|
        ensures b[j].departure == dep - 1
      {
        DurationsBelowMembers(dep - 1, latest, minDays, maxDays + 1, b[j]);
      }
      assert forall i, j :: 0 <= i < j < |a + b| ==> RollingBefore((a + b)[i], (a + b)[j]) by {
        forall i, j | 0 <= i < j < |a + b|
          ensures RollingBefore((a + b)[i], (a + b)[j])
        {
          if j < |a| {
          } else if i >= |a| {
            assert (a + b)[i] == b[i - |a|] && (a + b)[j] == b[j - |a|];
          }
        }
      }
    }
  }

  lemma {:induction false} DeparturesBelowSorted(earliest: int, dep: int, d: int)
    ensures StandardSorted(DeparturesBelow(earliest, dep, d))
    decreases dep - earliest
  {
    if dep > earliest {
      var a := DeparturesBelow(earliest, dep - 1, d);
      DeparturesBelowSorted(earliest, dep - 1, d);
      forall i | 0 <= i < |a|
        ensures a[i].duration == d && a[i].departure < dep - 1
      {
        DeparturesBelowMembers(earliest, dep - 1, d, a[i]);
      }
    }
  }

  lemma {:induction false} StandardBelowSorted(earliest: int, latest: int, minDays: int, d: int)
    ensures StandardSorted(StandardBelow(earliest, latest, minDays, d))
    decreases d - minDays
  {
    if d > minDays {
      var a := StandardBelow(earliest, latest, minDays, d - 1);
      var b := if latest - (d - 1) < earliest then [] else DeparturesBelow(earliest, latest - (d - 1) + 1, d - 1);
      StandardBelowSorted(earliest, latest, minDays, d - 1);
      if latest - (d - 1) >= earliest {
        DeparturesBelowSorted(earliest, latest - (d - 1) + 1, d - 1);
      }
      forall i | 0 <= i < |a|
        ensures a[i].duration < d - 1
      {
        StandardBelowMembers(earliest, latest, minDays, d - 1, a[i]);
      }
      forall j | 0 <= j < |b|
        ensures b[j].duration == d - 1
      {
        DeparturesBelowMembers(earliest, latest - (d - 1) + 1, d - 1, b[j]);
      }
      SortedByDuration(a, b, d - 1);
    }
  }

  /** Two standard-sorted lists, every duration of the first below the
      single duration of the second, stay sorted one after the other. */
  lemma SortedByDuration(a: seq<Combo>, b: seq<Combo>, duration: int)
    requires StandardSorted(a) && StandardSorted(b)
    requires forall i :: 0 <= i < |a| ==> a[i].duration < duration
    requires forall j :: 0 <= j < |b| ==> b[j].duration == duration
    ensures StandardSorted(a + b)
  {
    forall i, j | 0 <= i < j < |a + b|
      ensures StandardBefore((a + b)[i], (a + b)[j])
    {
      if j < |a| {
      } else if i >= |a| {
        assert (a + b)[i] == b[i - |a|] && (a + b)[j] == b[j - |a|];
      }
    }
  }

  /** The rolling list is ordered by departure, then duration, and so has no repeats. */
  lemma RollingOrdered(earliest: int, latest: int, minDays: int, maxDays: int)
    ensures RollingSorted(Rolling(earliest, latest, minDays, maxDays))
    ensures Distinct(Rolling(earliest, latest, minDays, maxDays))
  {
    RollingBelowSorted(earliest, latest + 1, latest, minDays, maxDays);
  }

  /** The standard list is ordered by duration, then departure, and so has no repeats. */
  lemma StandardOrdered(earliest: int, latest: int, minDays: int, maxDays: int)
    ensures StandardSorted(Standard(earliest, latest, minDays, maxDays))
    ensures Distinct(Standard(earliest, latest, minDays, maxDays))
  {
    StandardBelowSorted(earliest, latest, minDays, maxDays + 1);
  }

  /** In a list without repeats every element occurs once. */
  lemma {:induction false} DistinctCount(s: seq<Combo>, x: Combo)
    requires Distinct(s)
    ensures multiset(s)[x] == if x in s then 1 else 0
  {
    if s != [] {
      var init := s[..|s| - 1];
      assert s == init + [s[|s| - 1]];
      assert Distinct(init);
      DistinctCount(init, x);
      assert x in s <==> x in init || x == s[|s| - 1];
    }
  }

  /** For non-negative durations and no overflow, the two generators produce
      the same triples, each once, only in a different order; in particular
      the same number of them. */
  lemma SameCombos(earliest: int, latest: int, minDays: int, maxDays: int)
    requires 0 <= minDays
    requires !RollingOverflows(earliest, latest, minDays, maxDays)
    requires !StandardOverflows(earliest, latest, minDays, maxDays)
    ensures multiset(Rolling(earliest, latest, minDays, maxDays)) == multiset(Standard(earliest, latest, minDays, maxDays))
    ensures |Rolling(earliest, latest, minDays, maxDays)| == |Standard(earliest, latest, minDays, maxDays)|
  {
    var r, s := Rolling(earliest, latest, minDays, maxDays), Standard(earliest, latest, minDays, maxDays);
    RollingOrdered(earliest, latest, minDays, maxDays);
    StandardOrdered(earliest, latest, minDays, maxDays);
    forall x
      ensures multiset(r)[x] == multiset(s)[x]
    {
      RollingMembers(earliest, latest, minDays, maxDays, x);
      StandardMembers(earliest, latest, minDays, maxDays, x);
      DistinctCount(r, x);
      DistinctCount(s, x);
    }
    assert multiset(r) == multiset(s);
    assert |multiset(r)| == |r| && |multiset(s)| == |s|;
  }

  /** Every standard triple holds two valid dates inside the window. */
  lemma StandardDates(earliest: int, latest: int, minDays: int, maxDays: int, c: Combo)
    requires IsDay(earliest) && IsDay(latest)
    requires c in Standard(earliest, latest, minDays, maxDays)
    ensures InWindow(c, earliest, latest, minDays, maxDays)
    ensures IsDay(c.departure) && IsDay(c.returnDay)
  {
    StandardMembers(earliest, latest, minDays, maxDays, c);
    assert !DurationOverflows(earliest, latest, c.duration);
  }

  /** With a negative duration the two disagree: for a one-day window the
      standard generator also emits a departure the day after `latest`. */
  lemma NegativeDurationDiffers()
    ensures Rolling(10, 10, -1, -1) == [Combo(10, 9, -1)]
    ensures Standard(10, 10, -1, -1) == [Combo(10, 9, -1), Combo(11, 10, -1)]
  {
    assert !StandardOverflows(10, 10, -1, -1) by {
      forall d | -1 <= d <= -1 ensures !DurationOverflows(10, 10, d) { }
    }
    assert DeparturesBelow(10, 12, -1) == [Combo(10, 9, -1), Combo(11, 10, -1)] by {
      assert DeparturesBelow(10, 11, -1) == [Combo(10, 9, -1)];
    }
  }
}
