/** The Excel list scraper (`kayak_excel_scraper.py`): spreadsheet rows are
    validated into flight targets, every target is bound to its registry
    entry, and the per-airline and per-route statistics are tallied. */
module ExcelScraper {
  import opened Wrappers
  import opened Text
  import opened Calendar
  import opened Shuffling
  import opened Scraping

  // ---------------------------------------------------------------------
  // Flight targets.

  /** `FlightTarget` after `__post_init__` has filled in the duration. */
  datatype FlightTarget = FlightTarget(
    origin: string, destination: string, airlineKey: string,
    departureDate: string, returnDate: string, durationDays: int)

  /** The constructor with no duration given: both dates go through
      `strptime("%Y-%m-%d")` (a `ValueError` when either does not parse) and
      the duration is their difference in days. */
  function MakeTarget(origin: string, destination: string, key: string, departure: string, returnDate: string)
    : (r: Option<FlightTarget>)
    ensures r.Some? <==> ParseDate(departure).Some? && ParseDate(returnDate).Some?
    ensures r.Some? ==> r.value.origin == origin && r.value.destination == destination && r.value.airlineKey == key
                        && r.value.departureDate == departure && r.value.returnDate == returnDate
                        && ParseDate(returnDate).value == ParseDate(departure).value + r.value.durationDays
  {
    match (ParseDate(departure), ParseDate(returnDate))
    case (Some(dep), Some(ret)) => Some(FlightTarget(origin, destination, key, departure, returnDate, ret - dep))
    case _ => None
  }

  // ---------------------------------------------------------------------
  // Spreadsheet rows.

  /** A spreadsheet cell as pandas hands it over: empty (`NaN`), text, a date
      (an ordinal day) or any other value, shown by its `str()`. */
  datatype Cell = Missing | Text(text: string) | Day(ordinal: int) | Other(shown: string)

  /** `str(cell)` */
  function CellString(c: Cell): string {
    match c
    case Missing => "nan"
    case Text(s) => s
    case Day(n) => FormatDate(n) + " 00:00:00"
    case Other(s) => s
  }

  /** A date cell as the row loop reads it: text verbatim, a date through
      `strftime('%Y-%m-%d')`; any other value has no `strftime` and raises. */
  function DateString(c: Cell): Option<string> {
    match c
    case Text(s) => Some(s)
    case Day(n) => Some(FormatDate(n))
    case _ => None
  }

  /** The five required columns. */
  datatype Row = Row(origin: Cell, destination: Cell, airline: Cell, departure: Cell, returnDate: Cell)

  const RequiredColumns: seq<string> := ["Lotnisko wylotu", "Lotnisko docelowe", "Filtr linii", "Data wylotu", "Data powrotu"]

  /** The required columns the sheet lacks, in the required order. */
  function MissingColumns(columns: set<string>): (r: seq<string>)
    ensures forall c :: c in r <==> c in RequiredColumns && c !in columns
  {
    MissingFrom(RequiredColumns, columns)
  }

  function MissingFrom(required: seq<string>, columns: set<string>): (r: seq<string>)
    ensures forall c :: c in r <==> c in required && c !in columns
  {
    if required == [] then []
    else MissingFrom(required[..|required| - 1], columns)
         + (if required[|required| - 1] in columns then [] else [required[|required| - 1]])
  }

  /** Why a row is skipped, in the order the checks run. */
  datatype Skip = EmptyFields | BadAirportCodes | BadDateCell | UnknownAirline | BadDate

  /** One iteration of the row loop: the cleaned codes and key, then the
      checks in the source's order; every failure skips the row. */
  function ReadRow(row: Row, airlines: Registry): (r: Result<FlightTarget, Skip>)
    ensures r == Err(EmptyFields) <==>
              row.departure.Missing? || row.returnDate.Missing? || row.origin.Missing? || row.destination.Missing?
    ensures r == Err(BadAirportCodes) ==>
              |Upper(Strip(CellString(row.origin)))| != 3 || |Upper(Strip(CellString(row.destination)))| != 3
    ensures r == Err(UnknownAirline) ==> Strip(CellString(row.airline)) !in airlines
    ensures r.Ok? ==> |r.value.origin| == 3 && |r.value.destination| == 3 && r.value.airlineKey in airlines
  {
    var origin := Upper(Strip(CellString(row.origin)));
    var destination := Upper(Strip(CellString(row.destination)));
    var key := Strip(CellString(row.airline));
    if row.departure.Missing? || row.returnDate.Missing? || row.origin.Missing? || row.destination.Missing? then
      Err(EmptyFields)
    else if |origin| != 3 || |destination| != 3 then Err(BadAirportCodes)
    else if DateString(row.departure).None? || DateString(row.returnDate).None? then Err(BadDateCell)
    else if key !in airlines then Err(UnknownAirline)
    else
      match MakeTarget(origin, destination, key, DateString(row.departure).value, DateString(row.returnDate).value)
      case None => Err(BadDate)
      case Some(target) => Ok(target)
  }

  /** A row becomes a flight exactly when none of its date or airport cells
      is empty, both cleaned codes have three characters, both date cells
      give a date that parses, and its key is in the registry; the flight
      then carries the cleaned fields and the day difference. */
  lemma ReadRowAccepts(row: Row, airlines: Registry)
    ensures var r := ReadRow(row, airlines);
            var origin := Upper(Strip(CellString(row.origin)));
            var destination := Upper(Strip(CellString(row.destination)));
            var key := Strip(CellString(row.airline));
            var dep, ret := DateString(row.departure), DateString(row.returnDate);
            && (r.Ok? <==> (!row.departure.Missing? && !row.returnDate.Missing? && !row.origin.Missing?
                           && !row.destination.Missing? && |origin| == 3 && |destination| == 3
                           && dep.Some? && ret.Some? && key in airlines
                           && ParseDate(dep.value).Some? && ParseDate(ret.value).Some?))
            && (r.Ok? ==> r.value.origin == origin && r.value.destination == destination && r.value.airlineKey == key
                          && r.value.departureDate == dep.value && r.value.returnDate == ret.value
                          && ParseDate(ret.value).value == ParseDate(dep.value).value + r.value.durationDays)
  {
    var origin := Upper(Strip(CellString(row.origin)));
    var destination := Upper(Strip(CellString(row.destination)));
    var key := Strip(CellString(row.airline));
    var dep, ret := DateString(row.departure), DateString(row.returnDate);
    if !row.departure.Missing? && !row.returnDate.Missing? && !row.origin.Missing? && !row.destination.Missing?
       && |origin| == 3 && |destination| == 3 && dep.Some? && ret.Some? && key in airlines {
      var t := MakeTarget(origin, destination, key, dep.value, ret.value);
      assert ReadRow(row, airlines) == if t.Some? then Ok(t.value) else Err(BadDate);
    }
  }

  /** A date cell holding a date reads back as that very day. */
  lemma DayCellDate(n: int)
    requires 1 <= n <= MaxOrdinal
    ensures DateString(Day(n)).Some? && ParseDate(DateString(Day(n)).value) == Some(n)
  {
    ParseFormatDate(n);
  }

  /** The row loop's reading of one row against a registry. */
  function RowReader(airlines: Registry): Row -> Result<FlightTarget, Skip> {
    (row: Row) => ReadRow(row, airlines)
  }

  /** The flights of the row loop, in row order. */
  function AcceptedFlights(rows: seq<Row>, airlines: Registry): seq<FlightTarget> {
    Kept(rows, RowReader(airlines))
  }

  /** The `Ok` values of `read` over `xs`, in order. */
  function Kept<T, U, E>(xs: seq<T>, read: T -> Result<U, E>): seq<U> {
    if xs == [] then []
    else
      var r := read(xs[|xs| - 1]);
      Kept(xs[..|xs| - 1], read) + (if r.Ok? then [r.value] else [])
  }

  /** One more input read: its value is kept when the read succeeds. */
  lemma KeptStep<T, U, E>(xs: seq<T>, read: T -> Result<U, E>, i: nat)
    requires i < |xs|
    ensures Kept(xs[..i + 1], read) == Kept(xs[..i], read) + (if read(xs[i]).Ok? then [read(xs[i]).value] else [])
  {
    assert xs[..i + 1][..i] == xs[..i];
  }

  /** Every kept value was read from one of the inputs. */
  lemma {:induction false} KeptFrom<T, U, E>(xs: seq<T>, read: T -> Result<U, E>, y: U)
    requires y in Kept(xs, read)
    ensures exists i :: 0 <= i < |xs| && read(xs[i]) == Ok(y)
    decreases |xs|
  {
    var init := xs[..|xs| - 1];
    if y in Kept(init, read) {
      KeptFrom(init, read, y);
      var i :| 0 <= i < |init| && read(init[i]) == Ok(y);
      assert xs[i] == init[i];
    } else {
      assert read(xs[|xs| - 1]) == Ok(y);
    }
  }

  /** A flight read from a row has three-character codes, a known airline and
      two dates that parse, the return date `durationDays` after departure. */
  lemma RowFlightValid(row: Row, airlines: Registry, f: FlightTarget)
    requires ReadRow(row, airlines) == Ok(f)
    ensures |f.origin| == 3 && |f.destination| == 3 && f.airlineKey in airlines
    ensures exists dep, ret :: ParseDate(f.departureDate) == Some(dep) && ParseDate(f.returnDate) == Some(ret)
                               && ret == dep + f.durationDays
  {
    assert ParseDate(f.departureDate).Some? && ParseDate(f.returnDate).Some?;
  }

  /** Every loaded flight passed every check. */
  lemma AcceptedFlightsValid(rows: seq<Row>, airlines: Registry, f: FlightTarget)
    requires f in AcceptedFlights(rows, airlines)
    ensures |f.origin| == 3 && |f.destination| == 3 && f.airlineKey in airlines
    ensures exists dep, ret :: ParseDate(f.departureDate) == Some(dep) && ParseDate(f.returnDate) == Some(ret)
                               && ret == dep + f.durationDays
    ensures exists i :: 0 <= i < |rows| && ReadRow(rows[i], airlines) == Ok(f)
  {
    KeptFrom(rows, RowReader(airlines), f);
    var i :| 0 <= i < |rows| && RowReader(airlines)(rows[i]) == Ok(f);
    assert ReadRow(rows[i], airlines) == Ok(f);
    RowFlightValid(rows[i], airlines, f);
  }

  /** The whole of `load_flights_from_excel` once the sheet is read: a
      missing required column raises before any row is looked at. */
  function LoadedFlights(columns: set<string>, rows: seq<Row>, airlines: Registry): (r: Result<seq<FlightTarget>, seq<string>>)
    ensures r.Err? <==> exists c :: c in RequiredColumns && c !in columns
    ensures r.Err? ==> r.error == MissingColumns(columns)
    ensures r.Ok? ==> r.value == AcceptedFlights(rows, airlines)
  {
    var missing := MissingColumns(columns);
    if missing != [] then
      assert missing[0] in missing;
      Err(missing)
    else
      assert forall c :: c in RequiredColumns ==> c in columns;
      Ok(AcceptedFlights(rows, airlines))
  }

  // ---------------------------------------------------------------------
  // Statistics.

  /** `counts[k] = counts.get(k, 0) + 1` for every key in order. */
  function Tally(keys: seq<string>): map<string, nat> {
    if keys == [] then map[]
    else
      var counts := Tally(keys[..|keys| - 1]);
      var k := keys[|keys| - 1];
      counts[k := (if k in counts then counts[k] else 0) + 1]
  }

  /** Counting one more key adds one to its count. */
  lemma TallyStep(keys: seq<string>, i: nat)
    requires i < |keys|
    ensures var counts := Tally(keys[..i]);
            Tally(keys[..i + 1]) == counts[keys[i] := (if keys[i] in counts then counts[keys[i]] else 0) + 1]
  {
    assert keys[..i + 1][..i] == keys[..i];
  }

  /** The sum of the counts of a map. */
  ghost function MapSum(m: map<string, nat>): nat
    decreases |m.Keys|
  {
    if m == map[] then 0
    else
      var k :| k in m.Keys;
      m[k] + MapSum(m - {k})
  }

  lemma {:induction false} MapSumRemove(m: map<string, nat>, k: string)
    requires k in m
    ensures MapSum(m) == m[k] + MapSum(m - {k})
    decreases |m.Keys|
  {
    var j :| j in m.Keys && MapSum(m) == m[j] + MapSum(m - {j});
    if j != k {
      var mj, mk := m - {j}, m - {k};
      assert |mj.Keys| < |m.Keys| && |mk.Keys| < |m.Keys| by {
        assert mj.Keys < m.Keys && mk.Keys < m.Keys;
      }
      MapSumRemove(mj, k);
      MapSumRemove(mk, j);
      assert mj - {k} == mk - {j};
    }
  }

  /** Each key is counted as often as it occurs, and only keys that occur are counted. */
  lemma {:induction false} TallyCounts(keys: seq<string>, k: string)
    ensures k in Tally(keys) <==> k in keys
    ensures k in Tally(keys) ==> Tally(keys)[k] == multiset(keys)[k]
    decreases |keys|
  {
    if keys != [] {
      var init := keys[..|keys| - 1];
      TallyCounts(init, k);
      assert keys == init + [keys[|keys| - 1]];
    }
  }

  /** The counts add up to the number of keys. */
  lemma {:induction false} TallySum(keys: seq<string>)
    ensures MapSum(Tally(keys)) == |keys|
    decreases |keys|
  {
    if keys == [] {
    } else {
      var init := keys[..|keys| - 1];
      var counts := Tally(init);
      var k := keys[|keys| - 1];
      var next := Tally(keys);
      TallySum(init);
      MapSumRemove(next, k);
      assert next - {k} == counts - {k};
      if k in counts {
        MapSumRemove(counts, k);
      } else {
        assert counts - {k} == counts;
      }
    }
  }

  function RouteName(f: FlightTarget): string {
    f.origin + "-" + f.destination
  }

  function AirlineKeys(flights: seq<FlightTarget>): (r: seq<string>)
    ensures |r| == |flights| && forall i :: 0 <= i < |flights| ==> r[i] == flights[i].airlineKey
  {
    seq(|flights|, i requires 0 <= i < |flights| => flights[i].airlineKey)
  }

  function RouteNames(flights: seq<FlightTarget>): (r: seq<string>)
    ensures |r| == |flights| && forall i :: 0 <= i < |flights| ==> r[i] == RouteName(flights[i])
  {
    seq(|flights|, i requires 0 <= i < |flights| => RouteName(flights[i]))
  }

  /** The statistics loop of `load_flights_from_excel`. */
  method CountFlights(flights: seq<FlightTarget>) returns (airlineCounts: map<string, nat>, routeCounts: map<string, nat>)
    ensures airlineCounts == Tally(AirlineKeys(flights))
    ensures routeCounts == Tally(RouteNames(flights))
    ensures MapSum(airlineCounts) == |flights| && MapSum(routeCounts) == |flights|
  {
    airlineCounts, routeCounts := map[], map[];
    ghost var airlines, routes := AirlineKeys(flights), RouteNames(flights);
    for i := 0 to |flights|
      invariant airlineCounts == Tally(airlines[..i])
      invariant routeCounts == Tally(routes[..i])
    {
      var flight := flights[i];
      TallyStep(airlines, i);
      TallyStep(routes, i);
      var airline := flight.airlineKey;
      airlineCounts := airlineCounts[airline := (if airline in airlineCounts then airlineCounts[airline] else 0) + 1];
      var route := RouteName(flight);
      routeCounts := routeCounts[route := (if route in routeCounts then routeCounts[route] else 0) + 1];
    }
    assert airlines[..|flights|] == airlines && routes[..|flights|] == routes;
    TallySum(airlines);
    TallySum(routes);
  }

  // ---------------------------------------------------------------------
  // Requests.

  /** `ScrapingRequest` of the Excel scraper. */
  datatype ExcelRequest = ExcelRequest(target: FlightTarget, airlineName: string, airlineFilter: string, passengers: int)

  /** The `scraping_config` keys the Excel scraper reads. */
  datatype ExcelConfig = ExcelConfig(passengers: int, randomizeOrder: Option<bool>)

  /** The flights whose airline the registry knows, in order. */
  function KnownFlights(flights: seq<FlightTarget>, airlines: Registry): seq<FlightTarget> {
    if flights == [] then []
    else
      var f := flights[|flights| - 1];
      KnownFlights(flights[..|flights| - 1], airlines) + (if f.airlineKey in airlines then [f] else [])
  }

  function RequestOf(f: FlightTarget, airlines: Registry, passengers: int): ExcelRequest
    requires f.airlineKey in airlines
  {
    ExcelRequest(f, airlines[f.airlineKey].name, airlines[f.airlineKey].filter, passengers)
  }

  /** The request loop of `generate_requests`. */
  function ExcelRequests(flights: seq<FlightTarget>, airlines: Registry, passengers: int): seq<ExcelRequest> {
    if flights == [] then []
    else
      var f := flights[|flights| - 1];
      ExcelRequests(flights[..|flights| - 1], airlines, passengers)
      + (if f.airlineKey in airlines then [RequestOf(f, airlines, passengers)] else [])
  }

  /** The built list is the known flights, in their order, each bound to
      its registry entry and the configured passenger count. */
  lemma {:induction false} ExcelRequestsInOrder(flights: seq<FlightTarget>, airlines: Registry, passengers: int)
    ensures var known := KnownFlights(flights, airlines);
            var built := ExcelRequests(flights, airlines, passengers);
            |built| == |known|
            && forall i :: 0 <= i < |known| ==> known[i].airlineKey in airlines && built[i] == RequestOf(known[i], airlines, passengers)
    decreases |flights|
  {
    if flights != [] {
      ExcelRequestsInOrder(flights[..|flights| - 1], airlines, passengers);
    }
  }

  /** A list of flights whose airlines are all known keeps all of them. */
  lemma {:induction false} KnownFlightsAll(flights: seq<FlightTarget>, airlines: Registry)
    requires forall i :: 0 <= i < |flights| ==> flights[i].airlineKey in airlines
    ensures KnownFlights(flights, airlines) == flights
    decreases |flights|
  {
    if flights != [] {
      var init := flights[..|flights| - 1];
      KnownFlightsAll(init, airlines);
      assert init + [flights[|flights| - 1]] == flights;
    }
  }

  /** Flights loaded from the sheet all have a known airline, so none is dropped. */
  lemma LoadedFlightsAllKnown(rows: seq<Row>, airlines: Registry)
    ensures KnownFlights(AcceptedFlights(rows, airlines), airlines) == AcceptedFlights(rows, airlines)
  {
    var flights := AcceptedFlights(rows, airlines);
    forall i | 0 <= i < |flights| ensures flights[i].airlineKey in airlines {
      AcceptedFlightsValid(rows, airlines, flights[i]);
    }
    KnownFlightsAll(flights, airlines);
  }

  /** The order `generate_requests` returns: shuffled unless
      `randomize_order` is false. */
  function OrderedRequests(cfg: ExcelConfig, built: seq<ExcelRequest>, draw: nat -> nat): (r: seq<ExcelRequest>)
    ensures multiset(r) == multiset(built) && |r| == |built|
    ensures cfg.randomizeOrder == Some(false) ==> r == built
  {
    ShuffledPermutes(built, draw);
    if cfg.randomizeOrder == Some(false) then built else Shuffled(built, draw)
  }

  function ExcelUrl(r: ExcelRequest): (u: string)
    ensures UrlShape(u, r.target.origin, r.target.destination, r.airlineFilter)
  {
    KayakUrl(r.target.origin, r.target.destination, r.target.departureDate, r.target.returnDate, r.passengers, r.airlineFilter)
  }

  function ExcelBaseName(roundNumber: Option<int>, r: ExcelRequest, timestamp: string): (b: string)
    ensures |b| > |RoundPrefix(roundNumber)| + |timestamp| && b[..|RoundPrefix(roundNumber)|] == RoundPrefix(roundNumber)
    ensures b[|b| - |timestamp| - 1] == '_' && b[|b| - |timestamp|..] == timestamp
  {
    BaseName(roundNumber, r.target.origin, r.target.destination, r.target.airlineKey,
             r.target.departureDate, r.target.returnDate, timestamp)
  }

  /** `save_session_summary`: the tallies plus the number of flights read from the sheet. */
  datatype ExcelSummary = ExcelSummary(totalFlights: nat, tallies: Summary)

  function SessionSummary(flights: seq<FlightTarget>, requests: seq<ExcelRequest>, results: seq<TextResult<ExcelRequest>>)
    : (s: ExcelSummary)
    ensures s.totalFlights == |flights| && s.tallies.totalRequests == |requests|
    ensures s.tallies.successful + s.tallies.failed == |results|
    ensures forall i :: 0 <= i < |results| ==> results[i].request.target.airlineKey in s.tallies.airlines
    ensures forall k :: k in s.tallies.airlines ==> exists i :: 0 <= i < |results| && results[i].request.target.airlineKey == k
    ensures s.tallies.totalTextLength == TotalTextLength(results)
  {
    SummaryConsistent(|requests|, results, (r: ExcelRequest) => r.target.airlineKey);
    ExcelSummary(|flights|, Summarize(|requests|, results, (r: ExcelRequest) => r.target.airlineKey))
  }

  // ---------------------------------------------------------------------
  // The scraper object.

  class KayakExcelScraper {
    var config: ExcelConfig
    var airlines: Registry
    var sessionDir: string

    constructor (config: ExcelConfig, registry: Registry, sessionDir: string)
      ensures this.config == config && airlines == registry && this.sessionDir == sessionDir
    {
      this.config := config;
      airlines := registry;
      this.sessionDir := sessionDir;
    }

    /** `load_flights_from_excel` on a sheet already read: column check,
        the row loop, then the statistics. */
    method LoadFlights(columns: set<string>, rows: seq<Row>)
      returns (r: Result<seq<FlightTarget>, seq<string>>, airlineCounts: map<string, nat>, routeCounts: map<string, nat>)
      ensures r == LoadedFlights(columns, rows, airlines)
      ensures r.Ok? ==> airlineCounts == Tally(AirlineKeys(r.value)) && routeCounts == Tally(RouteNames(r.value))
    {
      airlineCounts, routeCounts := map[], map[];
      var missing := MissingColumns(columns);
      if missing != [] {
        return Err(missing), airlineCounts, routeCounts;
      }
      var flights: seq<FlightTarget> := [];
      for i := 0 to |rows|
        invariant flights == AcceptedFlights(rows[..i], airlines)
      {
        var row := ReadRow(rows[i], airlines);
        KeptStep(rows, RowReader(airlines), i);
        assert RowReader(airlines)(rows[i]) == row;
        if row.Err? {
          continue;
        }
        flights := flights + [row.value];
      }
      assert rows[..|rows|] == rows;
      airlineCounts, routeCounts := CountFlights(flights);
      r := Ok(flights);
    }

    /** `generate_requests`: bind known flights, then shuffle unless disabled. */
    method GenerateRequests(flights: seq<FlightTarget>, draw: nat -> nat) returns (requests: seq<ExcelRequest>)
      ensures requests == OrderedRequests(config, ExcelRequests(flights, airlines, config.passengers), draw)
    {
      var passengers := config.passengers;
      requests := [];
      for i := 0 to |flights|
        invariant requests == ExcelRequests(flights[..i], airlines, passengers)
      {
        assert flights[..i + 1][..i] == flights[..i];
        var flight := flights[i];
        if flight.airlineKey !in airlines {
          continue;
        }
        var info := airlines[flight.airlineKey];
        requests := requests + [ExcelRequest(flight, info.name, info.filter, passengers)];
      }
      assert flights[..|flights|] == flights;
      if config.randomizeOrder != Some(false) {
        requests := ShuffleList(requests, draw);
      }
    }

    /** `scrape_text_only` for one request, given the clock reading and what
        the browser came to. */
    method ScrapeTextOnly(request: ExcelRequest, clock: Clock, roundNumber: Option<int>, outcome: PageOutcome)
      returns (baseName: string, result: TextResult<ExcelRequest>)
      requires ValidClock(clock)
      ensures baseName == ExcelBaseName(roundNumber, request, Timestamp(clock))
      ensures result == ScrapeResult(request, Timestamp(clock), ExcelUrl(request), TextPath(sessionDir, baseName), outcome)
    {
      var timestamp := Timestamp(clock);
      baseName := ExcelBaseName(roundNumber, request, timestamp);
      var url := ExcelUrl(request);
      result := ScrapeResult(request, timestamp, url, TextPath(sessionDir, baseName), outcome);
    }
  }

  /** `__init__`: `self.airlines = self.config["airlines"]` raises `KeyError`
      when the section is missing. */
  method Open(config: ExcelConfig, registry: Option<Registry>, sessionDir: string) returns (r: Result<KayakExcelScraper, string>)
    ensures r.Err? <==> registry.None?
    ensures r.Ok? ==> fresh(r.value) && r.value.config == config && r.value.airlines == registry.value
                      && r.value.sessionDir == sessionDir
  {
    if registry.None? {
      return Err("airlines");
    }
    var scraper := new KayakExcelScraper(config, registry.value, sessionDir);
    return Ok(scraper);
  }
}
