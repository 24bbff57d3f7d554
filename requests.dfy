/** Request generation of the two text scrapers: every date triple of the
    standard generator crossed with every selected airline key the
    registry knows (unknown keys are skipped with a warning), then the list
    is shuffled. The two scraper versions differ only in where the date
    window and the registry come from. */
module RequestGeneration {
  import opened Wrappers
  import opened Calendar
  import opened DateCombos
  import opened Shuffling
  import opened Scraping

  datatype ScrapingRequest = ScrapingRequest(
    departureDate: string, returnDate: string, airlineKey: string, airlineName: string,
    airlineFilter: string, passengers: int, durationDays: int, origin: string, destination: string)

  /** The fields every request of a session shares. */
  datatype Route = Route(origin: string, destination: string, passengers: int)

  /** The `scraping_config` section the text scrapers read. The date keys
      may be absent; the other keys are taken to be present. */
  datatype ScrapingConfig = ScrapingConfig(
    origin: string, destination: string,
    earliestDeparture: Option<string>, latestReturn: Option<string>,
    departureStart: Option<string>, departureEnd: Option<string>, returnEnd: Option<string>,
    minDays: int, maxDays: int, passengers: int, selectedAirlines: seq<string>)

  /** A loaded configuration file: the scraping section and the registry
      section (`airlines_config` in the current scraper, `airlines` in the older one). */
  datatype Config = Config(scraping: ScrapingConfig, registry: Option<Registry>)

  function RouteOf(cfg: ScrapingConfig): Route {
    Route(cfg.origin, cfg.destination, cfg.passengers)
  }

  /** The request for one triple and one known airline: dates formatted
      back to `YYYY-MM-DD`, name and filter copied from the registry. */
  function Request(c: Combo, key: string, info: AirlineInfo, route: Route): ScrapingRequest {
    ScrapingRequest(FormatDate(c.departure), FormatDate(c.returnDay), key, info.name, info.filter,
                    route.passengers, c.duration, route.origin, route.destination)
  }

  /** The inner loop for one triple: one request per known key, in the order of `keys`. */
  function KeyRequests(c: Combo, keys: seq<string>, airlines: Registry, route: Route): seq<ScrapingRequest> {
    if keys == [] then []
    else
      var key := keys[|keys| - 1];
      KeyRequests(c, keys[..|keys| - 1], airlines, route)
      + (if key in airlines then [Request(c, key, airlines[key], route)] else [])
  }

  /** Both loops: triples outside, keys inside. */
  function RequestsFor(combos: seq<Combo>, keys: seq<string>, airlines: Registry, route: Route): seq<ScrapingRequest> {
    if combos == [] then []
    else RequestsFor(combos[..|combos| - 1], keys, airlines, route) + KeyRequests(combos[|combos| - 1], keys, airlines, route)
  }

  /** How many of the selected keys the registry knows (a repeated key counts each time). */
  function KnownCount(keys: seq<string>, airlines: Registry): nat {
    if keys == [] then 0
    else KnownCount(keys[..|keys| - 1], airlines) + (if keys[|keys| - 1] in airlines then 1 else 0)
  }

  /** The nested loops of `generate_requests`. */
  method BuildRequests(combos: seq<Combo>, keys: seq<string>, airlines: Registry, route: Route)
    returns (requests: seq<ScrapingRequest>)
    ensures requests == RequestsFor(combos, keys, airlines, route)
  {
    requests := [];
    for i := 0 to |combos|
      invariant requests == RequestsFor(combos[..i], keys, airlines, route)
    {
      assert combos[..i + 1][..i] == combos[..i];
      ghost var before := requests;
      for j := 0 to |keys|
        invariant requests == before + KeyRequests(combos[i], keys[..j], airlines, route)
      {
        assert keys[..j + 1][..j] == keys[..j];
        var key := keys[j];
        if key !in airlines {
          continue;
        }
        requests := requests + [Request(combos[i], key, airlines[key], route)];
      }
      assert keys[..|keys|] == keys;
    }
    assert combos[..|combos|] == combos;
  }

  /** Build, then `random.shuffle`. */
  method GenerateFrom(earliest: string, latest: string, minDays: int, maxDays: int, keys: seq<string>,
                      airlines: Registry, route: Route, draw: nat -> nat)
    returns (requests: seq<ScrapingRequest>)
    ensures requests == Shuffled(RequestsFor(StandardCombos(earliest, latest, minDays, maxDays), keys, airlines, route), draw)
  {
    var combos := GenerateStandard(earliest, latest, minDays, maxDays);
    var built := BuildRequests(combos, keys, airlines, route);
    requests := ShuffleList(built, draw);
  }

  /** What `generate_requests` returns once the configuration has yielded
      a date window (or failed to): the standard triples of the window
      crossed with the selected keys, shuffled. */
  function PlanFrom(window: Result<(string, string), string>, cfg: ScrapingConfig, airlines: Registry,
                    draw: nat -> nat): Result<seq<ScrapingRequest>, string> {
    match window
    case Err(e) => Err(e)
    case Ok((earliest, latest)) =>
      Ok(Shuffled(RequestsFor(StandardCombos(earliest, latest, cfg.minDays, cfg.maxDays),
                              cfg.selectedAirlines, airlines, RouteOf(cfg)), draw))
  }

  /** The method both scrapers' `generate_requests` run once the window is known. */
  method PlanRequests(window: Result<(string, string), string>, cfg: ScrapingConfig, airlines: Registry,
                      draw: nat -> nat) returns (r: Result<seq<ScrapingRequest>, string>)
    ensures r == PlanFrom(window, cfg, airlines, draw)
  {
    if window.Err? {
      return Err(window.error);
    }
    var (earliest, latest) := window.value;
    var requests := GenerateFrom(earliest, latest, cfg.minDays, cfg.maxDays, cfg.selectedAirlines,
                                 airlines, RouteOf(cfg), draw);
    return Ok(requests);
  }

  /** `build_kayak_url`, the same in both text scrapers. */
  function RequestUrl(r: ScrapingRequest): string {
    KayakUrl(r.origin, r.destination, r.departureDate, r.returnDate, r.passengers, r.airlineFilter)
  }

  /** The tallies of `save_session_summary` and `save_round_summary`. */
  function SessionSummary(requests: seq<ScrapingRequest>, results: seq<TextResult<ScrapingRequest>>): (s: Summary)
    ensures s.totalRequests == |requests|
    ensures s.successful + s.failed == |results|
    ensures forall i :: 0 <= i < |results| ==> results[i].request.airlineKey in s.airlines
    ensures forall k :: k in s.airlines ==> exists i :: 0 <= i < |results| && results[i].request.airlineKey == k
    ensures s.totalTextLength == TotalTextLength(results)
  {
    SummaryConsistent(|requests|, results, (r: ScrapingRequest) => r.airlineKey);
    Summarize(|requests|, results, (r: ScrapingRequest) => r.airlineKey)
  }

  // ---------------------------------------------------------------------
  // What the built list holds.

  lemma {:induction false} KeyRequestsSound(c: Combo, keys: seq<string>, airlines: Registry, route: Route, r: ScrapingRequest)
    requires r in KeyRequests(c, keys, airlines, route)
    ensures exists j :: 0 <= j < |keys| && keys[j] in airlines && r == Request(c, keys[j], airlines[keys[j]], route)
    decreases |keys|
  {
    var init, last := keys[..|keys| - 1], keys[|keys| - 1];
    if r in KeyRequests(c, init, airlines, route) {
      KeyRequestsSound(c, init, airlines, route, r);
      var j :| 0 <= j < |init| && init[j] in airlines && r == Request(c, init[j], airlines[init[j]], route);
      assert keys[j] == init[j];
    } else {
      assert last in airlines && r == Request(c, last, airlines[last], route);
      assert keys[|keys| - 1] == last;
    }
  }

  lemma {:induction false} KeyRequestsComplete(c: Combo, keys: seq<string>, airlines: Registry, route: Route, j: int)
    requires 0 <= j < |keys| && keys[j] in airlines
    ensures Request(c, keys[j], airlines[keys[j]], route) in KeyRequests(c, keys, airlines, route)
    decreases |keys|
  {
    var init, last := keys[..|keys| - 1], keys[|keys| - 1];
    var x := Request(c, keys[j], airlines[keys[j]], route);
    var tail := if last in airlines then [Request(c, last, airlines[last], route)] else [];
    assert KeyRequests(c, keys, airlines, route) == KeyRequests(c, init, airlines, route) + tail;
    if j < |init| {
      assert init[j] == keys[j];
      KeyRequestsComplete(c, init, airlines, route, j);
      assert x in KeyRequests(c, init, airlines, route);
    } else {
      assert tail == [x];
    }
  }

  lemma {:induction false} RequestsSound(combos: seq<Combo>, keys: seq<string>, airlines: Registry, route: Route, r: ScrapingRequest)
    requires r in RequestsFor(combos, keys, airlines, route)
    ensures exists i, j :: 0 <= i < |combos| && 0 <= j < |keys| && keys[j] in airlines
                           && r == Request(combos[i], keys[j], airlines[keys[j]], route)
    decreases |combos|
  {
    var init, last := combos[..|combos| - 1], combos[|combos| - 1];
    if r in RequestsFor(init, keys, airlines, route) {
      RequestsSound(init, keys, airlines, route, r);
      var i, j :| 0 <= i < |init| && 0 <= j < |keys| && keys[j] in airlines
                  && r == Request(init[i], keys[j], airlines[keys[j]], route);
      assert combos[i] == init[i];
    } else {
      KeyRequestsSound(last, keys, airlines, route, r);
      var j :| 0 <= j < |keys| && keys[j] in airlines && r == Request(last, keys[j], airlines[keys[j]], route);
      assert combos[|combos| - 1] == last;
    }
  }

  lemma {:induction false} RequestsComplete(combos: seq<Combo>, keys: seq<string>, airlines: Registry, route: Route, i: int, j: int)
    requires 0 <= i < |combos| && 0 <= j < |keys| && keys[j] in airlines
    ensures Request(combos[i], keys[j], airlines[keys[j]], route) in RequestsFor(combos, keys, airlines, route)
    decreases |combos|
  {
    var init, last := combos[..|combos| - 1], combos[|combos| - 1];
    if i < |init| {
      assert init[i] == combos[i];
      RequestsComplete(init, keys, airlines, route, i, j);
    } else {
      KeyRequestsComplete(last, keys, airlines, route, j);
    }
  }

  /** A request is built exactly when it pairs one of the triples with a
      selected key the registry knows, its name and filter taken from the registry. */
  lemma RequestsMembers(combos: seq<Combo>, keys: seq<string>, airlines: Registry, route: Route, r: ScrapingRequest)
    ensures r in RequestsFor(combos, keys, airlines, route)
            <==> exists i, j :: 0 <= i < |combos| && 0 <= j < |keys| && keys[j] in airlines
                             && r == Request(combos[i], keys[j], airlines[keys[j]], route)
  {
    if r in RequestsFor(combos, keys, airlines, route) {
      RequestsSound(combos, keys, airlines, route, r);
    }
    if exists i, j :: 0 <= i < |combos| && 0 <= j < |keys| && keys[j] in airlines
                      && r == Request(combos[i], keys[j], airlines[keys[j]], route) {
      var i, j :| 0 <= i < |combos| && 0 <= j < |keys| && keys[j] in airlines
                  && r == Request(combos[i], keys[j], airlines[keys[j]], route);
      RequestsComplete(combos, keys, airlines, route, i, j);
    }
  }

  /** Every triple yields one request per known selected key. */
  lemma {:induction false} RequestsCount(combos: seq<Combo>, keys: seq<string>, airlines: Registry, route: Route)
    ensures |RequestsFor(combos, keys, airlines, route)| == |combos| * KnownCount(keys, airlines)
    decreases |combos|
  {
    if combos != [] {
      var init := combos[..|combos| - 1];
      var k := KnownCount(keys, airlines);
      RequestsCount(init, keys, airlines, route);
      KeyRequestsCount(combos[|combos| - 1], keys, airlines, route);
      assert |RequestsFor(combos, keys, airlines, route)| == |init| * k + k;
      assert |init| * k + k == (|init| + 1) * k;
    }
  }

  lemma {:induction false} KeyRequestsCount(c: Combo, keys: seq<string>, airlines: Registry, route: Route)
    ensures |KeyRequests(c, keys, airlines, route)| == KnownCount(keys, airlines)
    decreases |keys|
  {
    if keys != [] {
      KeyRequestsCount(c, keys[..|keys| - 1], airlines, route);
    }
  }

  /** What one built request carries: a known selected key with the
      registry's name and filter, the session's route, and two valid
      dates of the window whose difference is the duration. */
  lemma BuiltRequestSound(earliest: int, latest: int, minDays: int, maxDays: int, keys: seq<string>,
                          airlines: Registry, route: Route, r: ScrapingRequest)
    requires IsDay(earliest) && IsDay(latest)
    requires r in RequestsFor(Standard(earliest, latest, minDays, maxDays), keys, airlines, route)
    ensures r.airlineKey in airlines && airlines[r.airlineKey] == AirlineInfo(r.airlineName, r.airlineFilter)
    ensures r.airlineKey in keys
    ensures r.origin == route.origin && r.destination == route.destination && r.passengers == route.passengers
    ensures exists dep, ret :: ParseDate(r.departureDate) == Some(dep) && ParseDate(r.returnDate) == Some(ret)
                               && ret == dep + r.durationDays && minDays <= r.durationDays <= maxDays
                               && earliest <= dep && ret <= latest
  {
    var combos := Standard(earliest, latest, minDays, maxDays);
    RequestsMembers(combos, keys, airlines, route, r);
    var i, j :| 0 <= i < |combos| && 0 <= j < |keys| && keys[j] in airlines
                && r == Request(combos[i], keys[j], airlines[keys[j]], route);
    StandardDates(earliest, latest, minDays, maxDays, combos[i]);
    RequestSound(combos[i], keys[j], airlines[keys[j]], route, earliest, latest, minDays, maxDays);
  }

  /** The request for one triple of the window carries the triple's dates
      as text that parses back to them. */
  lemma RequestSound(c: Combo, key: string, info: AirlineInfo, route: Route,
                     earliest: int, latest: int, minDays: int, maxDays: int)
    requires InWindow(c, earliest, latest, minDays, maxDays) && IsDay(c.departure) && IsDay(c.returnDay)
    ensures var r := Request(c, key, info, route);
            r.airlineKey == key && AirlineInfo(r.airlineName, r.airlineFilter) == info
            && r.origin == route.origin && r.destination == route.destination && r.passengers == route.passengers
            && exists dep, ret :: ParseDate(r.departureDate) == Some(dep) && ParseDate(r.returnDate) == Some(ret)
                                  && ret == dep + r.durationDays && minDays <= r.durationDays <= maxDays
                                  && earliest <= dep && ret <= latest
  {
    var r := Request(c, key, info, route);
    ParseFormatDate(c.departure);
    ParseFormatDate(c.returnDay);
    assert ParseDate(r.departureDate) == Some(c.departure) && ParseDate(r.returnDate) == Some(c.returnDay);
  }

  /** A planned list is the built list reordered: as many requests as
      triples times known selected keys. */
  lemma PlannedRequests(window: Result<(string, string), string>, cfg: ScrapingConfig, airlines: Registry, draw: nat -> nat)
    requires window.Ok?
    ensures var combos := StandardCombos(window.value.0, window.value.1, cfg.minDays, cfg.maxDays);
            var built := RequestsFor(combos, cfg.selectedAirlines, airlines, RouteOf(cfg));
            var r := PlanFrom(window, cfg, airlines, draw);
            r.Ok? && multiset(r.value) == multiset(built)
            && |r.value| == |combos| * KnownCount(cfg.selectedAirlines, airlines)
  {
    var combos := StandardCombos(window.value.0, window.value.1, cfg.minDays, cfg.maxDays);
    var built := RequestsFor(combos, cfg.selectedAirlines, airlines, RouteOf(cfg));
    ShuffledPermutes(built, draw);
    RequestsCount(combos, cfg.selectedAirlines, airlines, RouteOf(cfg));
  }

  /** The same after the shuffle: shuffling only reorders the built list;
      and nothing is generated unless both window dates parse. */
  lemma GeneratedRequestsSound(earliest: string, latest: string, minDays: int, maxDays: int, keys: seq<string>,
                               airlines: Registry, route: Route, draw: nat -> nat, r: ScrapingRequest)
    requires r in Shuffled(RequestsFor(StandardCombos(earliest, latest, minDays, maxDays), keys, airlines, route), draw)
    ensures ParseDate(earliest).Some? && ParseDate(latest).Some?
    ensures r.airlineKey in airlines && airlines[r.airlineKey] == AirlineInfo(r.airlineName, r.airlineFilter)
    ensures r.airlineKey in keys
    ensures exists dep, ret :: ParseDate(r.departureDate) == Some(dep) && ParseDate(r.returnDate) == Some(ret)
                               && ret == dep + r.durationDays && minDays <= r.durationDays <= maxDays
                               && ParseDate(earliest).value <= dep && ret <= ParseDate(latest).value
  {
    var combos := StandardCombos(earliest, latest, minDays, maxDays);
    var built := RequestsFor(combos, keys, airlines, route);
    ShuffledPermutes(built, draw);
    assert r in multiset(Shuffled(built, draw));
    assert r in built;
    assert combos != [];
    BuiltRequestSound(ParseDate(earliest).value, ParseDate(latest).value, minDays, maxDays, keys, airlines, route, r);
  }
}
