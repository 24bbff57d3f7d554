/** The current text scraper (`src/scrap_only_extended.py`): the scraper
    object with its configuration and airline registry, the choice of date
    window, one text-only scrape and the running totals of rolling mode. */
module TextScraper {
  import opened Wrappers
  import opened Calendar
  import opened Shuffling
  import opened Scraping
  import opened RequestGeneration

  /** The `.get` defaults of the old configuration keys. */
  const DefaultEarliest := "2025-10-20"
  const DefaultLatest := "2025-11-15"

  function OrElse(o: Option<string>, default: string): string {
    if o.Some? then o.value else default
  }

  /** The date window of `generate_requests`: `departure_start` to
      `return_end` when the configuration has both `departure_start` and
      `departure_end` (a missing `return_end` then raises `KeyError`),
      otherwise `earliest_departure` to `latest_return` with defaults. */
  function DateWindow(cfg: ScrapingConfig): (r: Result<(string, string), string>)
    ensures r.Err? <==> cfg.departureStart.Some? && cfg.departureEnd.Some? && cfg.returnEnd.None?
    ensures cfg.departureStart.Some? && cfg.departureEnd.Some? && r.Ok?
            ==> r.value == (cfg.departureStart.value, cfg.returnEnd.value)
    ensures !(cfg.departureStart.Some? && cfg.departureEnd.Some?)
            ==> r.Ok? && r.value.0 == OrElse(cfg.earliestDeparture, DefaultEarliest)
                && r.value.1 == OrElse(cfg.latestReturn, DefaultLatest)
  {
    if cfg.departureStart.Some? && cfg.departureEnd.Some? then
      if cfg.returnEnd.Some? then Ok((cfg.departureStart.value, cfg.returnEnd.value)) else Err("return_end")
    else
      Ok((OrElse(cfg.earliestDeparture, DefaultEarliest), OrElse(cfg.latestReturn, DefaultLatest)))
  }

  /** `departure_end` only selects the window: its value never changes the plan. */
  lemma DepartureEndIgnored(cfg: ScrapingConfig, other: string, airlines: Registry, draw: nat -> nat)
    requires cfg.departureEnd.Some?
    ensures PlanFrom(DateWindow(cfg.(departureEnd := Some(other))), cfg.(departureEnd := Some(other)), airlines, draw)
            == PlanFrom(DateWindow(cfg), cfg, airlines, draw)
  {
  }

  class KayakTextScraper {
    var config: Config
    var airlines: Registry
    var sessionDir: string

    /** Installs the built-in registry when the configuration has no
        `airlines_config` section, then reads the registry from it. */
    constructor (loaded: Config, sessionDir: string)
      ensures loaded.registry.Some? ==> config == loaded && airlines == loaded.registry.value
      ensures loaded.registry.None? ==> config == loaded.(registry := Some(DefaultAirlines())) && airlines == DefaultAirlines()
      ensures this.sessionDir == sessionDir
    {
      var loadedConfig := loaded;
      if loaded.registry.None? {
        loadedConfig := loaded.(registry := Some(DefaultAirlines()));
      }
      config := loadedConfig;
      airlines := loadedConfig.registry.value;
      this.sessionDir := sessionDir;
    }

    /** `generate_requests`: the window, then the planned requests. */
    method GenerateRequests(draw: nat -> nat) returns (r: Result<seq<ScrapingRequest>, string>)
      ensures r == PlanFrom(DateWindow(config.scraping), config.scraping, airlines, draw)
    {
      var cfg := config.scraping;
      r := PlanRequests(DateWindow(cfg), cfg, airlines, draw);
    }

    /** `scrape_text_only` for one request, given the clock reading and what
        the browser came to: the file base name and the result record. */
    method ScrapeTextOnly(request: ScrapingRequest, clock: Clock, roundNumber: Option<int>, outcome: PageOutcome)
      returns (baseName: string, result: TextResult<ScrapingRequest>)
      requires ValidClock(clock)
      ensures baseName == BaseName(roundNumber, request.origin, request.destination, request.airlineKey,
                                   request.departureDate, request.returnDate, Timestamp(clock))
      ensures result == ScrapeResult(request, Timestamp(clock), RequestUrl(request), TextPath(sessionDir, baseName), outcome)
    {
      var timestamp := Timestamp(clock);
      baseName := BaseName(roundNumber, request.origin, request.destination, request.airlineKey,
                           request.departureDate, request.returnDate, timestamp);
      var url := RequestUrl(request);
      result := ScrapeResult(request, timestamp, url, TextPath(sessionDir, baseName), outcome);
    }
  }

  /** All results of the rounds so far, in order. */
  function Flatten(rounds: seq<seq<TextResult<ScrapingRequest>>>): seq<TextResult<ScrapingRequest>> {
    if rounds == [] then [] else Flatten(rounds[..|rounds| - 1]) + rounds[|rounds| - 1]
  }

  /** The running `total_successful` / `total_failed` of rolling mode: the
      tallies of every result of every round. */
  method RollingTotals(rounds: seq<seq<TextResult<ScrapingRequest>>>) returns (totalSuccessful: nat, totalFailed: nat)
    ensures totalSuccessful == SuccessCount(Flatten(rounds)) && totalFailed == FailureCount(Flatten(rounds))
    ensures totalSuccessful + totalFailed == |Flatten(rounds)|
  {
    totalSuccessful, totalFailed := 0, 0;
    for i := 0 to |rounds|
      invariant totalSuccessful == SuccessCount(Flatten(rounds[..i]))
      invariant totalFailed == FailureCount(Flatten(rounds[..i]))
    {
      assert rounds[..i + 1][..i] == rounds[..i];
      TalliesAppend(Flatten(rounds[..i]), rounds[i]);
      var successful, failed := SuccessCount(rounds[i]), FailureCount(rounds[i]);
      totalSuccessful := totalSuccessful + successful;
      totalFailed := totalFailed + failed;
    }
    assert rounds[..|rounds|] == rounds;
    TalliesPartition(Flatten(rounds));
  }
}
