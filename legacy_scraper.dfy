/** The older text scraper (`scrap_only_extended.py`): the same generators
    and request loop, but the registry is the configuration's `airlines`
    section, the window is always `earliest_departure` to `latest_return`,
    and the file base name writes the route as `{origin}-{destination}`. */
module LegacyTextScraper {
  import opened Wrappers
  import opened Calendar
  import opened Scraping
  import opened RequestGeneration
  import Current = TextScraper

  /** Both keys are read with `cfg[...]`: either one missing raises `KeyError`. */
  function DateWindow(cfg: ScrapingConfig): (r: Result<(string, string), string>)
    ensures r.Ok? <==> cfg.earliestDeparture.Some? && cfg.latestReturn.Some?
    ensures r.Ok? ==> r.value == (cfg.earliestDeparture.value, cfg.latestReturn.value)
  {
    if cfg.earliestDeparture.None? then Err("earliest_departure")
    else if cfg.latestReturn.None? then Err("latest_return")
    else Ok((cfg.earliestDeparture.value, cfg.latestReturn.value))
  }

  /** Without the newer `departure_start`/`departure_end` pair both versions
      plan from the same window whenever the older one can plan at all. */
  lemma WindowsAgree(cfg: ScrapingConfig)
    requires cfg.departureStart.None? || cfg.departureEnd.None?
    requires DateWindow(cfg).Ok?
    ensures Current.DateWindow(cfg) == DateWindow(cfg)
  {
  }

  class KayakTextScraper {
    var config: Config
    var airlines: Registry
    var sessionDir: string

    constructor (loaded: Config, registry: Registry, sessionDir: string)
      ensures config == loaded && airlines == registry && this.sessionDir == sessionDir
    {
      config := loaded;
      airlines := registry;
      this.sessionDir := sessionDir;
    }

    /** `generate_requests`: the window, then the planned requests. */
    method GenerateRequests(draw: nat -> nat) returns (r: Result<seq<ScrapingRequest>, string>)
      ensures r == PlanFrom(DateWindow(config.scraping), config.scraping, airlines, draw)
    {
      var cfg := config.scraping;
      r := PlanRequests(DateWindow(cfg), cfg, airlines, draw);
    }

    /** `scrape_text_only` with the hyphenated base name. */
    method ScrapeTextOnly(request: ScrapingRequest, clock: Clock, roundNumber: Option<int>, outcome: PageOutcome)
      returns (baseName: string, result: TextResult<ScrapingRequest>)
      requires ValidClock(clock)
      ensures baseName == HyphenBaseName(roundNumber, request.origin, request.destination, request.airlineKey,
                                         request.departureDate, request.returnDate, Timestamp(clock))
      ensures result == ScrapeResult(request, Timestamp(clock), RequestUrl(request), TextPath(sessionDir, baseName), outcome)
    {
      var timestamp := Timestamp(clock);
      baseName := HyphenBaseName(roundNumber, request.origin, request.destination, request.airlineKey,
                                 request.departureDate, request.returnDate, timestamp);
      var url := RequestUrl(request);
      result := ScrapeResult(request, timestamp, url, TextPath(sessionDir, baseName), outcome);
    }
  }

  /** `__init__`: `self.airlines = self.config["airlines"]` raises `KeyError`
      when the section is missing, and no scraper is made. */
  method Open(loaded: Config, sessionDir: string) returns (r: Result<KayakTextScraper, string>)
    ensures r.Err? <==> loaded.registry.None?
    ensures r.Ok? ==> fresh(r.value) && r.value.config == loaded && r.value.airlines == loaded.registry.value
                      && r.value.sessionDir == sessionDir
  {
    if loaded.registry.None? {
      return Err("airlines");
    }
    var scraper := new KayakTextScraper(loaded, loaded.registry.value, sessionDir);
    return Ok(scraper);
  }
}
