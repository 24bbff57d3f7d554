# Kayak flight scraper and offer extractor, modelled in Dafny

The system is a set of Python tools for watching flight prices on kayak.pl.
They cover two tasks:

1. **Building the searches.** Three scrapers turn a configuration into a list of searches: the current
   text scraper (`src/scrap_only_extended.py`), its older copy (`scrap_only_extended.py`) and
   the spreadsheet-driven scraper (`kayak_excel_scraper.py`). Each search is a route, a departure date, a
   return date, a passenger count and an airline filter taken from an airline registry. For each
   search the scraper builds the Kayak URL. It names the saved page
   `{origin}_{destination}_{airline}_{departure}_{return}_{timestamp}` (the older scraper
   writes `{origin}-{destination}` instead), with `R{round:03d}_` in front in rolling mode. It then
   records a success/failure result and tallies the results into session and round summaries.
2. **Reading the offers back.** The extractor (`simple_kayak_extractor.py`) reads a saved page. It
   finds the first offer with three increasingly loose price patterns and falls back to a scan of
   złoty amounts. It splits the offer into outbound and return sections, reads the stopovers,
   subtracts the layovers from the travel time and guesses the direction of the route.

Dates are day ordinals (1 = 0001-01-01), with a proven bijection to `YYYY-MM-DD` text.
Regular expressions are hand-written matchers over strings. Prices are whole złoty.
The random source of `random.shuffle` and the wall clock of `datetime.now()` are parameters.
What the browser returned (a driver failure, a later exception, or the page title and text)
is a parameter too.

Modules, by file:

| file | module | what it holds |
|---|---|---|
| `wrappers.dfy` | `Wrappers` | `Option` and `Result` |
| `text.dfy` | `Text` | Python's whitespace, `strip`, `upper`, `replace`, `find`, digit strings |
| `calendar.dfy` | `Calendar` | proleptic Gregorian dates, `strptime`/`strftime` on `%Y-%m-%d` |
| `combos.dfy` | `DateCombos` | the two date-combination generators (identical in both text scrapers) |
| `shuffle.dfy` | `Shuffling` | the Fisher-Yates loop of `random.shuffle` on an array |
| `scraping.dfy` | `Scraping` | registry, URL, timestamp, base names, result records, tallies |
| `requests.dfy` | `RequestGeneration` | request building of the text scrapers |
| `text_scraper.dfy` | `TextScraper` | the current text scraper class |
| `legacy_scraper.dfy` | `LegacyTextScraper` | the older text scraper class |
| `excel_scraper.dfy` | `ExcelScraper` | row validation, statistics and requests of the spreadsheet scraper |
| `patterns.dfy` | `Patterns` | the extractor's regular expressions as matchers |
| `offer_locator.dfy` | `OfferLocator` | `extract_first_offer_simple` |
| `strict_page.dfy` | `StrictPage` | a page that is exactly the strict price phrase, and the worked example |
| `offer_details.dfy` | `OfferDetails` | sections, stopovers, flight times, airports, the offer record |
| `filename_parser.dfy` | `FilenameParser` | `parse_filename` |

The extractor's file-name pattern is anchored at the start, and its airline group `[A-Za-z_]+`
is greedy. A name written by the current scrapers, such as `WAW_ICN_LOT_2025-10-05_…`, is therefore
read with the airline `WAW ICN LOT`, because the airport codes are absorbed into the airline group
(`FilenameParser.CurrentNameParses`). A name with a round prefix (`R001_…`) or with the older
hyphenated route (`WAW-ICN_…`) is not recognised and gives `UNKNOWN`.

The two date generators give the same triples only for durations that are not negative.
With a negative minimum duration, the standard loop emits departures after the last return
date (`DateCombos.NegativeDurationDiffers`). The default configurations use 19 to 24 days, but
durations typed into the GUI or read from a JSON configuration are not checked, so the difference is reachable.

## Model

| member | source | states |
|---|---|---|
| Calendar.ParseDate | src/scrap_only_extended.py:275-276 | a date text that parses gives a day ordinal in years 1..9999 |
| Calendar.FormatDate | src/scrap_only_extended.py:290-291 | a day in range is written as ten characters |
| Calendar.FromOrdinalValid | src/scrap_only_extended.py:285 | every day ordinal in range is a valid calendar date that converts back to the same ordinal |
| Calendar.ToOrdinalValid | src/scrap_only_extended.py:295 | every valid calendar date has an ordinal in range that converts back to the same date |
| Calendar.DaysBeforeYearFormula | src/scrap_only_extended.py:285 | the days before year y, counted year by year, match the closed Gregorian leap-year formula |
| Calendar.ParseFormatIso | src/scrap_only_extended.py:290-291 | parsing the `%Y-%m-%d` text of a valid date gives the date back |
| Calendar.FormatParseIso | src/scrap_only_extended.py:275-276 | text that parses is exactly the canonical text of the date it parses to |
| Calendar.ParseFormatDate | src/scrap_only_extended.py:289-291 | formatting then parsing a day ordinal is the identity |
| Calendar.FormatParseDate | src/scrap_only_extended.py:308-309 | parsing then formatting a date text is the identity |
| DateCombos.GenerateRolling | src/scrap_only_extended.py:271-302 | the rolling generator returns the date-outer enumeration of the parsed window; an unparsable date, or a date that leaves years 1..9999, gives the empty list |
| DateCombos.GenerateStandard | src/scrap_only_extended.py:304-337 | the standard generator returns the duration-outer enumeration of the parsed window, or the empty list on an unparsable or overflowing date |
| DateCombos.RollingDays | src/scrap_only_extended.py:281-298 | the `while`/`for` loops on parsed days build exactly the rolling enumeration |
| DateCombos.StandardDays | src/scrap_only_extended.py:311-333 | the `for`/`while` loops on parsed days build exactly the standard enumeration |
| DateCombos.StandardDepartures | src/scrap_only_extended.py:319-330 | the inner loop for one duration overflows exactly when a date it computes leaves years 1..9999; otherwise it yields one triple per departure from `earliest` to `latest - d` |
| DateCombos.RollingMembers | src/scrap_only_extended.py:283-295 | a triple is generated by the rolling order iff return = departure + duration, earliest <= departure, return <= latest and min <= duration <= max |
| DateCombos.StandardMembers | src/scrap_only_extended.py:313-330 | a triple is generated by the standard order iff it satisfies the same window constraints; a duration with `latest - d < earliest` contributes nothing |
| DateCombos.RollingOrdered | src/scrap_only_extended.py:283-295 | the rolling output is ordered by departure, then duration, and has no repeated triple |
| DateCombos.StandardOrdered | src/scrap_only_extended.py:313-330 | the standard output is ordered by duration, then departure, and has no repeated triple |
| DateCombos.SameCombos | scrap_only_extended.py:193-242 | for durations that are not negative, the two loop orders produce the same triples, each once (equal multisets and lengths) |
| DateCombos.StandardDates | src/scrap_only_extended.py:313-328 | every standard triple lies in the window and both of its dates are real days |
| DateCombos.NegativeDurationDiffers | src/scrap_only_extended.py:313-330 | with duration -1 on a one-day window the rolling order gives one triple and the standard order two, one of which departs after the window |
| Shuffling.ShuffledPermutes | src/scrap_only_extended.py:385 | the shuffled order is a permutation of the list, whatever the random draws |
| Shuffling.Shuffle | src/scrap_only_extended.py:385 | the in-place loop leaves the array in the shuffled order of its old contents |
| Shuffling.ShuffleList | scrap_only_extended.py:287 | shuffling a list gives the shuffled order, a permutation of the same length |
| RequestGeneration.BuildRequests | src/scrap_only_extended.py:359-382 | the nested loops build one request per triple and known key, triples outside, keys inside |
| RequestGeneration.GenerateFrom | src/scrap_only_extended.py:353-385 | standard triples, the nested loops, then the shuffle |
| RequestGeneration.PlanRequests | src/scrap_only_extended.py:341-388 | a configuration error is passed on; otherwise the requests are the shuffled cross product of the window |
| RequestGeneration.RequestsMembers | src/scrap_only_extended.py:363-382 | a request is built iff it is the request of some triple and some selected key that the registry knows |
| RequestGeneration.RequestsCount | scrap_only_extended.py:265-284 | the number of requests is the number of triples times the number of known selected keys |
| RequestGeneration.BuiltRequestSound | src/scrap_only_extended.py:363-382 | every built request names a selected key in the registry, copies its name and filter and the route, and has dates that parse with return = departure + duration inside the window |
| RequestGeneration.PlannedRequests | src/scrap_only_extended.py:353-385 | once a window is known, `generate_requests` succeeds with a permutation of the built list, of size triples × known keys |
| RequestGeneration.GeneratedRequestsSound | scrap_only_extended.py:256-287 | every request after the shuffle references a known, selected airline with its registry data, and both window dates parse with the request's dates between them |
| RequestGeneration.SessionSummary | src/scrap_only_extended.py:503-509 | the summary counts all requests; successes and failures add up to the results; the airline set is exactly the results' keys; the text total sums the successful results |
| Scraping.DefaultAirlines | src/scrap_only_extended.py:209-230 | the default registry knows every airline of the default selection (`LOT`, `Turkish`, `Emirates`, `Qatar`, `China_Air`), and every filter has the form `fs=airlines%3D…%3Bbfc%3D1` |
| Scraping.KayakFilter | src/scrap_only_extended.py:209-230 | a registry filter wraps its airline codes in `fs=airlines%3D` and `%3Bbfc%3D1` |
| Scraping.KayakUrl | src/scrap_only_extended.py:390-398 | the URL starts with `https://www.kayak.pl/flights/`, the route `origin-destination` and `/`, and ends with `adults?sort=price_a&` and the airline filter |
| Scraping.KayakUrlInjective | src/scrap_only_extended.py:390-398 | for three-character codes and ten-character dates, the URL determines route, dates, passengers and filter |
| Scraping.RoundPrefix | src/scrap_only_extended.py:405-408 | the prefix is empty iff no round number or round 0 is given; otherwise it is `R…_`, and for rounds 1..999 exactly `R` plus three digits that read as the round plus `_` |
| Scraping.BaseName | src/scrap_only_extended.py:405-410 | the name starts with the round prefix, ends with `_` and the timestamp, and is its fields plus five separators long |
| Scraping.HyphenBaseName | scrap_only_extended.py:305-311 | the older name is the current name with the one separator after the origin written `-` instead of `_` |
| Scraping.Timestamp | src/scrap_only_extended.py:403 | `%Y%m%d_%H%M%S_%f` cut by three characters: 19 characters, underscores at 8 and 15, digits elsewhere, the last three being the milliseconds |
| Scraping.MillisValue | kayak_excel_scraper.py:350 | dropping the last three of the six microsecond digits leaves microsecond / 1000 |
| Scraping.ScrapeResult | src/scrap_only_extended.py:465-488 | a result succeeds iff the page was captured; a success records the URL, path, page title and text length and no error message; a failure records the error, no text, and `N/A` as URL when the driver was never created |
| Scraping.TalliesPartition | src/scrap_only_extended.py:504-505 | successes plus failures equal the number of results |
| Scraping.TalliesAppend | src/scrap_only_extended.py:634-638 | the tallies of two batches add up to the tallies of their concatenation |
| Scraping.TotalCountsOnlySuccesses | src/scrap_only_extended.py:509 | for results as a scrape produces them, the text total over successes equals the total over all results |
| Scraping.SummaryConsistent | src/scrap_only_extended.py:729-733 | in a round summary, successes plus failures equal the results, and the airline set is exactly the keys of the results |
| TextScraper.DateWindow | src/scrap_only_extended.py:343-351 | with `departure_start` and `departure_end` the window is `departure_start`..`return_end` (an error iff `return_end` is missing); otherwise `earliest_departure`..`latest_return` with their defaults |
| TextScraper.DepartureEndIgnored | src/scrap_only_extended.py:344-347 | the value of `departure_end` never changes the requests, only its presence does |
| TextScraper.KayakTextScraper.constructor | src/scrap_only_extended.py:88-101 | without an `airlines_config` section the default registry is installed and used; otherwise the configured one |
| TextScraper.KayakTextScraper.GenerateRequests | src/scrap_only_extended.py:339-388 | the requests are those planned from the chosen date window |
| TextScraper.KayakTextScraper.ScrapeTextOnly | src/scrap_only_extended.py:400-488 | the base name is the underscore format with the round prefix, and the result is the record of the outcome at the built URL |
| TextScraper.RollingTotals | src/scrap_only_extended.py:626-638 | the running totals equal the successes and failures of all rounds together and add up to their number of results |
| LegacyTextScraper.DateWindow | scrap_only_extended.py:253-259 | the window is `earliest_departure`..`latest_return`, an error iff either key is missing |
| LegacyTextScraper.WindowsAgree | scrap_only_extended.py:253-259 | without both new keys, the older scraper chooses the same window as the current one |
| LegacyTextScraper.KayakTextScraper.constructor | scrap_only_extended.py:76-85 | the scraper keeps the configuration and the `airlines` registry |
| LegacyTextScraper.KayakTextScraper.GenerateRequests | scrap_only_extended.py:251-290 | the requests are those planned from `earliest_departure`..`latest_return` |
| LegacyTextScraper.KayakTextScraper.ScrapeTextOnly | scrap_only_extended.py:302-311 | the base name uses the hyphenated route with the round prefix, and the result is the record of the outcome |
| LegacyTextScraper.Open | scrap_only_extended.py:82-83 | loading fails iff the configuration has no `airlines` section, and otherwise gives a fresh scraper over it |
| ExcelScraper.MakeTarget | kayak_excel_scraper.py:35-39 | a target is made iff both dates parse, and its duration is return minus departure in days |
| ExcelScraper.MissingColumns | kayak_excel_scraper.py:233-234 | the missing columns are exactly the required columns the sheet lacks |
| ExcelScraper.LoadedFlights | kayak_excel_scraper.py:232-293 | loading fails iff a required column is missing, reporting those columns, before any row is read; otherwise it gives the accepted rows' flights in order |
| ExcelScraper.ReadRow | kayak_excel_scraper.py:245-287 | a row is skipped for empty fields iff a date or airport cell is empty; a skip for the codes or the airline names the failing check; an accepted row has three-character codes and a known key |
| ExcelScraper.ReadRowAccepts | kayak_excel_scraper.py:245-287 | a row becomes a flight iff no date or airport cell is empty, both cleaned codes have three characters, both date cells read as text, the key is in the registry and both dates parse; the flight carries the cleaned fields |
| ExcelScraper.RowFlightValid | kayak_excel_scraper.py:252-284 | an accepted row's flight has three-character codes, a known airline and dates with return = departure + duration |
| ExcelScraper.AcceptedFlightsValid | kayak_excel_scraper.py:242-291 | every loaded flight is valid in that sense and comes from some row of the sheet |
| ExcelScraper.DayCellDate | kayak_excel_scraper.py:263-271 | a spreadsheet date cell reads back as the same day |
| ExcelScraper.TallyCounts | kayak_excel_scraper.py:296-303 | a key is counted iff it occurs, and its count is its number of occurrences |
| ExcelScraper.TallySum | kayak_excel_scraper.py:296-303 | the counts of a tally add up to the number of items counted |
| ExcelScraper.CountFlights | kayak_excel_scraper.py:296-303 | the in-place counting loop gives the per-airline and per-route tallies, each summing to the number of flights |
| ExcelScraper.ExcelRequestsInOrder | kayak_excel_scraper.py:324-337 | one request per flight with a known key, in flight order, with the configured passengers and the registry's name and filter |
| ExcelScraper.KnownFlightsAll | kayak_excel_scraper.py:325-327 | when every flight's key is known, no flight is skipped |
| ExcelScraper.LoadedFlightsAllKnown | kayak_excel_scraper.py:274-276 | flights loaded from the sheet are never skipped by `generate_requests` |
| ExcelScraper.OrderedRequests | kayak_excel_scraper.py:340-342 | the output is a permutation of the built list, and is that list itself when `randomize_order` is false |
| ExcelScraper.SessionSummary | kayak_excel_scraper.py:447-452 | the summary counts flights and requests, successes and failures add up to the results, the airline set is exactly the results' keys, and the text total sums the successful results |
| ExcelScraper.KayakExcelScraper.constructor | kayak_excel_scraper.py:103-104 | the scraper keeps the configuration and its registry |
| ExcelScraper.KayakExcelScraper.LoadFlights | kayak_excel_scraper.py:219-313 | the loaded flights as specified, with their airline and route statistics |
| ExcelScraper.KayakExcelScraper.GenerateRequests | kayak_excel_scraper.py:319-345 | the requests of the known flights, shuffled unless `randomize_order` is false |
| ExcelScraper.ExcelUrl | kayak_excel_scraper.py:366 | a row's URL starts with the Kayak flights address and the row's route, and ends with the sort order and the registry filter |
| ExcelScraper.ExcelBaseName | kayak_excel_scraper.py:350-356 | a row's base name starts with the round prefix and ends with `_` and the timestamp |
| ExcelScraper.KayakExcelScraper.ScrapeTextOnly | kayak_excel_scraper.py:347-431 | the base name is the underscore format with the round prefix, and the result is the record of the outcome at the URL of the row's route |
| ExcelScraper.Open | kayak_excel_scraper.py:103-104 | loading fails iff the configuration has no `airlines` section |
| FilenameParser.ParseFilename | simple_kayak_extractor.py:68-96 | a recognised name yields an airline without underscores, two date-shaped fields, an 8-digit date, a 6-digit time and a digit sequence, and otherwise `UNKNOWN` with empty fields |
| FilenameParser.CurrentNameReads | simple_kayak_extractor.py:74-86 | a name of the form `{letters_and_underscores}_{date}_{date}_{timestamp}.txt` reads back its fields, with underscores in the head replaced by spaces |
| FilenameParser.BaseNameIsCurrent | src/scrap_only_extended.py:410 | a base name without round prefix plus `.txt` has that form, with head `{origin}_{destination}_{key}` |
| FilenameParser.CurrentNameParses | simple_kayak_extractor.py:74-86 | the extractor reads a current scraper's file name with the airport codes absorbed into the airline, and the session fields taken from the timestamp |
| FilenameParser.RoundNameUnrecognised | kayak_excel_scraper.py:353-354 | a file name with a round prefix is not recognised |
| FilenameParser.HyphenNameUnrecognised | scrap_only_extended.py:311 | a file name of the older scraper (hyphenated route) is not recognised |
| Patterns.PriceSearch | simple_kayak_extractor.py:112 | `re.search`: the first position where the pattern matches, or none anywhere |
| Patterns.PriceSearchFirst | simple_kayak_extractor.py:112 | no position before the found one matches |
| Patterns.Pattern1At | simple_kayak_extractor.py:103 | a strict match is well formed: two amount groups, in order, inside the text |
| Patterns.Pattern2At | simple_kayak_extractor.py:104 | the same for the pattern with any text between `osoba` and the total |
| Patterns.Pattern3At | simple_kayak_extractor.py:105 | the same for the very flexible pattern |
| Patterns.LazyTotalFirst | simple_kayak_extractor.py:104 | the lazy `.*?` stops at the first total that completes the match |
| Patterns.FindCi | simple_kayak_extractor.py:105 | the first case-insensitive occurrence of a word from a position, or none |
| Patterns.AmountEnd | simple_kayak_extractor.py:122 | an amount group starts exactly at a digit; it is the whole digit run followed by `\s+\d{3}` blocks, as many as follow (no further block starts at its end) |
| Patterns.TimeRangeAt | simple_kayak_extractor.py:206 | a time-range match starts with an `HH:MM` clock, the departure group; then whitespace, `-` or `–`, whitespace; then the arrival group, a clock followed by `+N` exactly when one follows it |
| Patterns.TimeRangeAtFound | simple_kayak_extractor.py:206 | conversely, a clock, a dash between whitespace runs and a second clock always make a time-range match |
| Patterns.DurationAt | simple_kayak_extractor.py:217 | a duration match is hours digits, whitespace, one `h`, whitespace, minutes digits, whitespace and `min`, in that order |
| Patterns.DurationAtShape | simple_kayak_extractor.py:383 | the text `H h MM min` matches with the groups at their places |
| Patterns.StopoverAt | simple_kayak_extractor.py:355 | a stopover match starts with three upper-case letters, the airport, then whitespace, `Przesiadka`, whitespace and a duration match spanning the duration group |
| Patterns.LastNewlineIn | simple_kayak_extractor.py:325-328 | `\s*\n` backtracks to the last newline of the whitespace run |
| Patterns.FindAll | simple_kayak_extractor.py:306 | `re.finditer` yields ordered, non-overlapping spans |
| Patterns.FindAllMatches | simple_kayak_extractor.py:306 | every span is a match, and there are none iff the pattern matches nowhere |
| Patterns.FindAllFirst | simple_kayak_extractor.py:306 | no position before the first span matches |
| OfferLocator.ParseAmountAccepts | simple_kayak_extractor.py:170-173 | an amount group converts iff its whitespace is only ASCII spaces |
| OfferLocator.ParseAmountGrouped | simple_kayak_extractor.py:170-171 | a grouped amount like `1 234` is the concatenation of its digits |
| OfferLocator.Excerpt | simple_kayak_extractor.py:179-181 | the offer text ends with the matched text and reaches at most 1000 characters before it, exactly 1000 when there is room |
| OfferLocator.FirstPriceMatch | simple_kayak_extractor.py:108-116 | the patterns are tried in order and the first that matches anywhere is used; none iff no pattern matches |
| OfferLocator.Accepted | simple_kayak_extractor.py:137-141 | an amount is kept only when it converts and lies in [1000, 50000] |
| OfferLocator.CandidatesMembers | simple_kayak_extractor.py:136-143 | the kept prices are exactly the accepted amounts |
| OfferLocator.CandidatesOrdered | simple_kayak_extractor.py:136-143 | the kept prices stay in document order |
| OfferLocator.FirstPair | simple_kayak_extractor.py:148-154 | the first neighbouring pair whose second is within 100 of twice the first, with none before it; none iff no pair qualifies |
| OfferLocator.FallbackPrices | simple_kayak_extractor.py:122-143 | every fallback price lies in [1000, 50000], in document order |
| OfferLocator.Fallback | simple_kayak_extractor.py:118-167 | a fallback offer has both prices in range with the total within 100 of twice the per-person price; none iff no neighbouring pair qualifies |
| OfferLocator.StrictOfferDecided | simple_kayak_extractor.py:169-189 | once a price pattern matches, the page has an offer iff both amounts convert; the fallback is not tried |
| OfferLocator.CollectPrices | simple_kayak_extractor.py:135-143 | the loop over the amount matches keeps the accepted prices in order |
| OfferLocator.FindPair | simple_kayak_extractor.py:148-154 | the loop over neighbouring pairs finds the first close pair |
| OfferLocator.FirstOffer | simple_kayak_extractor.py:98-189 | when no price pattern matches, the offer is the fallback's; when one matches, an offer exists iff both amount groups convert, and it carries their values and the excerpt around the match |
| OfferLocator.ExtractFirstOffer | simple_kayak_extractor.py:98-189 | the whole method returns the first offer of the page as specified |
| StrictPage.PerPersonShape | simple_kayak_extractor.py:103 | digits followed by ` zł / osoba` are the per-person part of the strict pattern, ending after `osoba` |
| StrictPage.TotalShape | simple_kayak_extractor.py:103 | digits followed by ` zł łącznie` are the total part, ending after `łącznie` |
| StrictPage.Pattern1Shape | simple_kayak_extractor.py:103 | the strict pattern matches a page `<digits> zł / osoba <digits> zł łącznie` at its start, with both groups on the digits |
| StrictPage.MatchAtStart | simple_kayak_extractor.py:108-116 | a strict match at the start of the page is the first price match |
| StrictPage.PlainStrictOffer | simple_kayak_extractor.py:169-183 | a strict match over the whole page with plain-digit groups gives both values, and the excerpt is the whole page |
| StrictPage.PlainStrictPageOffer | simple_kayak_extractor.py:98-183 | the offer of a page `<digits> zł / osoba <digits> zł łącznie` carries the two amounts as written |
| StrictPage.StrictPriceExample | simple_kayak_extractor.py:98-183 | `1234 zł / osoba 2468 zł łącznie` gives per-person 1234 and total 2468 |
| OfferDetails.SeparatorEndFirst | simple_kayak_extractor.py:331-337 | the split uses the last match of the first separator, in priority order, that matches in the gap; there is none iff no separator matches |
| OfferDetails.SplitPoint | simple_kayak_extractor.py:306-336 | with fewer than two time ranges the split is at the end; otherwise it lies between the end of the first range and the start of the second |
| OfferDetails.SplitSections | simple_kayak_extractor.py:308-344 | the two sections concatenate to the offer text, and are the text and `""` with fewer than two time ranges |
| OfferDetails.SplitOfferSections | simple_kayak_extractor.py:302-344 | the loop over the separators with its early `break` computes the split |
| OfferDetails.StopList | simple_kayak_extractor.py:355-356 | one stop per stopover match |
| OfferDetails.StopoversOf | simple_kayak_extractor.py:355-374 | the stop count is the number of all matches, the first three fill the slots in document order, the others stay empty |
| OfferDetails.FillSlots | simple_kayak_extractor.py:368-370 | the slot loop fills slots 1 to 3 from the first three stops |
| OfferDetails.ParseStopovers | simple_kayak_extractor.py:352-374 | the method returns the stopovers as specified |
| OfferDetails.DurationTextMinutes | simple_kayak_extractor.py:383-389 | `H h M min` reads as H*60 + M minutes |
| OfferDetails.FormatDurationParses | simple_kayak_extractor.py:408-411 | a formatted flight time reads back as its minutes |
| OfferDetails.FlightTimeFormatted | simple_kayak_extractor.py:403-411 | a positive difference is written `{h} h {mm:02d} min` |
| OfferDetails.DurationMinutes | simple_kayak_extractor.py:383-389 | a text reads as minutes iff a duration match starts it, and then as hours × 60 plus minutes of its groups |
| OfferDetails.FlightTimeAfter | simple_kayak_extractor.py:378-411 | an unreadable total gives `""`; one the layovers take up entirely gives the total back; otherwise the difference is formatted |
| OfferDetails.FlightTime | simple_kayak_extractor.py:376-411 | for the layovers of the three stop slots: `""` for an unreadable total, the total itself when the layovers take it all, and otherwise a text that reads back as total minus layovers |
| OfferDetails.FlightTimeMeaning | simple_kayak_extractor.py:376-411 | an empty or unreadable total gives `""`; a difference that is not positive gives the total back; otherwise the result reads back as total minus layovers |
| OfferDetails.FlightOfReading | simple_kayak_extractor.py:387-411 | once the total has been read: `""` when it did not read as a duration, the total itself when the difference is not positive, and otherwise the difference written `{h} h {mm:02d} min` |
| OfferDetails.FlightTimeUnread | simple_kayak_extractor.py:378-385 | a total that does not read as a duration gives `""` |
| OfferDetails.FlightTimeKept | simple_kayak_extractor.py:403-406 | when the layovers take up the whole total, the total is returned unchanged |
| OfferDetails.FlightTimeReparses | simple_kayak_extractor.py:403-411 | when total minus layovers is positive, the result reads back as exactly that many minutes |
| OfferDetails.FlightTimeReadsBack | simple_kayak_extractor.py:403-411 | for a total longer than the layovers, the result reads back as total minus layovers |
| OfferDetails.FormattedReadsBack | simple_kayak_extractor.py:408-411 | any text written `{h} h {mm:02d} min` for a number of minutes reads back as that number |
| OfferDetails.FlightTimeBounded | simple_kayak_extractor.py:403-411 | a readable flight time never exceeds the total |
| OfferDetails.SumLayovers | simple_kayak_extractor.py:392-400 | the loop adds the minutes of the readable stop durations, an unreadable one counting 0 |
| OfferDetails.ReadLayover | simple_kayak_extractor.py:394-400 | a stop duration adds its minutes when it is non-empty and reads as a duration, and 0 otherwise |
| OfferDetails.LayoverStep | simple_kayak_extractor.py:392-400 | each further slot adds that slot's minutes to the layover sum |
| OfferDetails.OneLayover | simple_kayak_extractor.py:392-400 | one readable layover followed by two empty slots sums to that layover's minutes |
| OfferDetails.CalculateFlightTimes | simple_kayak_extractor.py:376-411 | the method returns the flight time as specified |
| OfferDetails.TravelTimeExample | simple_kayak_extractor.py:382-389 | `15 h 05 min` is 905 minutes |
| OfferDetails.LayoverTimeExample | simple_kayak_extractor.py:396-400 | `4 h 15 min` is 255 minutes |
| OfferDetails.LayoverExample | simple_kayak_extractor.py:392-400 | one layover of `4 h 15 min` and two empty slots add up to 255 minutes |
| OfferDetails.FormattedExample | simple_kayak_extractor.py:408-411 | 650 minutes are written `10 h 50 min` |
| OfferDetails.FlightTimeExample | simple_kayak_extractor.py:376-411 | `15 h 05 min` with a `4 h 15 min` layover gives `10 h 50 min` |
| OfferDetails.ParseAirports | simple_kayak_extractor.py:417-436 | (ICN, WAW) iff both codes occur and ICN first, otherwise (WAW, ICN) |
| OfferDetails.TimeRanges | simple_kayak_extractor.py:206 | one time pair per match, in order: the departure and arrival groups of that match |
| OfferDetails.DurationTexts | simple_kayak_extractor.py:217 | one duration text per match, in order: the text of that duration match |
| OfferDetails.TimeRangeSpans | simple_kayak_extractor.py:206 | every span found for the time-range pattern is a time-range match ending where the span ends |
| OfferDetails.DurationSpans | simple_kayak_extractor.py:217 | every span found for the duration pattern is a duration match ending where the span ends |
| OfferDetails.ParseOfferFromText | simple_kayak_extractor.py:191-271 | the record carries the prices and airline given, the route direction, the departure and arrival of the first time range and the return times of the second (empty when missing), the first and second duration texts as the travel times (empty when missing), the stopovers of each section and the flight time of each direction |
| Text.Strip | kayak_excel_scraper.py:247-249 | `strip()` gives the slice of the text left when the whitespace at both ends is removed: everything cut off is whitespace, and the slice neither starts nor ends with whitespace |
| Text.UpperChar | kayak_excel_scraper.py:247-248 | `upper()` of one character gives one character, or two for `ß` and `ŉ`; ASCII lower-case letters are raised and other ASCII characters kept |
| Text.Upper | kayak_excel_scraper.py:247-248 | `upper()` of a text is never shorter than the text |
| Text.UpperCharFixed | kayak_excel_scraper.py:247-248 | every character that `upper()` of one character produces is its own upper case |
| Text.UpperAllFixed | kayak_excel_scraper.py:247-248 | every character of `upper()` of a text is its own upper case |
| Text.UpperConcat | kayak_excel_scraper.py:247-248 | upper-casing a concatenation is concatenating the upper-cased pieces |
| Text.UpperIdempotent | kayak_excel_scraper.py:247-248 | upper-casing twice is upper-casing once |
| Text.UpperSameLength | kayak_excel_scraper.py:247-248 | without `ß` and `ŉ` the text keeps its length, each character raised in place |
| Text.UpperExamples | kayak_excel_scraper.py:247-256 | `waß` becomes `WASS` (four characters, so the row is skipped), `ßa` becomes `SSA`, `łód` becomes `ŁÓD` |
| Text.UpperSharpS | kayak_excel_scraper.py:247-248 | `waß` becomes `WASS` and `ßa` becomes `SSA` |
| Text.UpperPolish | kayak_excel_scraper.py:247-248 | `łód` becomes `ŁÓD` |
| Text.ReplaceChar | simple_kayak_extractor.py:78 | each underscore becomes a space and nothing else changes |
| Text.RemoveChar | simple_kayak_extractor.py:128 | `replace(' ', '')` removes every space and keeps every other character |
| Text.Find | simple_kayak_extractor.py:425-426 | `find` gives the first occurrence, or -1 when there is none |

## Left out

- Browser work: driver creation, page loads, `driver.title` and the body text. The outcome of a scrape enters the model as a `PageOutcome` value.
- File and spreadsheet I/O: JSON configuration loading, default-config writers, session and rolling folder creation, writing the page text and the summary files, the pandas Excel read and `export_to_excel`. The sheet enters the model as its set of column names and its rows of cells.
- `process_session_folder`: it lists a folder and opens files, then only chains the modelled functions.
- Timing and cancellation: `time.sleep`, the `random.uniform` delays, the SIGINT handler and the rolling round loop itself. Only the running totals of the loop are modelled (`TextScraper.RollingTotals`).
- Logging and printing, including the debug listing of the first eight złoty amounts in the fallback.
- The GUI (`FlightTool_Simple.py`), the setup and test scripts and `update_paths.py`.
- Randomness: `random.shuffle` draws from a `draw` parameter, so the model fixes the shuffle's loop but not its distribution.
- Calendar.ParseDate: only canonical, zero-padded `YYYY-MM-DD` text is accepted. `strptime` also accepts one-digit months and days and non-ASCII digits, and those texts are treated as unparsable here.
- Patterns.DurationAt: `\d` is read as ASCII digits only, while Python's `\d` also matches other Unicode decimal digits. The same holds for every matcher in `Patterns`, and for FilenameParser.ParseFilename, whose `\d{4}-\d{2}-\d{2}` and timestamp digits are read as ASCII digits.
- Text.Upper: `str.upper` is modelled for the Basic Latin, Latin-1 Supplement and Latin Extended-A blocks (U+0000 to U+017F), including the widening of `ß` and `ŉ`. Other characters (Greek, Cyrillic, Latin Extended-B and beyond, ligatures such as `ﬁ`) are kept as they are, although Python raises or widens many of them. For a cell holding such letters, ExcelScraper.ReadRowAccepts may then judge the three-character check and the cleaned code differently from the source.
- Patterns.FindCi: case-insensitive matching under `re.IGNORECASE` folds ASCII letters and the Polish `ł`/`Ł` and `ą`/`Ą` that occur in the patterns. Python's other case folds are not modelled.
- OfferLocator.ExtractFirstOffer: prices are whole złoty (`nat`) rather than the `float` the source returns. For amounts below 2^53 no value is lost; a longer digit string is rounded by `float()`, and one of more than about 309 digits becomes `inf`, which the model does not capture.
- Exception paths that cannot be reached are not modelled: the fallback half split of `split_offer_sections` and the error record of `parse_offer_from_text`. The slices are always in range.
- OfferDetails.FlightTime: Python's `int()` and `str()` refuse integers of more than 4300 digits (the default `sys.int_max_str_digits`). In `calculate_flight_times` such a duration group, or such a flight-hours value, raises, and the `except` returns the travel time unchanged. The model reads groups of any length and returns the formatted difference, so it agrees with the source only when every group has at most 4300 digits. The fallback's `int()` is unaffected, because an amount that long lies outside [1000, 50000] and is skipped either way.
- DateCombos.SameCombos: the two generators are proved equal only for durations that are not negative, and only when neither generator computes a date outside years 1..9999. `DateCombos.NegativeDurationDiffers` shows they really differ for negative durations.
- ExcelScraper.SessionSummary: the airline list of the summary is modelled as a set, so the order `list(set(...))` happens to produce is not captured.
- ExcelScraper.MakeTarget: a `duration_days` given explicitly is not modelled, because the row loop never passes one.
- ExcelScraper.ReadRowAccepts: a KeyError or another exception raised by pandas while a row is read is not modelled. The row checks and the date `strftime` are the only failures modelled, and each skips the row as the source's `except ... continue` does.
