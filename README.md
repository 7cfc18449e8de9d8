# Currency-rate and gold-price report: a Dafny model

This project models the logic of `baseScript.py`, a command-line script that builds a
report on a currency's exchange rate to the złoty or on the price of gold over a
period of days. The script:

1. checks the request: the dates, the argument, and how far back data are available;
2. widens the requested period into a fetch window of at least 155 days;
3. cuts the window into calendar-month chunks and fetches each chunk from the rate
   service;
4. stitches the chunks into one series;
5. reduces the series to the report's figures: the visible window from the begin date
   on, the last five quotes, the monthly means, and the summary of first, last,
   minimum, maximum and mean;
6. builds the dictionary the HTML report template is rendered from.

The files, one module each:

- `calendar.dfy` (`Calendar`): proleptic Gregorian dates with a day number equal to
  Python's `date.toordinal`, so that `timedelta` arithmetic is exact. It holds the
  date checks, `getEndOfTheMonth`, `calculateNumberOfMonths`, and the rule that shifts
  today's date back by one day before 16:00.
- `fetch_window.dfy` (`FetchWindow`): the widening of the fetch window, with its
  round-up loop, and the month partition, with its loop.
- `currencies.dfy` (`Currencies`): the lookups over the published currency names and
  codes, `checkTableType`, and the normalisation of the argument.
- `request.dfy` (`Request`): the validation chain of the command line, each failing
  check giving its ValueError.
- `numbers.dfy` (`Numbers`): sum, mean, minimum and maximum over reals.
- `series.dfy` (`Series`): the fetch of one chunk, the assembly of the series, the
  last-five slice and `getImportantData`.
- `summary.dfy` (`Summary`): the summary figures, the precision policy, and the
  payload of `prepareGeneralJsonFile`.
- `report.dfy` (`Report`): `prepareDataForReport` end to end, as a method proved
  against the function `ReportOf`, with lemmas about whole reports.
- `wrappers.dfy` (`Wrappers`): `Option` and `Result`.

Imperative parts of the source are methods with loops, each proved equal to a
pure function:

- the window round-up (`ExpandWindow`);
- the month loop (`Partition`);
- the fetch of one chunk (`PrepareMonthlyPartOfTheData`);
- the assembly loops (`AssembleSeries`);
- the last-five loop (`TakeLastFive`);
- the search of `getImportantData`;
- the index searches of `getCurrencyCode` and `getCurrencyName`;
- the scans of `checkArgumentByName` and `checkArgumentByCode`;
- `checkTableType`;
- the pipeline itself.

The properties are then proved about those functions.

The outside world enters only as parameters:

- the current date and hour;
- the names and codes of the currency tables, as the rate service publishes them;
- a quote source, `Query -> Option<seq<Quote>>`. `None` stands for the `HTTPError`
  that the script catches and turns into an empty chunk.

Choices the model makes:

- Two decimals are used when the first value is strictly greater than 0.009
  (baseScript.py:391), three otherwise.
- The last-five slice and `getImportantData` on an empty series are modelled as
  written, and beside that in corrected forms (see Findings). `Report.PrepareDataForReport`
  uses the corrected forms: the last min(5, len) quotes, and an empty window for an
  empty series, where the source raises IndexError.
- In the model, `prepareDataForReport` first computes the month chunks and then fetches
  them in a second loop, where the source fetches each chunk inside the month loop. The
  fetch has no effect the model sees, so the list of chunk data is the same.

## Model

| member | source | states |
|---|---|---|
| Calendar.OrderByDayNumber | baseScript.py:97-104 | The lexicographic (year, month, day) order used by the date checks holds exactly when the day numbers are ordered, and two dates are equal exactly when their day numbers are, so `timedelta` differences and comparisons agree |
| Calendar.NextDay | baseScript.py:362 | Adding one day (`tempEnd + timedelta(days=1)`) gives the date whose day number is one more |
| Calendar.PrevDay | baseScript.py:133 | Subtracting one day gives the date whose day number is one less |
| Calendar.AddDays | baseScript.py:351 | `date ± timedelta(days=k)` is the date whose day number differs by exactly k |
| Calendar.IsValidDate | baseScript.py:86-94 | True exactly when the date is not after today (lexicographically and by day number) |
| Calendar.CheckPeriod | baseScript.py:97-104 | True exactly when begin is not after end |
| Calendar.CheckGoldDataAvailability | baseScript.py:107-114 | True exactly when the date is on or after 2013-01-02 |
| Calendar.CheckCurrencyDataAvailability | baseScript.py:117-124 | True exactly when the date is on or after 2002-01-02 |
| Calendar.GetEndOfTheMonth | baseScript.py:127-133 | Same year and month as the input, day equal to the month's length (31 in December, 29 in a leap February), not before the input, and the next day is the first of the following month |
| Calendar.CalculateNumberOfMonths | baseScript.py:136-148 | For begin ≤ end: 0 within one month; otherwise 12·(end.year − begin.year) + end.month − begin.month + 1, which is the number of months touched and at least 2 |
| Calendar.ShiftBeforeClose | baseScript.py:57-61 | A date equal to today, with the hour before 16, moves back exactly one day; any other date is unchanged |
| Currencies.NormaliseArgument | baseScript.py:51-53 | An argument starting with '_' is kept; any other has every '_' replaced by a space, keeping its length and every other character |
| Currencies.GetCurrencyCode | baseScript.py:192-202 | The code at the first index holding the name, or an error (the IndexError) past the end of the codes; on parallel lists a listed name gets the code at its own index |
| Currencies.GetCurrencyName | baseScript.py:205-216 | The name at the first index holding the upper-cased code, or an error; on parallel lists a listed code gets the name at its own index |
| Currencies.NameCodeRoundTrip | baseScript.py:192-216 | On parallel tables with distinct upper-case codes, looking up the code of a listed name and then the name of that code gives back the name |
| Currencies.CodeNameRoundTrip | baseScript.py:192-216 | On parallel tables with distinct names, looking up the name of a listed code (in any letter case) and then its code gives back the upper-case code |
| Currencies.CheckArgumentByName | baseScript.py:176-181 | The scan over the published names returns true exactly when the argument is one of them |
| Currencies.CheckArgumentByCode | baseScript.py:184-189 | The scan over the published codes returns true exactly when the argument is one of them |
| Currencies.ChecksAgreeWithLookups | baseScript.py:176-216 | On parallel tables a name passes checkArgumentByName exactly when getCurrencyCode finds its code, and an upper-cased code passes checkArgumentByCode exactly when getCurrencyName finds its name |
| Currencies.CheckTableType | baseScript.py:155-173 | 'a' exactly when the currency is among table A's names or codes, otherwise 'b' |
| Request.CheckRequest | baseScript.py:51-77 | The request is accepted exactly when the shifted dates are not after today, begin is not after end, the normalised argument is known, and data exist from the begin date. An accepted request carries the normalised argument and the shifted dates. Each error holds exactly when every earlier check passes and its own check fails, in the source's order: begin date, end date, period, argument, then gold or currency availability |
| FetchWindow.FetchStart | baseScript.py:349-356 | A span of up to 155 days gives a start exactly 155 days before the end. A longer span gives a distance to the end that is a multiple of 5 in [span, span + 5), the smallest such multiple. The start is never after the begin date |
| FetchWindow.ExpandWindow | baseScript.py:349-356 | The round-up loop ends and gives FetchStart |
| FetchWindow.MonthChunksArePartition | baseScript.py:358-364 | The chunks cover one calendar month each, from the start's month to the end's, in order. The first starts at the start and the last ends at the end. Each chunk lies in its month, every one but the last ends on its month's last day, and each later one starts the day after the previous one ends |
| FetchWindow.ChunkCount | baseScript.py:358-364 | The number of chunks is `calculateNumberOfMonths`, or 1 when the window lies in a single month |
| FetchWindow.Partition | baseScript.py:358-364 | The month loop, over `numberOfMonths − 1` whole months and then a final chunk, gives exactly MonthChunks |
| Series.QueryFor | baseScript.py:278-297 | The query asks for exactly the days from begin to end: a single-day query when they are equal, a period query otherwise. The code 'gold' selects the gold price list; any other code selects the exchange rates of that table letter and code |
| Series.FetchedChunk | baseScript.py:272-308 | A failed fetch gives two empty lists. A successful one gives the answer's dates and values in order, as parallel lists of the same length. The query is for a single day when the chunk is one day, and reads the gold list when the code is 'gold' |
| Series.PrepareMonthlyPartOfTheData | baseScript.py:272-308 | The unzip loop gives FetchedChunk |
| Series.AssembleSeries | baseScript.py:366-378 | The assembly loops give SeriesDates, SeriesValues, MonthsMeans and MonthsNames of the chunk list |
| Series.SeriesAligned | baseScript.py:371-378 | The series has one value per date. There is one monthly mean and one month name per chunk with data, in order: the name is that chunk's first date and the mean is that chunk's mean |
| Series.SeriesOfConcatenation | baseScript.py:371-378 | The series of two chunk lists in a row is the first's series followed by the second's, for dates, values, names and the chunks with data |
| Series.SeriesSkipsEmptyChunk | baseScript.py:371-378 | A chunk without data between two chunk lists changes nothing in the series |
| Series.PyGatherSpec | baseScript.py:382-384 | Reading `s[i]` for i in range(lo, hi) with Python's negative indexing succeeds exactly when every index is in [−len, len) and then gives s[i mod len] at each position |
| Series.LastFiveAsWritten | baseScript.py:380-384 | The last-five loop as written: it fails for fewer than 3 points, and otherwise gives 5 elements, element k being s[(len − 5 + k) mod len] |
| Series.LastFiveAsWrittenIsLastFive | baseScript.py:380-384 | With at least 5 points the loop as written gives exactly the final 5 entries in order |
| Series.LastFiveAsWrittenWrapsAround | baseScript.py:380-384 | On [1, 2, 3, 4] the loop as written gives [4, 1, 2, 3, 4]; on [1, 2] it fails |
| Series.TakeLastFive | baseScript.py:380-384 | The corrected loop gives the last min(5, len) entries of both lists, in order |
| Series.FirstPresent | baseScript.py:319-325 | The first day, counting up from the candidate, that the series holds: it is in the series, not before the candidate, and not after any series date on or after the candidate |
| Series.LastIndexOf | baseScript.py:320-324 | The index the inner scan keeps: it holds the date, and no later index does |
| Series.VisibleWindow | baseScript.py:311-330 | Aligned dates and values. Empty when the series is empty or the begin date is after its last date |
| Series.ScanForDate | baseScript.py:320-324 | One pass of the scan finds the date exactly when the series holds it, and then gives its last index; otherwise idx is unchanged |
| Series.FindStart | baseScript.py:319-325 | The day-by-day search from a begin date not after the last quote ends, and keeps the last index of the first day on or after the begin date that the series holds |
| Series.CopySuffix | baseScript.py:327-329 | The copying loop gives the dates and the values from the found index to the end |
| Series.GetImportantData | baseScript.py:311-330 | On a non-empty series the `while isNotFound` loop ends, and the result is VisibleWindow |
| Series.EmptySeriesHasNoLastDate | baseScript.py:317 | On an empty series `datesList[len(datesList)-1]` has no element, while the intended window is empty |
| Series.VisibleWindowOfIncreasing | baseScript.py:311-330 | On a strictly increasing series with begin ≤ last date, the window is the aligned suffix from the first date ≥ begin. Every earlier date is before begin, every window date is ≥ begin, and the window ends at the series end |
| Series.ChunkOfChronological | baseScript.py:272-308 | A source that answers in order, inside each query, gives every chunk increasing dates inside the chunk |
| Series.SeriesIncreasing | baseScript.py:366-378 | Chunks of ordered ranges, each inside its range, assemble into a strictly increasing series between the first range's begin and the last one's end |
| Series.NoQuotesNoSeries | baseScript.py:371-378 | Chunks without data give an empty series, no monthly means and no month names |
| Series.WindowOfChronologicalSeries | baseScript.py:311-330 | On a strictly increasing series ending by a day h, the window is increasing, lies between begin and h, and holds every series date on or after begin |
| Numbers.MeanBetweenMinAndMax | baseScript.py:394-398 | The average of a non-empty list lies between its minimum and its maximum |
| Summary.Precision | baseScript.py:391 | 2 decimals exactly when the first value is greater than 0.009, otherwise 3 |
| Summary.SummaryFigures | baseScript.py:389-414 | An empty window gives 'No data' in all seven fields, and only an empty one does. Otherwise the begin and end values and dates are the window's first and last. The minimum and maximum are the window's extremes. The average is the mean and lies between them. Every figure carries the precision chosen by the first value |
| Summary.WithUnit | baseScript.py:525-545 | 'No data' is shown as it is; every other figure is shown followed by " zł" |
| Summary.PrepareGeneralJsonFile | baseScript.py:515-548 | The name is kept, and the code is 'No data' for gold. The begin and end dates are copied. Minimum, maximum, begin value and average each get the unit rule. A 'No data' end value is replaced by the begin value as it is |
| Summary.EmptyWindowPayload | baseScript.py:515-545 | An empty window reaches the report as 'No data' in every date and figure field, with no unit |
| Summary.WindowPayload | baseScript.py:515-545 | A non-empty window reaches the report with every figure in złoty. The begin and end values are the first and last quotes at the precision of the first, and the average lies between the minimum and the maximum |
| Report.InstrumentOf | baseScript.py:336-347 | Gold gives name and code 'gold' and no table letter. An argument shorter than 4 characters is looked up as a code, which it keeps upper-cased; a longer one is looked up as a name. The lookup fails exactly as the index search does, and on parallel tables exactly when the argument is not listed. The letter is 'a' exactly when the name is in table A |
| Report.ResolveInstrument | baseScript.py:336-347 | The branch at the head of prepareDataForReport gives InstrumentOf |
| Report.ListedInstrument | baseScript.py:336-347 | On consistent tables a listed currency resolves to a published name and code that map to each other |
| Report.KnownArgumentResolves | baseScript.py:69 | Apart from 'all', on parallel tables with codes shorter and names longer than four characters, an argument passes the command-line argument check exactly when the instrument branch of prepareDataForReport (baseScript.py:336-347) finds its instrument |
| Report.FetchChunks | baseScript.py:358-364 | One call of prepareMonthlyPartOfTheData per chunk, in order |
| Report.ReportOf | baseScript.py:333-420 | The report exists exactly when the instrument lookup succeeds. Its payload carries the instrument's name and its code (or 'No data' for gold). The window and the series are aligned, there is one month name per monthly mean, and the last five quotes are the final min(5, len) of the series |
| Report.ReportOfSeries | baseScript.py:366-420 | From the fetched chunks, the payload carries the instrument's name and its code (or 'No data' for gold). The window and the series are aligned, there is one month name per monthly mean, and the last five quotes are the final min(5, len) of the series |
| Report.PrepareDataForReport | baseScript.py:333-420 | The pipeline gives ReportOf: instrument, window expansion, month partition, chunk fetches, assembly, last five, visible window (empty for an empty series), summary and payload |
| Report.PartitionOrdered | baseScript.py:358-364 | The month chunks are non-empty and follow one another, each ending before every later one begins |
| Report.NoQuotesReport | baseScript.py:333-420 | When no query is answered, every date and figure of the payload is 'No data' and the report has no series, no last five and no months |
| Report.ChronologicalSeries | baseScript.py:358-378 | A source answering in order, inside each query, gives a strictly increasing series inside the fetch window |
| Report.ChronologicalReport | baseScript.py:333-420 | With such a source, the series and the window are strictly increasing. The window lies between the request's begin and end dates and holds every series date from the begin date on. The payload's begin and end dates are the window's first and last |

## Left out

- Network access: the rate service is modelled as a parameter. This covers `rq.urlopen`, `json.loads`, the table downloads of `checkTableType` and `prepareSpecialListOfCurriencies`, and the fetch in `prepareMonthlyPartOfTheData`. Only `HTTPError` is modelled, as `None`; other exceptions of the network and JSON layer are not.
- `prepareSpecialListOfCurriencies`: the concatenation of table A's and table B's lists is not modelled. Its result is the `names`/`codes` parameters, and table A's lists are the `tableANames`/`tableACodes` parameters, with no constraint tying the two together.
- `parserFunction`'s argparse handling, `printListOfAvailableNames`, `main` and the 'all' branch (`prepareTableOfAllCurrencies`): command-line and output handling.
- The clock: `datetime.now()` is the `today` and `hour` parameters. The hour of a parsed date is the current hour, so the model keeps no time of day.
- Python's `MINYEAR`/`MAXYEAR` bounds: dates range over all integer years, so the `OverflowError` near the bounds is not modelled.
- matplotlib figures (`prepareWholePeriodFigure`, `prepareLastFiveDaysFigures`, `prepareLastMonthsFigures`): rendering. The model keeps only the lists handed to them.
- pandas and jinja2 (`preparePriceTable`'s CSV, `prepareTableJsonFile`, `prepareReport`) and the JSON file writes: file output. The price table's rows are the visible window, which `ReportData` holds.
- Summary.SummaryFigures: the fixed-point formatting (field width 10, 2 or 3 decimals) is modelled as a value plus its number of decimals, not as text. Arithmetic is over the reals, not floating point, so `np.mean` and `sum/len` are exact means.
- Series.MonthsNames: the `strftime("%B %Y")` renaming of the month names is not modelled; the name is the chunk's first date.
- Currencies.Upper: `str.upper` is modelled on the letters a–z only; every other character is kept unchanged.
- `forms/script.js`: browser event handlers with no logic to model.

## Findings

| source | as written | input that shows it | evidently intended | confidence | as-written member | corrected member |
|---|---|---|---|---|---|---|
| baseScript.py:382-384 | `for i in range(len(valuesList)-5, len(valuesList))` indexes with negative numbers when the series has fewer than 5 points | 4 points [1, 2, 3, 4] give [4, 1, 2, 3, 4]; 2 points raise IndexError | the last min(5, len) points, fewer than 5 without failing | not executed | Series.LastFiveAsWritten, Series.LastFiveAsWrittenWrapsAround | Series.TakeLastFive |
| baseScript.py:317 | `datesList[len(datesList)-1]` is read before any check that the series has a date | `getImportantData([], [], d)` raises IndexError. Inside prepareDataForReport an empty series (every chunk fetch failing) raises earlier, in the last-five loop at baseScript.py:382-383, so this defect is hidden behind that one | an empty window, so that the report shows 'No data' | not executed | Series.GetImportantData, Series.EmptySeriesHasNoLastDate | Series.VisibleWindow |
