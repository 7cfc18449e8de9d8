/** prepareDataForReport: from a checked request to the data of the report. The
    currency tables and the quote source are parameters; the figures, the price table
    file and the rendered HTML are not modelled, only the data handed to them. */
module Report {
  import opened Wrappers
  import opened Calendar
  import opened Currencies
  import opened Request
  import opened FetchWindow
  import opened Series
  import opened Summary

  /** The name, code and rate table letter of the requested instrument. */
  datatype Instrument = Instrument(name: string, code: string, letter: string)

  /** The instrument prepareDataForReport works with: for gold the name and the code
      are 'gold' and there is no table letter; an argument shorter than four
      characters is a code, any other a name. None stands for the IndexError of a
      lookup that finds nothing. */
  function InstrumentOf(argument: string, names: seq<string>, codes: seq<string>,
                        tableANames: seq<string>, tableACodes: seq<string>): (r: Option<Instrument>)
    ensures argument == "gold" ==> r == Some(Instrument("gold", "gold", ""))
    ensures argument != "gold" && r.Some? ==>
              (r.value.letter == "a" <==> r.value.name in tableANames || r.value.name in tableACodes) &&
              (r.value.letter == "a" || r.value.letter == "b")
    ensures argument != "gold" && |argument| < 4 ==>
              (r.Some? <==> IndexOf(codes, Upper(argument)) < |names|) &&
              (|names| == |codes| ==> (r.Some? <==> Upper(argument) in codes)) &&
              (r.Some? ==> r.value.code == Upper(argument) && r.value.name in names)
    ensures argument != "gold" && |argument| >= 4 ==>
              (r.Some? <==> IndexOf(names, argument) < |codes|) &&
              (|names| == |codes| ==> (r.Some? <==> argument in names)) &&
              (r.Some? ==> r.value.name == argument && r.value.code in codes)
  {
    if argument == "gold" then Some(Instrument(argument, argument, ""))
    else if |argument| < 4 then
      match CurrencyNameOf(argument, names, codes)
      case None => None
      case Some(name) => Some(Instrument(name, Upper(argument), TableTypeOf(name, tableANames, tableACodes)))
    else
      match CurrencyCodeOf(argument, names, codes)
      case None => None
      case Some(code) => Some(Instrument(argument, code, TableTypeOf(argument, tableANames, tableACodes)))
  }

  /** The instrument branch at the head of prepareDataForReport. */
  method ResolveInstrument(argument: string, names: seq<string>, codes: seq<string>,
                           tableANames: seq<string>, tableACodes: seq<string>)
    returns (r: Option<Instrument>)
    ensures r == InstrumentOf(argument, names, codes, tableANames, tableACodes)
  {
    if argument != "gold" {
      var name: string, code: string;
      if |argument| < 4 {
        var found := GetCurrencyName(argument, names, codes);
        if found.None? {
          return None;
        }
        name := found.value;
        code := Upper(argument);
      } else {
        name := argument;
        var found := GetCurrencyCode(name, names, codes);
        if found.None? {
          return None;
        }
        code := found.value;
      }
      var letter := CheckTableType(name, tableANames, tableACodes);
      r := Some(Instrument(name, code, letter));
    } else {
      r := Some(Instrument(argument, argument, ""));
    }
  }

  lemma UpperIdempotent(s: string)
    ensures Upper(Upper(s)) == Upper(s)
  {
    assert forall i :: 0 <= i < |s| ==> Upper(Upper(s))[i] == Upper(s)[i];
  }

  /** On consistent tables a listed currency resolves to a name and a code that
      belong together: the published pair at one index of both lists. */
  lemma ListedInstrument(argument: string, names: seq<string>, codes: seq<string>,
                         tableANames: seq<string>, tableACodes: seq<string>)
    requires argument != "gold"
    requires |names| == |codes| && Distinct(names) && Distinct(codes) && AllUpper(codes)
    requires if |argument| < 4 then Upper(argument) in codes else argument in names
    ensures var r := InstrumentOf(argument, names, codes, tableANames, tableACodes);
            r.Some? &&
            CurrencyCodeOf(r.value.name, names, codes) == Some(r.value.code) &&
            CurrencyNameOf(r.value.code, names, codes) == Some(r.value.name)
  {
    if |argument| < 4 {
      CodeNameRoundTrip(argument, names, codes);
      UpperIdempotent(argument);
    } else {
      NameCodeRoundTrip(argument, names, codes);
    }
  }

  /** The arguments the command line accepts are the ones prepareDataForReport can
      resolve, apart from 'all' (the table of all currencies): on parallel tables whose
      codes are shorter and whose names longer than four characters, an argument passes
      the check on the command line exactly when its instrument is found. */
  lemma KnownArgumentResolves(argument: string, names: seq<string>, codes: seq<string>,
                              tableANames: seq<string>, tableACodes: seq<string>)
    requires |names| == |codes| && argument != "all"
    requires forall i :: 0 <= i < |codes| ==> |codes[i]| < 4
    requires forall i :: 0 <= i < |names| ==> |names[i]| >= 4
    ensures KnownArgument(argument, names, codes) <==>
              InstrumentOf(argument, names, codes, tableANames, tableACodes).Some?
  {
    assert |Upper(argument)| == |argument|;
  }

  /** Each chunk in order, as prepareMonthlyPartOfTheData returns it. */
  function FetchAll(chunks: seq<Range>, letter: string, code: string, fetch: QuoteSource): (lista: seq<ChunkData>)
    ensures |lista| == |chunks| && Parallel(lista)
  {
    seq(|chunks|, k requires 0 <= k < |chunks| => FetchedChunk(letter, code, chunks[k].begin, chunks[k].end, fetch))
  }

  /** The `lista.append(prepareMonthlyPartOfTheData(...))` calls, one per chunk. */
  method FetchChunks(chunks: seq<Range>, letter: string, code: string, fetch: QuoteSource)
    returns (lista: seq<ChunkData>)
    ensures lista == FetchAll(chunks, letter, code, fetch)
  {
    lista := [];
    for k := 0 to |chunks|
      invariant |lista| == k
      invariant forall j :: 0 <= j < k ==> lista[j] == FetchedChunk(letter, code, chunks[j].begin, chunks[j].end, fetch)
    {
      var tempDateList, tempList := PrepareMonthlyPartOfTheData(letter, code, chunks[k].begin, chunks[k].end, fetch);
      lista := lista + [(tempDateList, tempList)];
    }
  }

  /** What the report is made of: the payload of the summary page, the visible window
      (the whole-period figure and the price table), the last five quotes, the
      monthly means with their months, and the assembled series. */
  datatype ReportData = ReportData(
    payload: Payload,
    importantDates: seq<Date>, importantValues: seq<real>,
    lastFiveValues: seq<real>, lastFiveDates: seq<Date>,
    monthsMeans: seq<real>, monthsNames: seq<Date>,
    datesList: seq<Date>, valuesList: seq<real>)

  /** The report made from the fetched chunks: the assembled series, its last five
      quotes, the window from the begin date, its summary and the payload. */
  function ReportOfSeries(ins: Instrument, beginDate: Date, lista: seq<ChunkData>): (d: ReportData)
    requires Parallel(lista)
    ensures d.payload.name == ins.name
    ensures d.payload.code == (if ins.name == "gold" then NoDataText else ins.code)
    ensures |d.importantDates| == |d.importantValues| &&
            |d.datesList| == |d.valuesList| &&
            |d.monthsMeans| == |d.monthsNames|
    ensures d.lastFiveDates == LastFive(d.datesList) && d.lastFiveValues == LastFive(d.valuesList)
  {
    SeriesAligned(lista);
    var datesList, valuesList := SeriesDates(lista), SeriesValues(lista);
    var window := VisibleWindow(datesList, valuesList, beginDate);
    ReportData(
      PrepareGeneralJsonFile(ins.name, ins.code, SummaryFigures(window.0, window.1)),
      window.0, window.1,
      LastFive(valuesList), LastFive(datesList),
      MonthsMeans(lista), MonthsNames(lista),
      datesList, valuesList)
  }

  /** The report of a checked request, with the last-five slice and the visible window
      in their corrected forms. */
  function ReportOf(data: ReportRequest, names: seq<string>, codes: seq<string>,
                    tableANames: seq<string>, tableACodes: seq<string>, fetch: QuoteSource): (r: Option<ReportData>)
    ensures r.None? <==> InstrumentOf(data.argument, names, codes, tableANames, tableACodes).None?
    ensures r.Some? ==>
              var ins := InstrumentOf(data.argument, names, codes, tableANames, tableACodes).value;
              r.value.payload.name == ins.name &&
              r.value.payload.code == (if ins.name == "gold" then NoDataText else ins.code) &&
              |r.value.importantDates| == |r.value.importantValues| &&
              |r.value.datesList| == |r.value.valuesList| &&
              |r.value.monthsMeans| == |r.value.monthsNames| &&
              r.value.lastFiveDates == LastFive(r.value.datesList) &&
              r.value.lastFiveValues == LastFive(r.value.valuesList)
  {
    match InstrumentOf(data.argument, names, codes, tableANames, tableACodes)
    case None => None
    case Some(ins) =>
      var start := FetchStart(data.beginDate, data.endDate);
      OrderByDayNumber(start, data.endDate);
      Some(ReportOfSeries(ins, data.beginDate, FetchAll(MonthChunks(start, data.endDate), ins.letter, ins.code, fetch)))
  }

  /** prepareDataForReport, with the corrected last-five slice and an empty window for
      an empty series. */
  method PrepareDataForReport(data: ReportRequest, names: seq<string>, codes: seq<string>,
                              tableANames: seq<string>, tableACodes: seq<string>, fetch: QuoteSource)
    returns (report: Option<ReportData>)
    ensures report == ReportOf(data, names, codes, tableANames, tableACodes, fetch)
  {
    var instrument := ResolveInstrument(data.argument, names, codes, tableANames, tableACodes);
    if instrument.None? {
      return None;
    }
    var ins := instrument.value;
    var tempBegin := ExpandWindow(data.beginDate, data.endDate);
    OrderByDayNumber(tempBegin, data.endDate);
    var chunks := Partition(tempBegin, data.endDate);
    var lista := FetchChunks(chunks, ins.letter, ins.code, fetch);
    var datesList, valuesList, monthsMeans, monthsNames := AssembleSeries(lista);
    SeriesAligned(lista);
    var lastFiveValues, lastFiveDates := TakeLastFive(valuesList, datesList);
    var importantDates, importantValues := [], [];
    if |datesList| > 0 {
      importantDates, importantValues := GetImportantData(valuesList, datesList, data.beginDate);
    }
    var figures := SummaryFigures(importantDates, importantValues);
    var payload := PrepareGeneralJsonFile(ins.name, ins.code, figures);
    report := Some(ReportData(payload, importantDates, importantValues, lastFiveValues, lastFiveDates,
                              monthsMeans, monthsNames, datesList, valuesList));
  }

  // ---------------------------------------------------------------- end to end

  lemma {:induction false} PartitionGap(chunks: seq<Range>, start: Date, end: Date, j: int, k: int)
    requires IsMonthPartition(chunks, start, end) && 0 <= j < k < |chunks|
    ensures DayNumber(chunks[j].end) < DayNumber(chunks[k].begin)
    decreases k - j
  {
    assert chunks[k].begin == NextDay(chunks[k - 1].end);
    if j < k - 1 {
      PartitionGap(chunks, start, end, j, k - 1);
      OrderByDayNumber(chunks[k - 1].begin, chunks[k - 1].end);
    }
  }

  /** The month chunks are non-empty ranges in chronological order. */
  lemma PartitionOrdered(start: Date, end: Date)
    requires Le(start, end)
    ensures Ordered(MonthChunks(start, end))
  {
    MonthChunksArePartition(start, end);
    PartitionIsOrdered(MonthChunks(start, end), start, end);
  }

  /** Any month partition is ordered. */
  lemma PartitionIsOrdered(chunks: seq<Range>, start: Date, end: Date)
    requires IsMonthPartition(chunks, start, end)
    ensures Ordered(chunks)
  {
    forall k | 0 <= k < |chunks|
      ensures DayNumber(chunks[k].begin) <= DayNumber(chunks[k].end)
    {
      OrderByDayNumber(chunks[k].begin, chunks[k].end);
    }
    forall j, k | 0 <= j < k < |chunks|
      ensures DayNumber(chunks[j].end) < DayNumber(chunks[k].begin)
    {
      PartitionGap(chunks, start, end, j, k);
    }
  }

  /** When no query is answered the report shows 'No data' everywhere and has no
      last-five quotes and no months. */
  lemma NoQuotesReport(data: ReportRequest, names: seq<string>, codes: seq<string>,
                       tableANames: seq<string>, tableACodes: seq<string>, fetch: QuoteSource)
    requires forall q :: fetch(q).None?
    ensures var r := ReportOf(data, names, codes, tableANames, tableACodes, fetch);
            r.Some? ==>
              var p := r.value.payload;
              p.begin == NoDate && p.end == NoDate &&
              p.minVal == Plain(NoData) && p.maxVal == Plain(NoData) && p.beginVal == Plain(NoData) &&
              p.endVal == Plain(NoData) && p.average == Plain(NoData) &&
              r.value.datesList == [] && r.value.lastFiveValues == [] &&
              r.value.monthsMeans == [] && r.value.monthsNames == []
  {
    var instrument := InstrumentOf(data.argument, names, codes, tableANames, tableACodes);
    if instrument.Some? {
      var ins := instrument.value;
      var start := FetchStart(data.beginDate, data.endDate);
      OrderByDayNumber(start, data.endDate);
      var lista := FetchAll(MonthChunks(start, data.endDate), ins.letter, ins.code, fetch);
      NoQuotesNoSeries(lista);
    }
  }

  lemma ChunksWithin(chunks: seq<Range>, letter: string, code: string, fetch: QuoteSource)
    requires Chronological(fetch) && Ordered(chunks)
    ensures var lista := FetchAll(chunks, letter, code, fetch);
            forall k :: 0 <= k < |lista| ==> ChunkWithin(lista[k], chunks[k])
  {
    var lista := FetchAll(chunks, letter, code, fetch);
    forall k | 0 <= k < |lista|
      ensures ChunkWithin(lista[k], chunks[k])
    {
      ChunkOfChronological(letter, code, chunks[k], fetch);
    }
  }

  /** A chronological source gives a strictly increasing series inside the fetch window. */
  lemma ChronologicalSeries(start: Date, end: Date, letter: string, code: string, fetch: QuoteSource)
    requires Chronological(fetch) && Le(start, end)
    ensures IncreasingWithin(SeriesDates(FetchAll(MonthChunks(start, end), letter, code, fetch)), start, end)
  {
    PartitionOrdered(start, end);
    MonthChunkEnds(start, end);
    OrderedChunksSeries(MonthChunks(start, end), start, end, letter, code, fetch);
  }

  /** A chronological source gives a strictly increasing series for ordered chunks
      running from start to end. */
  lemma OrderedChunksSeries(chunks: seq<Range>, start: Date, end: Date, letter: string, code: string, fetch: QuoteSource)
    requires Chronological(fetch) && Ordered(chunks)
    requires |chunks| > 0 && chunks[0].begin == start && chunks[|chunks| - 1].end == end
    ensures IncreasingWithin(SeriesDates(FetchAll(chunks, letter, code, fetch)), start, end)
  {
    ChunksWithin(chunks, letter, code, fetch);
    FetchedSeriesWithin(FetchAll(chunks, letter, code, fetch), chunks, start, end);
  }

  /** The month chunks run from start to end. */
  lemma MonthChunkEnds(start: Date, end: Date)
    requires Le(start, end)
    ensures var chunks := MonthChunks(start, end);
            |chunks| > 0 && chunks[0].begin == start && chunks[|chunks| - 1].end == end
  {
    MonthChunksArePartition(start, end);
  }

  /** What a chronological source guarantees of a report: the series and the window are
      strictly increasing, the window lies between the begin date and `hi` and holds
      every series date from the begin date on, and the payload's begin and end dates
      are the window's first and last. */
  ghost predicate ChronologicalWindow(r: ReportData, beginDate: Date, hi: Date) {
    var d := r.importantDates;
    StrictlyIncreasing(r.datesList) &&
    StrictlyIncreasing(d) &&
    (forall i :: 0 <= i < |d| ==> DayNumber(beginDate) <= DayNumber(d[i]) <= DayNumber(hi)) &&
    (forall x :: x in r.datesList && DayNumber(beginDate) <= DayNumber(x) ==> x in d) &&
    (|d| > 0 ==> r.payload.begin == Day(d[0]) && r.payload.end == Day(d[|d| - 1]))
  }

  /** With a source that answers chronologically and inside each query, the window the
      report shows is exactly the quotes of the series from the begin date on: in order,
      between the begin and the end date of the request, with nothing from the series in
      that period left out; the summary dates are its first and last quote. */
  lemma ChronologicalReport(data: ReportRequest, names: seq<string>, codes: seq<string>,
                            tableANames: seq<string>, tableACodes: seq<string>, fetch: QuoteSource)
    requires Chronological(fetch)
    ensures var r := ReportOf(data, names, codes, tableANames, tableACodes, fetch);
            r.Some? ==> ChronologicalWindow(r.value, data.beginDate, data.endDate)
  {
    var instrument := InstrumentOf(data.argument, names, codes, tableANames, tableACodes);
    if instrument.Some? {
      var ins := instrument.value;
      var start := FetchStart(data.beginDate, data.endDate);
      OrderByDayNumber(start, data.endDate);
      var lista := FetchAll(MonthChunks(start, data.endDate), ins.letter, ins.code, fetch);
      assert ReportOf(data, names, codes, tableANames, tableACodes, fetch) == Some(ReportOfSeries(ins, data.beginDate, lista));
      ChronologicalSeries(start, data.endDate, ins.letter, ins.code, fetch);
      WindowReport(ins, data.beginDate, start, data.endDate, lista);
    }
  }

  /** The window part of the report of an increasing series that ends by `hi`. */
  lemma WindowReport(ins: Instrument, beginDate: Date, lo: Date, hi: Date, lista: seq<ChunkData>)
    requires Parallel(lista) && IncreasingWithin(SeriesDates(lista), lo, hi)
    ensures ChronologicalWindow(ReportOfSeries(ins, beginDate, lista), beginDate, hi)
  {
    SeriesAligned(lista);
    var dates, values := SeriesDates(lista), SeriesValues(lista);
    WindowOfChronologicalSeries(dates, values, beginDate, hi);
  }
}
