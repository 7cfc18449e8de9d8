/** From month chunks to one series of quotes: each chunk is fetched on its own (a
    failed fetch gives an empty chunk), the chunks with data are concatenated in
    order, and the report reads three views of the result: the monthly means, the
    last five quotes, and the visible window that starts at the requested begin date. */
module Series {
  import opened Wrappers
  import opened Calendar
  import opened Numbers
  import opened FetchWindow

  /** One published observation: a date and its rate or price. */
  datatype Quote = Quote(date: Date, value: real)

  /** The list a query reads: the gold price, or a currency's rates in table 'a' or 'b'. */
  datatype Source = GoldPrices | ExchangeRates(letter: string, code: string)

  /** A request to the quote source, for one day or for a period of days. */
  datatype Query = DayQuery(source: Source, day: Date) | PeriodQuery(source: Source, first: Date, last: Date)

  /** The quote source: None stands for the HTTPError the script catches. */
  type QuoteSource = Query -> Option<seq<Quote>>

  /** The parallel date and value lists of one fetched chunk. */
  type ChunkData = (seq<Date>, seq<real>)

  /** The query of prepareMonthlyPartOfTheData: the code 'gold' selects the gold price
      list, and a chunk of one day is asked for as that single day. */
  function QueryFor(letter: string, code: string, begin: Date, end: Date): (q: Query)
    ensures QueryFirst(q) == begin && QueryLast(q) == end
    ensures q.DayQuery? <==> begin == end
    ensures q.source.GoldPrices? <==> code == "gold"
    ensures q.source.ExchangeRates? ==> q.source.letter == letter && q.source.code == code
  {
    var source := if code == "gold" then GoldPrices else ExchangeRates(letter, code);
    if begin == end then DayQuery(source, end) else PeriodQuery(source, begin, end)
  }

  /** The chunk prepareMonthlyPartOfTheData returns. */
  function FetchedChunk(letter: string, code: string, begin: Date, end: Date, fetch: QuoteSource): (data: ChunkData)
    ensures |data.0| == |data.1|
    ensures fetch(QueryFor(letter, code, begin, end)).None? ==> data == ([], [])
    ensures fetch(QueryFor(letter, code, begin, end)).Some? ==>
              var points := fetch(QueryFor(letter, code, begin, end)).value;
              |data.0| == |points| &&
              forall i :: 0 <= i < |points| ==> data.0[i] == points[i].date && data.1[i] == points[i].value
  {
    match fetch(QueryFor(letter, code, begin, end))
    case None => ([], [])
    case Some(points) =>
      (seq(|points|, i requires 0 <= i < |points| => points[i].date),
       seq(|points|, i requires 0 <= i < |points| => points[i].value))
  }

  /** prepareMonthlyPartOfTheData: fetches one chunk and unzips the answer into
      dates and values; a failed fetch leaves both lists empty. */
  method PrepareMonthlyPartOfTheData(letter: string, code: string, begin: Date, end: Date, fetch: QuoteSource)
    returns (tempDateList: seq<Date>, tempList: seq<real>)
    ensures (tempDateList, tempList) == FetchedChunk(letter, code, begin, end, fetch)
  {
    tempDateList, tempList := [], [];
    var answer := fetch(QueryFor(letter, code, begin, end));
    if answer.Some? {
      var points := answer.value;
      for i := 0 to |points|
        invariant |tempDateList| == i && |tempList| == i
        invariant forall j :: 0 <= j < i ==> tempDateList[j] == points[j].date && tempList[j] == points[j].value
      {
        tempDateList := tempDateList + [points[i].date];
        tempList := tempList + [points[i].value];
      }
      var expected := FetchedChunk(letter, code, begin, end, fetch);
      assert tempDateList == expected.0 && tempList == expected.1;
    }
  }

  /** Every chunk has as many values as dates, as prepareMonthlyPartOfTheData gives. */
  ghost predicate Parallel(lista: seq<ChunkData>) {
    forall k :: 0 <= k < |lista| ==> |lista[k].0| == |lista[k].1|
  }

  /** datesList: the dates of all chunks, in chunk order. */
  function SeriesDates(lista: seq<ChunkData>): seq<Date> {
    if lista == [] then []
    else
      var element := lista[|lista| - 1];
      SeriesDates(lista[..|lista| - 1]) + (if |element.0| > 0 then element.0 else [])
  }

  /** valuesList: the values of the chunks that have dates, in chunk order. */
  function SeriesValues(lista: seq<ChunkData>): seq<real> {
    if lista == [] then []
    else
      var element := lista[|lista| - 1];
      SeriesValues(lista[..|lista| - 1]) + (if |element.0| > 0 then element.1 else [])
  }

  /** monthsMeans: the mean value of each chunk that has dates. */
  function MonthsMeans(lista: seq<ChunkData>): seq<real>
    requires Parallel(lista)
  {
    if lista == [] then []
    else
      var element := lista[|lista| - 1];
      MonthsMeans(lista[..|lista| - 1]) + (if |element.0| > 0 then [Mean(element.1)] else [])
  }

  /** monthsNames: the first date of each chunk that has dates. */
  function MonthsNames(lista: seq<ChunkData>): seq<Date> {
    if lista == [] then []
    else
      var element := lista[|lista| - 1];
      MonthsNames(lista[..|lista| - 1]) + (if |element.0| > 0 then [element.0[0]] else [])
  }

  /** The chunks that have dates, in order. */
  function NonEmptyChunks(lista: seq<ChunkData>): seq<ChunkData> {
    if lista == [] then []
    else
      var element := lista[|lista| - 1];
      NonEmptyChunks(lista[..|lista| - 1]) + (if |element.0| > 0 then [element] else [])
  }

  /** The assembly loop of prepareDataForReport over the fetched chunks. */
  method AssembleSeries(lista: seq<ChunkData>)
    returns (datesList: seq<Date>, valuesList: seq<real>, monthsMeans: seq<real>, monthsNames: seq<Date>)
    requires Parallel(lista)
    ensures datesList == SeriesDates(lista) && valuesList == SeriesValues(lista)
    ensures monthsMeans == MonthsMeans(lista) && monthsNames == MonthsNames(lista)
  {
    datesList, valuesList, monthsMeans, monthsNames := [], [], [], [];
    for k := 0 to |lista|
      invariant datesList == SeriesDates(lista[..k]) && valuesList == SeriesValues(lista[..k])
      invariant monthsMeans == MonthsMeans(lista[..k]) && monthsNames == MonthsNames(lista[..k])
    {
      var element := lista[k];
      assert lista[..k + 1][..k] == lista[..k] && lista[..k + 1][k] == element;
      if |element.0| > 0 {
        ghost var datesBefore, valuesBefore := datesList, valuesList;
        for j := 0 to |element.0|
          invariant datesList == datesBefore + element.0[..j]
        {
          datesList := datesList + [element.0[j]];
        }
        for j := 0 to |element.1|
          invariant valuesList == valuesBefore + element.1[..j]
        {
          valuesList := valuesList + [element.1[j]];
        }
        assert element.0[..|element.0|] == element.0 && element.1[..|element.1|] == element.1;
        monthsMeans := monthsMeans + [Mean(element.1)];
        monthsNames := monthsNames + [element.0[0]];
      }
    }
    assert lista[..|lista|] == lista;
  }

  /** The series has one value per date, and there is one monthly mean and one month
      name per chunk with data, the name being that chunk's first date and the mean
      that chunk's mean. */
  lemma {:induction false} SeriesAligned(lista: seq<ChunkData>)
    requires Parallel(lista)
    ensures |SeriesDates(lista)| == |SeriesValues(lista)|
    ensures |MonthsMeans(lista)| == |MonthsNames(lista)| == |NonEmptyChunks(lista)|
    ensures forall j :: 0 <= j < |NonEmptyChunks(lista)| ==>
              |NonEmptyChunks(lista)[j].1| == |NonEmptyChunks(lista)[j].0| > 0 &&
              MonthsNames(lista)[j] == NonEmptyChunks(lista)[j].0[0] &&
              MonthsMeans(lista)[j] == Mean(NonEmptyChunks(lista)[j].1)
  {
    if lista != [] {
      var init := lista[..|lista| - 1];
      assert Parallel(init) by {
        forall k | 0 <= k < |init| ensures |init[k].0| == |init[k].1| {
          assert init[k] == lista[k];
        }
      }
      SeriesAligned(init);
      var element := lista[|lista| - 1];
      var n := |NonEmptyChunks(init)|;
      assert |element.0| == |element.1|;
      if |element.0| > 0 {
        assert NonEmptyChunks(lista) == NonEmptyChunks(init) + [element];
        assert MonthsNames(lista) == MonthsNames(init) + [element.0[0]];
        assert MonthsMeans(lista) == MonthsMeans(init) + [Mean(element.1)];
      }
    }
  }

  /** Concatenation: the views of two runs of chunks are the views of each, joined. */
  lemma SeriesOfConcatenation(a: seq<ChunkData>, b: seq<ChunkData>)
    ensures SeriesDates(a + b) == SeriesDates(a) + SeriesDates(b)
    ensures SeriesValues(a + b) == SeriesValues(a) + SeriesValues(b)
    ensures MonthsNames(a + b) == MonthsNames(a) + MonthsNames(b)
    ensures NonEmptyChunks(a + b) == NonEmptyChunks(a) + NonEmptyChunks(b)
  {
    ConcatenationDates(a, b);
    ConcatenationValues(a, b);
    ConcatenationNames(a, b);
    ConcatenationChunks(a, b);
  }

  lemma {:induction false} ConcatenationDates(a: seq<ChunkData>, b: seq<ChunkData>)
    ensures SeriesDates(a + b) == SeriesDates(a) + SeriesDates(b)
    decreases |b|
  {
    if b == [] {
      assert a + b == a;
    } else {
      var init, e := b[..|b| - 1], b[|b| - 1];
      var t: seq<Date> := if |e.0| > 0 then e.0 else [];
      assert (a + b)[..|a + b| - 1] == a + init;
      assert (a + b)[|a + b| - 1] == e;
      assert SeriesDates(a + b) == SeriesDates(a + init) + t;
      assert SeriesDates(b) == SeriesDates(init) + t;
      ConcatenationDates(a, init);
      assert (SeriesDates(a) + SeriesDates(init)) + t == SeriesDates(a) + (SeriesDates(init) + t);
    }
  }


  lemma {:induction false} ConcatenationValues(a: seq<ChunkData>, b: seq<ChunkData>)
    ensures SeriesValues(a + b) == SeriesValues(a) + SeriesValues(b)
    decreases |b|
  {
    if b == [] {
      assert a + b == a;
    } else {
      var init, e := b[..|b| - 1], b[|b| - 1];
      var t: seq<real> := if |e.0| > 0 then e.1 else [];
      assert (a + b)[..|a + b| - 1] == a + init;
      assert (a + b)[|a + b| - 1] == e;
      assert SeriesValues(a + b) == SeriesValues(a + init) + t;
      assert SeriesValues(b) == SeriesValues(init) + t;
      ConcatenationValues(a, init);
      assert (SeriesValues(a) + SeriesValues(init)) + t == SeriesValues(a) + (SeriesValues(init) + t);
    }
  }


  lemma {:induction false} ConcatenationNames(a: seq<ChunkData>, b: seq<ChunkData>)
    ensures MonthsNames(a + b) == MonthsNames(a) + MonthsNames(b)
    decreases |b|
  {
    if b == [] {
      assert a + b == a;
    } else {
      var init, e := b[..|b| - 1], b[|b| - 1];
      var t: seq<Date> := if |e.0| > 0 then [e.0[0]] else [];
      assert (a + b)[..|a + b| - 1] == a + init;
      assert (a + b)[|a + b| - 1] == e;
      assert MonthsNames(a + b) == MonthsNames(a + init) + t;
      assert MonthsNames(b) == MonthsNames(init) + t;
      ConcatenationNames(a, init);
      assert (MonthsNames(a) + MonthsNames(init)) + t == MonthsNames(a) + (MonthsNames(init) + t);
    }
  }


  lemma {:induction false} ConcatenationChunks(a: seq<ChunkData>, b: seq<ChunkData>)
    ensures NonEmptyChunks(a + b) == NonEmptyChunks(a) + NonEmptyChunks(b)
    decreases |b|
  {
    if b == [] {
      assert a + b == a;
    } else {
      var init, e := b[..|b| - 1], b[|b| - 1];
      var t: seq<ChunkData> := if |e.0| > 0 then [e] else [];
      assert (a + b)[..|a + b| - 1] == a + init;
      assert (a + b)[|a + b| - 1] == e;
      assert NonEmptyChunks(a + b) == NonEmptyChunks(a + init) + t;
      assert NonEmptyChunks(b) == NonEmptyChunks(init) + t;
      ConcatenationChunks(a, init);
      assert (NonEmptyChunks(a) + NonEmptyChunks(init)) + t == NonEmptyChunks(a) + (NonEmptyChunks(init) + t);
    }
  }


  /** Gap tolerance: a chunk whose fetch failed changes none of the views. */
  lemma SeriesSkipsEmptyChunk(a: seq<ChunkData>, b: seq<ChunkData>)
    ensures SeriesDates(a + [([], [])] + b) == SeriesDates(a + b)
    ensures SeriesValues(a + [([], [])] + b) == SeriesValues(a + b)
    ensures MonthsNames(a + [([], [])] + b) == MonthsNames(a + b)
    ensures NonEmptyChunks(a + [([], [])] + b) == NonEmptyChunks(a + b)
  {
    var gap: seq<ChunkData> := [([], [])];
    SeriesOfConcatenation(a + gap, b);
    SeriesOfConcatenation(a, gap);
    SeriesOfConcatenation(a, b);
    assert gap[..0] == [];
  }

  // ---------------------------------------------------------------- last five quotes

  /** Python's s[i]: a negative index counts from the end; None is an IndexError. */
  function PyIndex<T>(s: seq<T>, i: int): Option<T> {
    if 0 <= i < |s| then Some(s[i])
    else if -|s| <= i < 0 then Some(s[|s| + i])
    else None
  }

  /** [s[i] for i in range(lo, hi)] in Python; None at the first IndexError. */
  function PyGather<T>(s: seq<T>, lo: int, hi: int): Option<seq<T>>
    decreases hi - lo
  {
    if lo >= hi then Some([])
    else match PyIndex(s, lo)
      case None => None
      case Some(x) =>
        match PyGather(s, lo + 1, hi)
        case None => None
        case Some(rest) => Some([x] + rest)
  }

  lemma {:induction false} PyGatherSpec<T>(s: seq<T>, lo: int, hi: int)
    requires lo < hi
    ensures PyGather(s, lo, hi).Some? <==> -|s| <= lo && hi <= |s|
    ensures PyGather(s, lo, hi).Some? ==>
              var r := PyGather(s, lo, hi).value;
              |r| == hi - lo &&
              forall k :: 0 <= k < hi - lo ==> r[k] == (if lo + k >= 0 then s[lo + k] else s[|s| + lo + k])
    decreases hi - lo
  {
    if lo + 1 < hi {
      PyGatherSpec(s, lo + 1, hi);
      if PyGather(s, lo, hi).Some? {
        var r := PyGather(s, lo, hi).value;
        var rest := PyGather(s, lo + 1, hi).value;
        assert r == [r[0]] + rest;
        forall k | 1 <= k < hi - lo
          ensures r[k] == (if lo + k >= 0 then s[lo + k] else s[|s| + lo + k])
        {
          assert r[k] == rest[k - 1];
        }
      }
    }
  }

  /** The last-five slice exactly as prepareDataForReport writes it:
      `for i in range(len(valuesList) - 5, len(valuesList))`. */
  function LastFiveAsWritten<T>(s: seq<T>): (r: Option<seq<T>>)
    ensures r.Some? <==> |s| >= 3
    ensures r.Some? ==> |r.value| == 5
    ensures r.Some? ==> forall k :: 0 <= k < 5 ==>
              r.value[k] == (if |s| - 5 + k >= 0 then s[|s| - 5 + k] else s[2 * |s| - 5 + k])
  {
    PyGatherSpec(s, |s| - 5, |s|);
    PyGather(s, |s| - 5, |s|)
  }

  /** The slice the report needs: the last five quotes, or all of them when there are
      fewer than five. */
  function LastFive<T>(s: seq<T>): seq<T> {
    s[|s| - (if |s| < 5 then |s| else 5)..]
  }

  /** With at least five quotes the slice as written is the last five, in order. */
  lemma LastFiveAsWrittenIsLastFive<T>(s: seq<T>)
    requires |s| >= 5
    ensures LastFiveAsWritten(s) == Some(LastFive(s))
    ensures |LastFive(s)| == 5 && forall k :: 0 <= k < 5 ==> LastFive(s)[k] == s[|s| - 5 + k]
  {
    var r := LastFiveAsWritten(s).value;
    assert r == LastFive(s);
  }

  /** With four quotes the slice as written repeats the last one first, and with two
      it raises an IndexError, where the intended result keeps them in order. */
  lemma LastFiveAsWrittenWrapsAround()
    ensures LastFiveAsWritten([1.0, 2.0, 3.0, 4.0]) == Some([4.0, 1.0, 2.0, 3.0, 4.0])
    ensures LastFive([1.0, 2.0, 3.0, 4.0]) == [1.0, 2.0, 3.0, 4.0]
    ensures LastFiveAsWritten([1.0, 2.0]) == None
    ensures LastFive([1.0, 2.0]) == [1.0, 2.0]
  {
    var s := [1.0, 2.0, 3.0, 4.0];
    var r := LastFiveAsWritten(s).value;
    assert r[0] == 4.0 && r[1] == 1.0 && r[2] == 2.0 && r[3] == 3.0 && r[4] == 4.0;
    assert r == [4.0, 1.0, 2.0, 3.0, 4.0];
    assert s[0..] == s;
    assert [1.0, 2.0][0..] == [1.0, 2.0];
  }

  /** The last-five loop, started no earlier than the first quote. */
  method TakeLastFive(valuesList: seq<real>, datesList: seq<Date>)
    returns (lastFiveValues: seq<real>, lastFiveDates: seq<Date>)
    requires |valuesList| == |datesList|
    ensures lastFiveValues == LastFive(valuesList) && lastFiveDates == LastFive(datesList)
    ensures |lastFiveValues| == (if |valuesList| < 5 then |valuesList| else 5)
  {
    lastFiveValues, lastFiveDates := [], [];
    var first := if |valuesList| < 5 then 0 else |valuesList| - 5;
    for i := first to |valuesList|
      invariant lastFiveValues == valuesList[first..i] && lastFiveDates == datesList[first..i]
    {
      lastFiveValues := lastFiveValues + [valuesList[i]];
      lastFiveDates := lastFiveDates + [datesList[i]];
    }
  }

  // ---------------------------------------------------------------- visible window

  /** The first candidate day on or after c that the series holds. */
  function FirstPresent(dates: seq<Date>, c: Date, last: Date): (r: Date)
    requires last in dates && Le(c, last)
    ensures r in dates && Le(c, r)
    ensures forall x :: x in dates && Le(c, x) ==> Le(r, x)
    decreases DayNumber(last) - DayNumber(c)
  {
    if c in dates then c
    else
      OrderByDayNumber(c, last);
      AfterNextDay(c);
      OrderByDayNumber(NextDay(c), FirstPresent(dates, NextDay(c), last));
      FirstPresent(dates, NextDay(c), last)
  }

  /** The index the scan `for i in range(0, len(datesList))` keeps: the last one
      holding x. */
  function LastIndexOf(dates: seq<Date>, x: Date): (i: nat)
    requires x in dates
    ensures i < |dates| && dates[i] == x
    ensures forall j :: i < j < |dates| ==> dates[j] != x
  {
    if dates[|dates| - 1] == x then |dates| - 1 else LastIndexOf(dates[..|dates| - 1], x)
  }

  /** The window the report shows: when the begin date is not after the last quote,
      the quotes from the first day on or after it that has a quote; otherwise none.
      An empty series gives an empty window. */
  function VisibleWindow(dates: seq<Date>, values: seq<real>, begin: Date): (w: (seq<Date>, seq<real>))
    requires |values| == |dates|
    ensures |w.0| == |w.1|
    ensures |dates| == 0 || !Le(begin, dates[|dates| - 1]) ==> w == ([], [])
  {
    if |dates| == 0 || !Le(begin, dates[|dates| - 1]) then ([], [])
    else
      var i := LastIndexOf(dates, FirstPresent(dates, begin, dates[|dates| - 1]));
      (dates[i..], values[i..])
  }

  /** One pass of the scan in getImportantData: whether the candidate day is in the
      series, and the last index holding it (idx is left as it was otherwise). */
  method ScanForDate(datesList: seq<Date>, candidate: Date, idx0: int) returns (found: bool, idx: int)
    ensures found <==> candidate in datesList
    ensures found ==> candidate in datesList && idx == LastIndexOf(datesList, candidate)
    ensures !found ==> idx == idx0
  {
    found, idx := false, idx0;
    for i := 0 to |datesList|
      invariant found <==> candidate in datesList[..i]
      invariant !found ==> idx == idx0
      invariant found ==>
                  0 <= idx < i && datesList[idx] == candidate &&
                  forall j :: idx < j < i ==> datesList[j] != candidate
    {
      if datesList[i] == candidate {
        idx := i;
        found := true;
      }
    }
    assert datesList[..|datesList|] == datesList;
    if found {
      var expected := LastIndexOf(datesList, candidate);
      assert idx == expected;
    }
  }

  /** The search loop of getImportantData: from the begin date on, day by day, until a
      day the series holds; the index kept is the last one holding that day. */
  method FindStart(datesList: seq<Date>, beginDate: Date) returns (idx: int)
    requires |datesList| > 0 && Le(beginDate, datesList[|datesList| - 1])
    ensures idx == LastIndexOf(datesList, FirstPresent(datesList, beginDate, datesList[|datesList| - 1]))
  {
    idx := 0;
    var isNotFound := true;
    var last := datesList[|datesList| - 1];
    var candidate := beginDate;
    ghost var target := FirstPresent(datesList, beginDate, last);
    while isNotFound
      invariant isNotFound ==> Le(candidate, last) && FirstPresent(datesList, candidate, last) == target
      invariant !isNotFound ==> idx == LastIndexOf(datesList, target)
      decreases if isNotFound then DayNumber(last) - DayNumber(candidate) + 1 else 0
    {
      OrderByDayNumber(candidate, last);
      var found;
      found, idx := ScanForDate(datesList, candidate, idx);
      isNotFound := !found;
      if isNotFound {
        OrderByDayNumber(NextDay(candidate), last);
      }
      candidate := NextDay(candidate);
    }
  }

  /** The copying loop of getImportantData: the quotes from index idx to the end. */
  method CopySuffix(valuesList: seq<real>, datesList: seq<Date>, idx: int)
    returns (importantDates: seq<Date>, importantValues: seq<real>)
    requires 0 <= idx <= |datesList| == |valuesList|
    ensures importantDates == datesList[idx..] && importantValues == valuesList[idx..]
  {
    importantValues, importantDates := [], [];
    for i := idx to |datesList|
      invariant importantValues == valuesList[idx..i] && importantDates == datesList[idx..i]
    {
      importantValues := importantValues + [valuesList[i]];
      importantDates := importantDates + [datesList[i]];
    }
  }

  /** getImportantData as written: it reads datesList[len(datesList) - 1], so it needs
      a series with at least one date. */
  method GetImportantData(valuesList: seq<real>, datesList: seq<Date>, beginDate: Date)
    returns (importantDates: seq<Date>, importantValues: seq<real>)
    requires |datesList| > 0 && |valuesList| == |datesList|
    ensures (importantDates, importantValues) == VisibleWindow(datesList, valuesList, beginDate)
  {
    importantValues, importantDates := [], [];
    var last := datesList[|datesList| - 1];
    OrderByDayNumber(beginDate, last);
    if DaysBetween(last, beginDate) <= 0 {
      var idx := FindStart(datesList, beginDate);
      importantDates, importantValues := CopySuffix(valuesList, datesList, idx);
    }
  }

  /** datesList[len(datesList) - 1] on an empty series is an IndexError, where the
      intended window is empty. */
  lemma EmptySeriesHasNoLastDate(dates: seq<Date>, values: seq<real>, begin: Date)
    requires |dates| == 0 && |values| == 0
    ensures PyIndex(dates, |dates| - 1).None?
    ensures VisibleWindow(dates, values, begin) == ([], [])
  {
  }

  predicate StrictlyIncreasing(dates: seq<Date>) {
    forall i, j :: 0 <= i < j < |dates| ==> DayNumber(dates[i]) < DayNumber(dates[j])
  }

  /** On a chronological series the window is the suffix from the first quote on or
      after the begin date: every earlier quote is before it, every shown quote is on
      or after it, values stay aligned with their dates, and the window ends where
      the series ends. */
  lemma VisibleWindowOfIncreasing(dates: seq<Date>, values: seq<real>, begin: Date)
    requires |values| == |dates| && StrictlyIncreasing(dates)
    requires |dates| > 0 && Le(begin, dates[|dates| - 1])
    ensures var w := VisibleWindow(dates, values, begin);
            var k := |dates| - |w.0|;
            0 <= k < |dates| &&
            w.0 == dates[k..] && w.1 == values[k..] &&
            (forall j :: 0 <= j < k ==> DayNumber(dates[j]) < DayNumber(begin)) &&
            (forall j :: 0 <= j < |w.0| ==> DayNumber(begin) <= DayNumber(w.0[j])) &&
            w.0[|w.0| - 1] == dates[|dates| - 1]
  {
    var last := dates[|dates| - 1];
    var target := FirstPresent(dates, begin, last);
    var k := LastIndexOf(dates, target);
    OrderByDayNumber(begin, target);
    forall j | 0 <= j < k
      ensures DayNumber(dates[j]) < DayNumber(begin)
    {
      OrderByDayNumber(begin, dates[j]);
      if Le(begin, dates[j]) {
        OrderByDayNumber(target, dates[j]);
      }
    }
  }

  // ---------------------------------------------------------------- chronology

  /** The first and the last day a query asks for. */
  function QueryFirst(q: Query): Date {
    match q
    case DayQuery(_, day) => day
    case PeriodQuery(_, first, _) => first
  }

  function QueryLast(q: Query): Date {
    match q
    case DayQuery(_, day) => day
    case PeriodQuery(_, _, last) => last
  }

  /** An answer in chronological order, inside the days the query asks for. */
  ghost predicate Answers(q: Query, points: seq<Quote>) {
    (forall i, j :: 0 <= i < j < |points| ==> DayNumber(points[i].date) < DayNumber(points[j].date)) &&
    (forall i :: 0 <= i < |points| ==>
       DayNumber(QueryFirst(q)) <= DayNumber(points[i].date) <= DayNumber(QueryLast(q)))
  }

  /** A quote source whose every answer is chronological and inside its query. */
  ghost predicate Chronological(fetch: QuoteSource) {
    forall q :: fetch(q).Some? ==> Answers(q, fetch(q).value)
  }

  /** The dates of a chunk increase and lie inside its range. */
  ghost predicate ChunkWithin(data: ChunkData, r: Range) {
    StrictlyIncreasing(data.0) &&
    forall i :: 0 <= i < |data.0| ==> DayNumber(r.begin) <= DayNumber(data.0[i]) <= DayNumber(r.end)
  }

  /** Ranges that are each non-empty and each end before every later one begins. */
  ghost predicate Ordered(ranges: seq<Range>) {
    (forall k :: 0 <= k < |ranges| ==> DayNumber(ranges[k].begin) <= DayNumber(ranges[k].end)) &&
    (forall j, k :: 0 <= j < k < |ranges| ==> DayNumber(ranges[j].end) < DayNumber(ranges[k].begin))
  }

  /** A chronological source answers every chunk inside that chunk. */
  lemma ChunkOfChronological(letter: string, code: string, r: Range, fetch: QuoteSource)
    requires Chronological(fetch) && DayNumber(r.begin) <= DayNumber(r.end)
    ensures ChunkWithin(FetchedChunk(letter, code, r.begin, r.end, fetch), r)
  {
    var q := QueryFor(letter, code, r.begin, r.end);
    if fetch(q).Some? {
      assert Answers(q, fetch(q).value);
    }
  }

  /** Chunks fetched for ordered ranges, each inside its range, assemble into a
      strictly increasing series inside the first range's begin and the last one's end. */
  lemma {:induction false} SeriesIncreasing(lista: seq<ChunkData>, ranges: seq<Range>)
    requires |lista| == |ranges| && Ordered(ranges)
    requires forall k :: 0 <= k < |lista| ==> ChunkWithin(lista[k], ranges[k])
    ensures StrictlyIncreasing(SeriesDates(lista))
    ensures |lista| > 0 ==>
              forall i :: 0 <= i < |SeriesDates(lista)| ==>
                DayNumber(ranges[0].begin) <= DayNumber(SeriesDates(lista)[i]) <= DayNumber(ranges[|ranges| - 1].end)
  {
    if lista != [] {
      var n := |lista|;
      var init, front := lista[..n - 1], ranges[..n - 1];
      OrderedPrefix(lista, ranges, init, front);
      SeriesIncreasing(init, front);
      SeriesIncreasingStep(lista, ranges, SeriesDates(init));
    }
  }

  /** A strictly increasing series of dates, all between lo and hi. */
  ghost predicate IncreasingWithin(dates: seq<Date>, lo: Date, hi: Date) {
    StrictlyIncreasing(dates) &&
    forall i :: 0 <= i < |dates| ==> DayNumber(lo) <= DayNumber(dates[i]) <= DayNumber(hi)
  }

  /** The series of chunks fetched inside ordered ranges from lo to hi is increasing
      and lies between lo and hi. */
  lemma FetchedSeriesWithin(lista: seq<ChunkData>, ranges: seq<Range>, lo: Date, hi: Date)
    requires |lista| == |ranges| > 0 && Ordered(ranges)
    requires forall k :: 0 <= k < |lista| ==> ChunkWithin(lista[k], ranges[k])
    requires ranges[0].begin == lo && ranges[|ranges| - 1].end == hi
    ensures IncreasingWithin(SeriesDates(lista), lo, hi)
  {
    SeriesIncreasing(lista, ranges);
  }

  lemma OrderedPrefix(lista: seq<ChunkData>, ranges: seq<Range>, init: seq<ChunkData>, front: seq<Range>)
    requires |lista| == |ranges| > 0 && Ordered(ranges)
    requires forall k :: 0 <= k < |lista| ==> ChunkWithin(lista[k], ranges[k])
    requires init == lista[..|lista| - 1] && front == ranges[..|ranges| - 1]
    ensures Ordered(front)
    ensures forall k :: 0 <= k < |init| ==> ChunkWithin(init[k], front[k])
    ensures |front| > 0 ==> front[0] == ranges[0] && front[|front| - 1] == ranges[|ranges| - 2]
  {
    assert forall k :: 0 <= k < |front| ==> front[k] == ranges[k];
  }

  /** The step of SeriesIncreasing: the last chunk extends the series of the others. */
  lemma SeriesIncreasingStep(lista: seq<ChunkData>, ranges: seq<Range>, a: seq<Date>)
    requires |lista| == |ranges| > 0 && Ordered(ranges)
    requires ChunkWithin(lista[|lista| - 1], ranges[|ranges| - 1])
    requires a == SeriesDates(lista[..|lista| - 1]) && StrictlyIncreasing(a)
    requires |lista| > 1 ==>
               forall i :: 0 <= i < |a| ==> DayNumber(ranges[0].begin) <= DayNumber(a[i]) <= DayNumber(ranges[|ranges| - 2].end)
    ensures StrictlyIncreasing(SeriesDates(lista))
    ensures forall i :: 0 <= i < |SeriesDates(lista)| ==>
              DayNumber(ranges[0].begin) <= DayNumber(SeriesDates(lista)[i]) <= DayNumber(ranges[|ranges| - 1].end)
  {
    var n := |lista|;
    var b := lista[n - 1].0;
    SeriesDatesLast(lista, a);
    OrderedLast(ranges);
    var lo, mid, hi := DayNumber(ranges[0].begin), DayNumber(ranges[n - 1].begin), DayNumber(ranges[n - 1].end);
    if n == 1 {
      assert a == [];
      JoinWithin(a, b, lo, mid - 1, mid, hi);
    } else {
      JoinWithin(a, b, lo, DayNumber(ranges[n - 2].end), mid, hi);
    }
  }

  /** The series of a run of chunks is the series of all but the last, then the last
      chunk's dates. */
  lemma SeriesDatesLast(lista: seq<ChunkData>, a: seq<Date>)
    requires |lista| > 0 && a == SeriesDates(lista[..|lista| - 1])
    ensures SeriesDates(lista) == a + lista[|lista| - 1].0
    ensures |lista| == 1 ==> a == []
  {
    if |lista| == 1 {
      assert lista[..0] == [];
    }
  }

  /** The first range begins no later than the last one, which is non-empty and begins
      after the one before it ends. */
  lemma OrderedLast(ranges: seq<Range>)
    requires |ranges| > 0 && Ordered(ranges)
    ensures var n := |ranges|;
            DayNumber(ranges[0].begin) <= DayNumber(ranges[n - 1].begin) <= DayNumber(ranges[n - 1].end) &&
            (n > 1 ==> DayNumber(ranges[n - 2].end) < DayNumber(ranges[n - 1].begin))
  {
    var n := |ranges|;
    assert DayNumber(ranges[n - 1].begin) <= DayNumber(ranges[n - 1].end);
    if n > 1 {
      assert DayNumber(ranges[0].begin) <= DayNumber(ranges[0].end) < DayNumber(ranges[n - 1].begin);
      assert DayNumber(ranges[n - 2].end) < DayNumber(ranges[n - 1].begin);
    }
  }

  /** An increasing run below `mid` followed by an increasing run from `mid` on is
      increasing, and lies between the first one's lower and the second one's upper bound. */
  lemma JoinWithin(a: seq<Date>, b: seq<Date>, lo: int, top: int, mid: int, hi: int)
    requires StrictlyIncreasing(a) && StrictlyIncreasing(b)
    requires forall i :: 0 <= i < |a| ==> lo <= DayNumber(a[i]) <= top
    requires forall i :: 0 <= i < |b| ==> mid <= DayNumber(b[i]) <= hi
    requires top < mid && lo <= mid <= hi
    ensures StrictlyIncreasing(a + b)
    ensures forall i :: 0 <= i < |a + b| ==> lo <= DayNumber((a + b)[i]) <= hi
  {
    JoinIncreasing(a, b, mid);
    JoinBounds(a, b, lo, hi);
  }

  lemma JoinIncreasing(a: seq<Date>, b: seq<Date>, pivot: int)
    requires StrictlyIncreasing(a) && StrictlyIncreasing(b)
    requires forall i :: 0 <= i < |a| ==> DayNumber(a[i]) < pivot
    requires forall i :: 0 <= i < |b| ==> pivot <= DayNumber(b[i])
    ensures StrictlyIncreasing(a + b)
  {
    var s := a + b;
    forall i, j | 0 <= i < j < |s|
      ensures DayNumber(s[i]) < DayNumber(s[j])
    {
      if j < |a| {
        assert s[i] == a[i] && s[j] == a[j];
      } else if i >= |a| {
        assert s[i] == b[i - |a|] && s[j] == b[j - |a|];
      } else {
        assert s[i] == a[i] && s[j] == b[j - |a|];
      }
    }
  }

  lemma JoinBounds(a: seq<Date>, b: seq<Date>, lo: int, hi: int)
    requires forall i :: 0 <= i < |a| ==> lo <= DayNumber(a[i]) <= hi
    requires forall i :: 0 <= i < |b| ==> lo <= DayNumber(b[i]) <= hi
    ensures forall i :: 0 <= i < |a + b| ==> lo <= DayNumber((a + b)[i]) <= hi
  {
    var s := a + b;
    forall i | 0 <= i < |s|
      ensures lo <= DayNumber(s[i]) <= hi
    {
      if i < |a| {
        assert s[i] == a[i];
      } else {
        assert s[i] == b[i - |a|];
      }
    }
  }

  /** Chunks without quotes assemble into an empty series with no monthly figures. */
  lemma {:induction false} NoQuotesNoSeries(lista: seq<ChunkData>)
    requires Parallel(lista)
    requires forall k :: 0 <= k < |lista| ==> |lista[k].0| == 0
    ensures SeriesDates(lista) == [] && SeriesValues(lista) == []
    ensures MonthsMeans(lista) == [] && MonthsNames(lista) == []
  {
    if lista != [] {
      var init := lista[..|lista| - 1];
      assert forall k :: 0 <= k < |init| ==> init[k] == lista[k];
      NoQuotesNoSeries(init);
    }
  }

  /** On a strictly increasing series that ends by `hi` the window is in order, lies
      between the begin date and `hi`, and holds every quote of the series on or after
      the begin date. */
  lemma WindowOfChronologicalSeries(dates: seq<Date>, values: seq<real>, begin: Date, hi: Date)
    requires |values| == |dates| && StrictlyIncreasing(dates)
    requires forall i :: 0 <= i < |dates| ==> DayNumber(dates[i]) <= DayNumber(hi)
    ensures var w := VisibleWindow(dates, values, begin);
            StrictlyIncreasing(w.0) &&
            (forall i :: 0 <= i < |w.0| ==> DayNumber(begin) <= DayNumber(w.0[i]) <= DayNumber(hi)) &&
            (forall x :: x in dates && DayNumber(begin) <= DayNumber(x) ==> x in w.0)
  {
    var w := VisibleWindow(dates, values, begin);
    if |dates| > 0 && Le(begin, dates[|dates| - 1]) {
      VisibleWindowOfIncreasing(dates, values, begin);
      SuffixWindow(dates, begin, hi, |dates| - |w.0|, w.0);
    } else if |dates| > 0 {
      OrderByDayNumber(begin, dates[|dates| - 1]);
      NothingAfterLast(dates, begin);
    }
  }

  /** A suffix of an increasing series, all of whose earlier quotes are before the
      begin date and whose own quotes are on or after it. */
  lemma SuffixWindow(dates: seq<Date>, begin: Date, hi: Date, k: int, w: seq<Date>)
    requires StrictlyIncreasing(dates) && 0 <= k <= |dates| && w == dates[k..]
    requires forall i :: 0 <= i < |dates| ==> DayNumber(dates[i]) <= DayNumber(hi)
    requires forall j :: 0 <= j < k ==> DayNumber(dates[j]) < DayNumber(begin)
    requires forall j :: 0 <= j < |w| ==> DayNumber(begin) <= DayNumber(w[j])
    ensures StrictlyIncreasing(w)
    ensures forall i :: 0 <= i < |w| ==> DayNumber(begin) <= DayNumber(w[i]) <= DayNumber(hi)
    ensures forall x :: x in dates && DayNumber(begin) <= DayNumber(x) ==> x in w
  {
    forall i, j | 0 <= i < j < |w|
      ensures DayNumber(w[i]) < DayNumber(w[j])
    {
      assert w[i] == dates[k + i] && w[j] == dates[k + j];
    }
    forall i | 0 <= i < |w|
      ensures DayNumber(w[i]) <= DayNumber(hi)
    {
      assert w[i] == dates[k + i];
    }
    forall x | x in dates && DayNumber(begin) <= DayNumber(x)
      ensures x in w
    {
      var i :| 0 <= i < |dates| && dates[i] == x;
      assert w[i - k] == x;
    }
  }

  /** Nothing of an increasing series is on or after a day past its last quote. */
  lemma NothingAfterLast(dates: seq<Date>, begin: Date)
    requires StrictlyIncreasing(dates) && |dates| > 0
    requires DayNumber(dates[|dates| - 1]) < DayNumber(begin)
    ensures forall x :: x in dates ==> DayNumber(x) < DayNumber(begin)
  {
    forall x | x in dates
      ensures DayNumber(x) < DayNumber(begin)
    {
      var i :| 0 <= i < |dates| && dates[i] == x;
      assert i == |dates| - 1 || DayNumber(dates[i]) < DayNumber(dates[|dates| - 1]);
    }
  }
}
