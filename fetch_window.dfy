/** The fetch window of a report: the requested period is widened to at least 155 days
    (longer periods are rounded up to a multiple of 5 days) and cut into month chunks,
    each fetched from the quote source separately. */
module FetchWindow {
  import opened Calendar

  /** A period of days, both ends included. */
  datatype Range = Range(begin: Date, end: Date)

  /** Shortest fetch window, in days. */
  const MinimumSpan := 155

  /** The smallest multiple of 5 that is at least n. */
  function MultipleOfFiveAtLeast(n: int): (r: int)
    ensures r % 5 == 0 && n <= r < n + 5
  {
    n + (5 - n % 5) % 5
  }

  /** The only multiple of 5 in [n, n + 5) is the one MultipleOfFiveAtLeast gives. */
  lemma MultipleOfFiveUnique(n: int, a: int)
    requires a % 5 == 0 && n <= a < n + 5
    ensures a == MultipleOfFiveAtLeast(n)
  {
    var m := MultipleOfFiveAtLeast(n);
    assert a == 5 * (a / 5) && m == 5 * (m / 5);
  }

  /** The first day of the fetch window ending at endDate. */
  function FetchStart(beginDate: Date, endDate: Date): (start: Date)
    ensures DaysBetween(beginDate, endDate) <= MinimumSpan ==>
              DaysBetween(start, endDate) == MinimumSpan
    ensures DaysBetween(beginDate, endDate) > MinimumSpan ==>
              DaysBetween(start, endDate) % 5 == 0 &&
              DaysBetween(beginDate, endDate) <= DaysBetween(start, endDate) < DaysBetween(beginDate, endDate) + 5
    ensures DayNumber(start) <= DayNumber(beginDate) && DayNumber(start) < DayNumber(endDate)
  {
    var span := DaysBetween(beginDate, endDate);
    if span <= MinimumSpan then AddDays(endDate, -MinimumSpan)
    else AddDays(endDate, -MultipleOfFiveAtLeast(span))
  }

  /** The window expansion of prepareDataForReport, with its round-up loop. */
  method ExpandWindow(beginDate: Date, endDate: Date) returns (tempBegin: Date)
    ensures tempBegin == FetchStart(beginDate, endDate)
  {
    var dateDiff := DaysBetween(beginDate, endDate);
    if dateDiff <= MinimumSpan {
      tempBegin := AddDays(endDate, -MinimumSpan);
    } else {
      var tempVal := dateDiff;
      while tempVal % 5 != 0
        invariant dateDiff <= tempVal <= MultipleOfFiveAtLeast(dateDiff)
        decreases MultipleOfFiveAtLeast(dateDiff) - tempVal
      {
        tempVal := tempVal + 1;
      }
      MultipleOfFiveUnique(dateDiff, tempVal);
      tempBegin := AddDays(endDate, -tempVal);
    }
  }

  /** The chunks of [start, end]: whole months from start's month on, the first one
      starting at start and the last one cut at end. */
  function MonthChunks(start: Date, end: Date): (chunks: seq<Range>)
    requires Le(start, end)
    decreases MonthIndex(end) - MonthIndex(start)
  {
    MonthIndexOrder(start, end);
    if SameMonth(start, end) then [Range(start, end)]
    else
      var monthEnd := GetEndOfTheMonth(start);
      MonthIndexOrder(NextDay(monthEnd), end);
      [Range(start, monthEnd)] + MonthChunks(NextDay(monthEnd), end)
  }

  /** What the partition promises: one chunk per calendar month from start's to end's,
      each inside its month, contiguous, every chunk but the last ending on its month's
      last day, the first starting at start and the last ending at end. */
  ghost predicate IsMonthPartition(chunks: seq<Range>, start: Date, end: Date) {
    |chunks| >= 1 &&
    |chunks| == MonthIndex(end) - MonthIndex(start) + 1 &&
    chunks[0].begin == start &&
    chunks[|chunks| - 1].end == end &&
    MonthByMonth(chunks, start) &&
    Contiguous(chunks)
  }

  /** Chunk i lies inside the i-th month from start's, and all but the last run to the
      end of their month. */
  ghost predicate MonthByMonth(chunks: seq<Range>, start: Date) {
    InMonths(chunks, start) && ToMonthEnds(chunks)
  }

  ghost predicate InMonths(chunks: seq<Range>, start: Date) {
    forall i :: 0 <= i < |chunks| ==>
      Le(chunks[i].begin, chunks[i].end) &&
      SameMonth(chunks[i].begin, chunks[i].end) &&
      MonthIndex(chunks[i].begin) == MonthIndex(start) + i
  }

  ghost predicate ToMonthEnds(chunks: seq<Range>) {
    forall i :: 0 <= i < |chunks| - 1 ==> chunks[i].end == GetEndOfTheMonth(chunks[i].begin)
  }

  /** Each chunk starts the day after the previous one ends. */
  ghost predicate Contiguous(chunks: seq<Range>) {
    forall i :: 0 < i < |chunks| ==> chunks[i].begin == NextDay(chunks[i - 1].end)
  }

  lemma {:induction false} MonthChunksArePartition(start: Date, end: Date)
    requires Le(start, end)
    ensures IsMonthPartition(MonthChunks(start, end), start, end)
    decreases MonthIndex(end) - MonthIndex(start)
  {
    MonthIndexOrder(start, end);
    if !SameMonth(start, end) {
      MonthChunksStep(start, end);
      var first := Range(start, GetEndOfTheMonth(start));
      var next := NextDay(first.end);
      MonthChunksArePartition(next, end);
      PartitionCons(first, MonthChunks(next, end), end);
    }
  }

  /** Start's month chunk followed by a partition from the next month's first day is a
      partition from start. */
  lemma PartitionCons(first: Range, rest: seq<Range>, end: Date)
    requires first.end == GetEndOfTheMonth(first.begin)
    requires IsMonthPartition(rest, NextDay(first.end), end)
    ensures IsMonthPartition([first] + rest, first.begin, end)
  {
    ConsInMonths(first.begin, rest);
    ConsToMonthEnds(first, rest);
    ConsContiguous(first, rest);
  }

  lemma ConsInMonths(start: Date, rest: seq<Range>)
    requires InMonths(rest, NextDay(GetEndOfTheMonth(start)))
    ensures InMonths([Range(start, GetEndOfTheMonth(start))] + rest, start)
  {
    var chunks := [Range(start, GetEndOfTheMonth(start))] + rest;
    assert chunks[0] == Range(start, GetEndOfTheMonth(start));
    forall i | 0 < i < |chunks|
      ensures Le(chunks[i].begin, chunks[i].end)
      ensures SameMonth(chunks[i].begin, chunks[i].end)
      ensures MonthIndex(chunks[i].begin) == MonthIndex(start) + i
    {
      assert chunks[i] == rest[i - 1];
    }
  }

  lemma ConsToMonthEnds(first: Range, rest: seq<Range>)
    requires first.end == GetEndOfTheMonth(first.begin)
    requires ToMonthEnds(rest)
    ensures ToMonthEnds([first] + rest)
  {
    var chunks := [first] + rest;
    forall i | 0 < i < |chunks| - 1
      ensures chunks[i].end == GetEndOfTheMonth(chunks[i].begin)
    {
      assert chunks[i] == rest[i - 1];
    }
  }

  /** A chunk followed by contiguous chunks starting the day after it is contiguous. */
  lemma ConsContiguous(first: Range, rest: seq<Range>)
    requires |rest| >= 1 && rest[0].begin == NextDay(first.end)
    requires Contiguous(rest)
    ensures Contiguous([first] + rest)
  {
    var chunks := [first] + rest;
    forall i | 1 < i < |chunks|
      ensures chunks[i].begin == NextDay(chunks[i - 1].end)
    {
      assert chunks[i] == rest[i - 1] && chunks[i - 1] == rest[i - 2];
    }
  }

  /** The number of chunks is the source's month count, or one when the window lies
      within a single month. */
  lemma ChunkCount(start: Date, end: Date)
    requires Le(start, end)
    ensures |MonthChunks(start, end)| ==
              (if CalculateNumberOfMonths(start, end) == 0 then 1 else CalculateNumberOfMonths(start, end))
  {
    MonthChunksArePartition(start, end);
    MonthIndexOrder(start, end);
  }

  /** One step of the chunking: a window spanning several months starts with its first
      month's chunk. */
  lemma MonthChunksStep(begin: Date, end: Date)
    requires Le(begin, end) && MonthIndex(begin) < MonthIndex(end)
    ensures Le(NextDay(GetEndOfTheMonth(begin)), end)
    ensures MonthIndex(NextDay(GetEndOfTheMonth(begin))) == MonthIndex(begin) + 1
    ensures MonthChunks(begin, end)
         == [Range(begin, GetEndOfTheMonth(begin))] + MonthChunks(NextDay(GetEndOfTheMonth(begin)), end)
  {
    MonthIndexOrder(begin, end);
    MonthIndexOrder(NextDay(GetEndOfTheMonth(begin)), end);
  }

  /** Sequence steps of the loop in Partition, verified on their own so that the
      loop's proof does not search through the chunk definitions for them. */
  lemma EmptyPrefix(s: seq<Range>)
    ensures [] + s == s
  {
  }

  lemma AppendChunk(done: seq<Range>, c: Range, rest: seq<Range>)
    ensures (done + [c]) + rest == done + ([c] + rest)
  {
  }

  /** The month loop of prepareDataForReport: numberOfMonths - 1 whole-month chunks,
      then the chunk ending at endDate. */
  method Partition(start: Date, endDate: Date) returns (chunks: seq<Range>)
    requires Le(start, endDate)
    ensures chunks == MonthChunks(start, endDate)
  {
    MonthIndexOrder(start, endDate);
    var numberOfMonths := CalculateNumberOfMonths(start, endDate);
    var tempBegin := start;
    chunks := [];
    EmptyPrefix(MonthChunks(start, endDate));
    var i := 0;
    while i < numberOfMonths - 1
      invariant 0 <= i && (numberOfMonths > 0 ==> i <= numberOfMonths - 1)
      invariant Le(tempBegin, endDate)
      invariant MonthIndex(tempBegin) == MonthIndex(start) + i
      invariant chunks + MonthChunks(tempBegin, endDate) == MonthChunks(start, endDate)
    {
      var tempEnd := GetEndOfTheMonth(tempBegin);
      MonthChunksStep(tempBegin, endDate);
      var rest := MonthChunks(NextDay(tempEnd), endDate);
      AppendChunk(chunks, Range(tempBegin, tempEnd), rest);
      chunks := chunks + [Range(tempBegin, tempEnd)];
      tempBegin := NextDay(tempEnd);
      i := i + 1;
    }
    MonthIndexOrder(tempBegin, endDate);
    assert MonthChunks(tempBegin, endDate) == [Range(tempBegin, endDate)];
    chunks := chunks + [Range(tempBegin, endDate)];
  }
}
