/** The checks the command line applies to a report request before anything is
    fetched. The clock is a parameter: `today` is the current date and `hour` the
    current hour, which is also the hour of both requested dates. */
module Request {
  import opened Calendar
  import opened Currencies
  import opened Wrappers

  /** The ValueError messages of the command line, one per failed check. */
  datatype RequestError =
    | WrongBeginDate      // "Wrong begin date of the period!"
    | WrongEndDate        // "Wrong end date of the period!"
    | WrongPeriod         // "Wrong relation between begin and end date!"
    | WrongArgument       // "Wrong argument!"
    | NoGoldData          // "Couldn't get price of gold data!"
    | NoCurrencyData      // "Couldn't get currency data!"

  datatype ReportRequest = ReportRequest(argument: string, beginDate: Date, endDate: Date)

  /** The argument names a listed currency (by code in any letter case, or by name),
      the gold price, or the table of all currencies. */
  predicate KnownArgument(argument: string, names: seq<string>, codes: seq<string>) {
    Upper(argument) in codes || argument in names ||
    argument == "gold" || argument == "all"
  }

  /** The first day with data for the argument. */
  function DataStart(argument: string): Date {
    if argument == "gold" then GoldDataStart else CurrencyDataStart
  }

  /** The three date checks pass: neither date is after today and begin is not after end. */
  predicate DatesAccepted(b: Date, e: Date, today: Date) {
    Le(b, today) && Le(e, today) && Le(b, e)
  }

  /** The argument normalisation, the market-close shift of both dates, and the checks
      of the command line in their order; the first failing one is the error. */
  function CheckRequest(rawArgument: string, beginDate: Date, endDate: Date, today: Date, hour: int,
                        names: seq<string>, codes: seq<string>): (r: Result<ReportRequest, RequestError>)
    ensures r.Ok? <==>
              var b := ShiftBeforeClose(beginDate, today, hour);
              var e := ShiftBeforeClose(endDate, today, hour);
              var a := NormaliseArgument(rawArgument);
              Le(b, today) && Le(e, today) && Le(b, e) && KnownArgument(a, names, codes) &&
              Le(DataStart(a), b)
    ensures r.Ok? ==>
              r.value.argument == NormaliseArgument(rawArgument) &&
              r.value.beginDate == ShiftBeforeClose(beginDate, today, hour) &&
              r.value.endDate == ShiftBeforeClose(endDate, today, hour)
    ensures r == Err(WrongBeginDate) <==> !Le(ShiftBeforeClose(beginDate, today, hour), today)
    ensures r == Err(WrongEndDate) <==>
              Le(ShiftBeforeClose(beginDate, today, hour), today) &&
              !Le(ShiftBeforeClose(endDate, today, hour), today)
    ensures r == Err(WrongPeriod) <==>
              var b := ShiftBeforeClose(beginDate, today, hour);
              var e := ShiftBeforeClose(endDate, today, hour);
              Le(b, today) && Le(e, today) && !Le(b, e)
    ensures r == Err(WrongArgument) <==>
              var b := ShiftBeforeClose(beginDate, today, hour);
              var e := ShiftBeforeClose(endDate, today, hour);
              DatesAccepted(b, e, today) && !KnownArgument(NormaliseArgument(rawArgument), names, codes)
    ensures r == Err(NoGoldData) <==>
              var b := ShiftBeforeClose(beginDate, today, hour);
              var e := ShiftBeforeClose(endDate, today, hour);
              DatesAccepted(b, e, today) && NormaliseArgument(rawArgument) == "gold" &&
              !Le(GoldDataStart, b)
    ensures r == Err(NoCurrencyData) <==>
              var b := ShiftBeforeClose(beginDate, today, hour);
              var e := ShiftBeforeClose(endDate, today, hour);
              var a := NormaliseArgument(rawArgument);
              DatesAccepted(b, e, today) && KnownArgument(a, names, codes) && a != "gold" &&
              !Le(CurrencyDataStart, b)
  {
    var argument := NormaliseArgument(rawArgument);
    var e := ShiftBeforeClose(endDate, today, hour);
    var b := ShiftBeforeClose(beginDate, today, hour);
    if !IsValidDate(b, today) then Err(WrongBeginDate)
    else if !IsValidDate(e, today) then Err(WrongEndDate)
    else if !CheckPeriod(b, e) then Err(WrongPeriod)
    else if Upper(argument) !in codes && argument !in names
            && argument != "gold" && argument != "all" then Err(WrongArgument)
    else if argument == "gold" then
      if !CheckGoldDataAvailability(b) then Err(NoGoldData) else Ok(ReportRequest(argument, b, e))
    else
      if !CheckCurrencyDataAvailability(b) then Err(NoCurrencyData) else Ok(ReportRequest(argument, b, e))
  }
}
