/** The figures of the report and the payload handed to the report template. Number
    formatting (a field width of 10 with 2 or 3 decimals) is not modelled: a formatted
    figure is its value and the number of decimals it is printed with. */
module Summary {
  import opened Calendar
  import opened Numbers

  /** A report figure: the string 'No data', or a value printed with some decimals. */
  datatype Figure = NoData | Amount(value: real, decimals: nat)

  /** A report date: the string 'No data', or an observation date. */
  datatype DateField = NoDate | Day(date: Date)

  datatype Figures = Figures(
    beginVal: Figure, endVal: Figure, average: Figure,
    beginDate: DateField, endDate: DateField,
    minVal: Figure, maxVal: Figure)

  /** The precision policy: two decimals when the first value exceeds 0.009, three
      otherwise (for low-priced units). */
  function Precision(first: real): (p: nat)
    ensures p == 2 || p == 3
    ensures p == 2 <==> first > 0.009
  {
    if first > 0.009 then 2 else 3
  }

  predicate AllNoData(f: Figures) {
    f.beginVal == NoData && f.endVal == NoData && f.average == NoData &&
    f.beginDate == NoDate && f.endDate == NoDate &&
    f.minVal == NoData && f.maxVal == NoData
  }

  /** The summary figures of the visible window (prepareDataForReport). */
  function SummaryFigures(importantDates: seq<Date>, importantValues: seq<real>): (f: Figures)
    requires |importantDates| == |importantValues|
    ensures |importantValues| == 0 <==> AllNoData(f)
    ensures |importantValues| > 0 ==>
              f.beginVal == Amount(importantValues[0], Precision(importantValues[0])) &&
              f.endVal == Amount(importantValues[|importantValues| - 1], Precision(importantValues[0]))
    ensures |importantValues| > 0 ==>
              f.beginDate == Day(importantDates[0]) &&
              f.endDate == Day(importantDates[|importantDates| - 1])
    ensures |importantValues| > 0 ==>
              f.minVal == Amount(Min(importantValues), Precision(importantValues[0])) &&
              f.maxVal == Amount(Max(importantValues), Precision(importantValues[0]))
    ensures |importantValues| > 0 ==>
              f.average == Amount(Mean(importantValues), Precision(importantValues[0])) &&
              f.minVal.value <= f.average.value <= f.maxVal.value
  {
    var n := |importantValues|;
    if n > 0 then
      var p := Precision(importantValues[0]);
      MeanBetweenMinAndMax(importantValues);
      Figures(Amount(importantValues[0], p), Amount(importantValues[n - 1], p),
              Amount(Mean(importantValues), p),
              Day(importantDates[0]), Day(importantDates[n - 1]),
              Amount(Min(importantValues), p), Amount(Max(importantValues), p))
    else
      Figures(NoData, NoData, NoData, NoDate, NoDate, NoData, NoData)
  }

  /** A payload text: a figure as it is, or a figure followed by " zł". */
  datatype Shown = Plain(figure: Figure) | Zloty(figure: Figure)

  datatype Payload = Payload(
    name: string, code: string,
    begin: DateField, minVal: Shown, maxVal: Shown, beginVal: Shown,
    end: DateField, endVal: Shown, average: Shown,
    fig: string, fig1: string, fig2: string)

  /** The code shown for the gold price. */
  const NoDataText := "No data"

  /** The unit suffix rule: 'No data' is shown as it is, any other figure with " zł". */
  function WithUnit(f: Figure): (s: Shown)
    ensures s.figure == f
    ensures s.Zloty? <==> f != NoData
  {
    if f == NoData then Plain(f) else Zloty(f)
  }

  /** The dictionary prepareGeneralJsonFile writes for the report template. */
  function PrepareGeneralJsonFile(name: string, code: string, f: Figures): (p: Payload)
    ensures p.name == name
    ensures p.code == (if name == "gold" then NoDataText else code)
    ensures p.begin == f.beginDate && p.end == f.endDate
    ensures p.minVal == WithUnit(f.minVal) && p.maxVal == WithUnit(f.maxVal)
    ensures p.beginVal == WithUnit(f.beginVal) && p.average == WithUnit(f.average)
    ensures p.endVal == (if f.endVal == NoData then Plain(f.beginVal) else Zloty(f.endVal))
  {
    var code := if name == "gold" then NoDataText else code;
    var minVal := if f.minVal == NoData then Plain(f.minVal) else Zloty(f.minVal);
    var maxVal := if f.maxVal == NoData then Plain(f.maxVal) else Zloty(f.maxVal);
    var beginVal := if f.beginVal == NoData then Plain(f.beginVal) else Zloty(f.beginVal);
    var endVal := if f.endVal == NoData then Plain(f.beginVal) else Zloty(f.endVal);
    var average := if f.average == NoData then Plain(f.average) else Zloty(f.average);
    Payload(name, code, f.beginDate, minVal, maxVal, beginVal, f.endDate, endVal, average,
            "..\\img\\wholePeriod.png", "..\\img\\lastFive.png", "..\\img\\lastMonths.png")
  }

  /** An empty window reaches the report as 'No data' in every field. */
  lemma EmptyWindowPayload(name: string, code: string, importantDates: seq<Date>, importantValues: seq<real>)
    requires |importantDates| == |importantValues| == 0
    ensures var p := PrepareGeneralJsonFile(name, code, SummaryFigures(importantDates, importantValues));
            p.begin == NoDate && p.end == NoDate &&
            p.minVal == Plain(NoData) && p.maxVal == Plain(NoData) && p.beginVal == Plain(NoData) &&
            p.endVal == Plain(NoData) && p.average == Plain(NoData)
  {
  }

  /** A window with quotes reaches the report with every figure in złoty, the end value
      being the last quote, at the precision its first quote selects. */
  lemma WindowPayload(name: string, code: string, importantDates: seq<Date>, importantValues: seq<real>)
    requires |importantDates| == |importantValues| > 0
    ensures var p := PrepareGeneralJsonFile(name, code, SummaryFigures(importantDates, importantValues));
            var n := |importantValues|;
            var d := Precision(importantValues[0]);
            p.begin == Day(importantDates[0]) && p.end == Day(importantDates[n - 1]) &&
            p.beginVal == Zloty(Amount(importantValues[0], d)) &&
            p.endVal == Zloty(Amount(importantValues[n - 1], d)) &&
            p.minVal.Zloty? && p.maxVal.Zloty? && p.average.Zloty? &&
            p.minVal.figure.value <= p.average.figure.value <= p.maxVal.figure.value
  {
  }
}
