/**
 * DashboardFragment: the time-range dispatch, the per-point forecast loop
 * and the line chart built from the forecasts.
 */
module Dashboard {
  import opened Common
  import opened Sqlite
  import opened ExpenseDatabase
  import opened Prediction

  /** The texts of the range buttons; the month button's text is the current month's name. */
  const ThisWeek: string := "This Week"
  const JanuaryToDecember: string := "January - December"
  const AllTime: string := "All Time"

  /** The history query a time range selects. */
  datatype HistoryQuery = NextSevenDays | LastMonth | LastYear | AllHistory

  /**
   * The `when` of updateChart, tried in order: this week, the current
   * month's display name, the whole year, and every other text.
   */
  function QueryFor(timeRange: string, currentMonth: string): (q: HistoryQuery)
    ensures q == NextSevenDays <==> timeRange == ThisWeek
    ensures q == LastMonth <==> timeRange != ThisWeek && timeRange == currentMonth
    ensures q == LastYear
            <==> timeRange != ThisWeek && timeRange != currentMonth && timeRange == JanuaryToDecember
    ensures q == AllHistory
            <==> timeRange != ThisWeek && timeRange != currentMonth && timeRange != JanuaryToDecember
  {
    if timeRange == ThisWeek then NextSevenDays
    else if timeRange == currentMonth then LastMonth
    else if timeRange == JanuaryToDecember then LastYear
    else AllHistory
  }

  /** The "All Time" button falls through every named arm: the full history, labelled with full dates. */
  lemma AllTimeReadsAllHistory(currentMonth: string)
    requires currentMonth != AllTime
    ensures QueryFor(AllTime, currentMonth) == AllHistory
    ensures LabelStyleFor(AllTime, currentMonth) == FullDate
  {
  }

  /** The amounts updateChart reads for a query, as the helper's queries return them. */
  function History(db: ExpenseDatabaseHelper, q: HistoryQuery, today: Day): (history: seq<real>)
    ensures |history| <= |db.expenses|
    ensures q == AllHistory ==> history == ParseAndSkip(db.toFloat, AmountTexts(db.expenses))
  {
    match q
    case NextSevenDays => Amounts(db.toFloat, db.expenses, Next7DaysSelect(today))
    case LastMonth => Amounts(db.toFloat, db.expenses, SinceSelect(30, today))
    case LastYear => Amounts(db.toFloat, db.expenses, SinceSelect(365, today))
    case AllHistory =>
      HistoricalInStorageOrder(db.toFloat, db.expenses);
      Amounts(db.toFloat, db.expenses, AllRowsSelect())
  }

  /**
   * The forecast of one history point, fed to predict as a one-element
   * list: the model's float output for that point's features, denormalised.
   */
  function PointForecast(p: PredictionHelper, amount: real): (forecast: real)
    ensures var m, native := p.numerics, p.interpreter.native;
      forecast == Denormalize(m, Rounded(native, p.interpreter.model(RoundedAll(native, Features(m, [amount])))))
  {
    PredictionOverReals(p.numerics, p.interpreter.native, p.interpreter.model, [amount]);
    PredictResult(p.numerics, p.interpreter.native, p.interpreter.model, [amount]).value
  }

  /** The forecast series: one prediction per history point, each from that point alone. */
  function Forecasts(p: PredictionHelper, history: seq<real>): (predictions: seq<real>)
    ensures |predictions| == |history|
  {
    seq(|history|, i requires 0 <= i < |history| => PointForecast(p, history[i]))
  }

  /** Forecasting one more point appends its forecast and changes none before it. */
  lemma {:induction false} ForecastsExtend(p: PredictionHelper, history: seq<real>, i: nat)
    requires i < |history|
    ensures Forecasts(p, history[..i + 1]) == Forecasts(p, history[..i]) + [PointForecast(p, history[i])]
  {
    assert history[..i + 1][i] == history[i];
  }

  /**
   * Each forecast sees a history of one: both lags are zero and the
   * smoothed and rolling slots all hold that point's log amount.
   */
  lemma {:induction false} ForecastFromSinglePoint(p: PredictionHelper, history: seq<real>, i: nat)
    requires i < |history|
    ensures var m, native, L := p.numerics, p.interpreter.native, Normalize(p.numerics, history[i]);
      Forecasts(p, history)[i]
      == Denormalize(m, Rounded(native, p.interpreter.model(
           RoundedAll(native, [0.0, 0.0, 1.0, m.sin(DayAngle(m)), m.cos(DayAngle(m)), 0.0, L, L, L, 10.0]))))
  {
    SingletonFeatures(p.numerics, history[i]);
  }

  /** With a pass-through model the forecast series reproduces the history. */
  lemma {:induction false} ForecastsEchoHistory(p: PredictionHelper, history: seq<real>)
    requires Expm1InvertsLog1p(p.numerics)
    requires p.interpreter.model == PassSmoothedLog
    requires forall i :: 0 <= i < |history| ==>
               history[i] > -Scale && LosslessOn(p.interpreter.native, Features(p.numerics, [history[i]]))
    ensures Forecasts(p, history) == history
  {
    forall i | 0 <= i < |history|
      ensures Forecasts(p, history)[i] == history[i]
    {
      SingletonRoundTrip(p.numerics, p.interpreter.native, history[i]);
    }
  }

  /** A chart point: x is the 1-based position, y the forecast. */
  datatype Entry = Entry(x: real, y: real)

  /** mapIndexed { index, prediction -> Entry(index + 1, prediction) }. */
  function Entries(predictions: seq<real>): (entries: seq<Entry>)
    ensures |entries| == |predictions|
    ensures forall i :: 0 <= i < |entries| ==> entries[i].x == (i + 1) as real && entries[i].y == predictions[i]
  {
    seq(|predictions|, i requires 0 <= i < |predictions| => Entry((i + 1) as real, predictions[i]))
  }

  /** The date format of the x-axis labels. */
  datatype LabelStyle = DayOfWeek | DayOfMonth | DayAndMonth | FullDate

  /** The formatter's own `when` on the time range, with the same guards as updateChart's. */
  function LabelStyleFor(timeRange: string, currentMonth: string): (style: LabelStyle)
    ensures style == DayOfWeek <==> QueryFor(timeRange, currentMonth) == NextSevenDays
    ensures style == DayOfMonth <==> QueryFor(timeRange, currentMonth) == LastMonth
    ensures style == DayAndMonth <==> QueryFor(timeRange, currentMonth) == LastYear
    ensures style == FullDate <==> QueryFor(timeRange, currentMonth) == AllHistory
  {
    if timeRange == ThisWeek then DayOfWeek
    else if timeRange == currentMonth then DayOfMonth
    else if timeRange == JanuaryToDecember then DayAndMonth
    else FullDate
  }

  /** Float.toInt: the integer part, rounding toward zero. */
  function TruncateToInt(v: real): (n: int)
    ensures 0.0 <= v ==> n as real <= v < n as real + 1.0
    ensures v < 0.0 ==> n as real - 1.0 < v <= n as real
  {
    if 0.0 <= v then v.Floor else -((-v).Floor)
  }

  /** An x-axis label: blank, or the date `days` days after today in a style. */
  datatype Label = Blank | DaysAhead(style: LabelStyle, days: nat)

  /** The x-axis value formatter, closed over the number of predictions and the label style. */
  datatype XFormatter = XFormatter(count: nat, style: LabelStyle)

  /** getFormattedValue: blank exactly when the truncated value is not the x of an entry. */
  function FormatX(f: XFormatter, value: real): (shown: Label)
    ensures shown == Blank <==> !(1 <= TruncateToInt(value) <= f.count)
    ensures shown != Blank ==> shown.style == f.style && shown.days == TruncateToInt(value) - 1 < f.count
  {
    var index := TruncateToInt(value) - 1;
    if index < 0 || index >= f.count then Blank else DaysAhead(f.style, index)
  }

  /** maxOrNull() ?: 0 over the predictions. */
  function MaxOrZero(predictions: seq<real>): (m: real)
    ensures forall i :: 0 <= i < |predictions| ==> predictions[i] <= m
    ensures predictions != [] ==> m in predictions
    ensures predictions == [] ==> m == 0.0
  {
    if predictions == [] then 0.0
    else if |predictions| == 1 then predictions[0]
    else
      var rest := MaxOrZero(predictions[1..]);
      assert forall i :: 1 <= i < |predictions| ==> predictions[i] == predictions[1..][i - 1];
      if predictions[0] >= rest then predictions[0] else rest
  }

  /** Math.ceil. */
  function Ceil(x: real): (n: int)
    ensures x <= n as real < x + 1.0
  {
    if x == x.Floor as real then x.Floor else x.Floor + 1
  }

  datatype YAxis = YAxis(minimum: real, maximum: real)

  /**
   * Math.ceil(m / 1000) * 1000 + 5000: a whole number of thousands, at
   * least 5000 and less than 6000 above m.
   */
  lemma RoundedUpTopBounds(m: real)
    ensures var top := (Ceil(m / 1000.0) * 1000) as real + 5000.0;
      && m + 5000.0 <= top < m + 6000.0
      && (top / 1000.0).Floor as real == top / 1000.0
  {
    var c := Ceil(m / 1000.0);
    var top := (c * 1000) as real + 5000.0;
    assert m / 1000.0 <= c as real < m / 1000.0 + 1.0;
    assert m <= c as real * 1000.0 < m + 1000.0;
    assert top / 1000.0 == (c + 5) as real;
  }

  /**
   * The left axis: from 0 to the largest prediction rounded up to a
   * thousand, plus 5000. It leaves at least 5000 above every prediction
   * and less than 6000 above the largest.
   */
  function LeftAxis(predictions: seq<real>): (axis: YAxis)
    ensures axis.minimum == 0.0
    ensures MaxOrZero(predictions) + 5000.0 <= axis.maximum < MaxOrZero(predictions) + 6000.0
    ensures forall i :: 0 <= i < |predictions| ==> predictions[i] + 5000.0 <= axis.maximum
    ensures (axis.maximum / 1000.0).Floor as real == axis.maximum / 1000.0
  {
    RoundedUpTopBounds(MaxOrZero(predictions));
    YAxis(0.0, (Ceil(MaxOrZero(predictions) / 1000.0) * 1000) as real + 5000.0)
  }

  /** What setupLineChart puts on the chart. */
  datatype Chart = Chart(entries: seq<Entry>, xFormatter: XFormatter, labelCount: nat, leftAxis: YAxis)

  /**
   * setupLineChart: one entry and one x label per prediction, and a left
   * axis from 0 that clears every prediction by at least 5000.
   */
  function SetupLineChart(predictions: seq<real>, timeRange: string, currentMonth: string): (chart: Chart)
    ensures |chart.entries| == chart.labelCount == chart.xFormatter.count == |predictions|
    ensures chart.leftAxis.minimum == 0.0
    ensures forall i :: 0 <= i < |predictions| ==> predictions[i] + 5000.0 <= chart.leftAxis.maximum
  {
    Chart(Entries(predictions),
          XFormatter(|predictions|, LabelStyleFor(timeRange, currentMonth)),
          |predictions|,
          LeftAxis(predictions))
  }

  /**
   * Entry i is plotted at x = i + 1 with the i-th prediction, and its
   * label is today plus i days; there is one entry per prediction.
   */
  lemma {:induction false} EntryLabels(predictions: seq<real>, timeRange: string, currentMonth: string)
    ensures var chart := SetupLineChart(predictions, timeRange, currentMonth);
      && |chart.entries| == chart.labelCount == |predictions|
      && forall i :: 0 <= i < |predictions| ==>
           && chart.entries[i].x == (i + 1) as real
           && chart.entries[i].y == predictions[i]
           && FormatX(chart.xFormatter, chart.entries[i].x)
              == DaysAhead(LabelStyleFor(timeRange, currentMonth), i)
  {
    var chart := SetupLineChart(predictions, timeRange, currentMonth);
    forall i | 0 <= i < |predictions|
      ensures FormatX(chart.xFormatter, chart.entries[i].x) == DaysAhead(LabelStyleFor(timeRange, currentMonth), i)
    {
      assert chart.entries[i].x == (i + 1) as real;
      assert TruncateToInt((i + 1) as real) == i + 1;
    }
  }

  class DashboardFragment {
    const db: ExpenseDatabaseHelper
    const predictionHelper: PredictionHelper
    /** What the line chart shows; None before the first chart is built. */
    var chart: Option<Chart>

    constructor (db: ExpenseDatabaseHelper, predictionHelper: PredictionHelper)
      ensures this.db == db && this.predictionHelper == predictionHelper && chart == None
    {
      this.db := db;
      this.predictionHelper := predictionHelper;
      chart := None;
    }

    /**
     * updateChart: read the history the range selects; when it is empty
     * leave the chart as it is, otherwise forecast every point on its own
     * and rebuild the chart from the forecasts.
     */
    method UpdateChart(timeRange: string, today: Day, currentMonth: string)
      modifies this
      ensures var history := History(db, QueryFor(timeRange, currentMonth), today);
        if history == [] then chart == old(chart)
        else chart == Some(SetupLineChart(Forecasts(predictionHelper, history), timeRange, currentMonth))
    {
      ghost var history := History(db, QueryFor(timeRange, currentMonth), today);
      var expenses: seq<real>;
      if timeRange == ThisWeek {
        expenses := db.GetExpensesForNext7Days(today);
      } else if timeRange == currentMonth {
        expenses := db.GetExpensesForLastMonth(today);
      } else if timeRange == JanuaryToDecember {
        expenses := db.GetExpensesForLastYear(today);
      } else {
        expenses := db.GetHistoricalExpenses();
      }
      assert expenses == history;

      if expenses != [] {
        var predictions: seq<real> := [];
        for i := 0 to |expenses|
          invariant predictions == Forecasts(predictionHelper, expenses[..i])
        {
          var prediction := predictionHelper.Predict([expenses[i]]);
          predictions := predictions + [prediction.value];
          ForecastsExtend(predictionHelper, expenses, i);
        }
        assert expenses[..|expenses|] == expenses;
        chart := Some(SetupLineChart(predictions, timeRange, currentMonth));
      }
    }
  }
}
