# DokuGo expense forecasting, modelled in Dafny

DokuGo is an Android expense tracker. Its dashboard draws a line chart of
forecast expenses. The path behind that chart has three parts:

- `ExpenseDatabaseHelper` reads the amount column of the `expenses` table
  with one of four SQLite queries. Each query keeps the amounts that parse
  as floats and skips the ones that do not.
- `PredictionHelper.predict` builds a ten-feature vector from the last
  amounts of a list. It writes the vector into a native-order byte buffer,
  runs a TensorFlow Lite model on it, reads one float back and undoes the
  log normalisation.
- `DashboardFragment.updateChart` picks the query from the range button
  the user pressed. It forecasts each returned amount on its own and hands
  the forecasts to `setupLineChart`. That function plots them at x = 1, 2,
  …, labels the x axis with dates counted forward from today, and sets the
  y axis from 0 to the largest forecast rounded up to a thousand, plus
  5000.

The project has five modules:

- `Common`: `Option` and `Result`.
- `Sqlite`: the subset of SQLite the queries use.
  - The `expenses` rows.
  - `WHERE` on the date, `ORDER BY date [DESC]` and `LIMIT`, as functions
    on sequences of rows.
  - The `Cursor` the queries are read through. It is a class whose
    position starts before the first row.
- `ExpenseDatabase`:
  - the specification of the parse-and-skip loop (`ParseAndSkip`);
  - that loop as a method over a cursor (`ReadAmounts`);
  - the helper class with one method per query;
  - lemmas on which rows each query reads and in what order.
- `Prediction`:
  - the feature vector;
  - the byte encoding of floats;
  - the `ByteBuffer` and `Interpreter` classes;
  - `PredictionHelper.Predict`, proved equal to a function on values
    (`PredictResult`).
- `Dashboard`:
  - the range dispatch;
  - the per-point forecasts;
  - the chart's entries, x-axis formatter and y-axis bounds;
  - the `DashboardFragment` class, whose `UpdateChart` replaces the chart.

Numbers are Dafny `real`s. The model leaves the floating-point primitives
abstract: `Math.log1p`, `Math.expm1`, `Math.sin`, `Math.cos` and `Math.PI`
are fields of a `Numerics` value. The float-to-bytes encoding of the native
byte order is a `FloatCodec` value. The trained TFLite network is a
function `model` from the decoded input floats to the output float.
`String.toFloat` is a `FloatParser` that returns `None` where Kotlin
throws. What a `putFloat` followed by a `getFloat` gives back is
`Rounded(c, x)`, the number rounded to a float. The model states `predict`
with that rounding for every codec. Two hypotheses appear only as a
`requires` of the lemmas that need them:

- `LosslessOn(c, xs)`: the numbers in `xs` are already floats, so rounding
  leaves them unchanged. It is stated of the ten features actually written,
  not of all reals: four bytes cannot hold every real.
- `Expm1InvertsLog1p`: `expm1(log1p(x)) == x` for `x > -1`.

Dates are day numbers. The source stores them as `TEXT`, and compares them
with `date('now')` and `date('now', '-N days')`. Those comparisons order
dates correctly when the text is `yyyy-MM-dd`. The day `date('now')` names
is the `today` parameter.

Where the code differs from what a reader might expect, the model follows
the code:

- An unrecognised range is not an error. It falls through to the full
  history (`QueryFor`).
- The 30-day and 365-day queries have no `ORDER BY`. The model claims only
  which rows they read, not their order (`SinceWindow`).
- `predict` on an empty list fails in `List.last()` with
  `NoSuchElementException`. It does not report insufficient history. That
  failure is `Failure(NoSuchElement)` here.
- The feature vector's length is not checked before the model runs. It is
  ten by construction (`Features`).

## Model

| member | source | states |
|---|---|---|
| Sqlite.Filter | app/src/main/java/com/dokugo/database/ExpenseDatabaseHelper.kt:164-167 | The WHERE clause keeps exactly the matching rows, each as many times as it is stored, and nothing else. |
| Sqlite.InsertByDate | app/src/main/java/com/dokugo/database/ExpenseDatabaseHelper.kt:168 | Inserting a row into date-ordered rows keeps them date-ordered and adds exactly that row. |
| Sqlite.HeadPrecedesInsert | app/src/main/java/com/dokugo/database/ExpenseDatabaseHelper.kt:168 | A row that must not come before the first of a sorted list is inserted after that first row, and the order is kept. |
| Sqlite.SortByDate | app/src/main/java/com/dokugo/database/ExpenseDatabaseHelper.kt:100-106 | ORDER BY date [DESC] returns a permutation of the rows in date order, ascending or descending. |
| Sqlite.Limit | app/src/main/java/com/dokugo/database/ExpenseDatabaseHelper.kt:105 | LIMIT n keeps the first min(n, count) rows in order. SQLite itself reads a negative LIMIT as no limit, but the helper never sends one (see GetLatestExpenses). |
| Sqlite.LimitCutsOnlyLater | app/src/main/java/com/dokugo/database/ExpenseDatabaseHelper.kt:104-105 | On ordered rows, every row LIMIT cuts off comes no earlier in that order than every row it keeps. |
| Sqlite.Order | app/src/main/java/com/dokugo/database/ExpenseDatabaseHelper.kt:168 | ORDER BY permutes the rows. They come out sorted when an order is asked for and are unchanged otherwise. |
| Sqlite.Run | app/src/main/java/com/dokugo/database/ExpenseDatabaseHelper.kt:100-106 | A SELECT returns only matching rows taken from the table, in the requested order, at most `limit` of them. Without a limit it returns every matching row. |
| Sqlite.RowsOfFilter | app/src/main/java/com/dokugo/database/ExpenseDatabaseHelper.kt:201 | Rows drawn from the filtered table satisfy the WHERE clause and occur in the table at least as often. |
| Sqlite.IndexOf | app/src/main/java/com/dokugo/database/ExpenseDatabaseHelper.kt:74 | The index of the first column with that name, or -1 exactly when there is no such column. |
| Sqlite.Cursor.constructor | app/src/main/java/com/dokugo/database/ExpenseDatabaseHelper.kt:71 | A new cursor holds the result rows and is positioned before the first row. |
| Sqlite.Cursor.GetColumnIndex | app/src/main/java/com/dokugo/database/ExpenseDatabaseHelper.kt:74-76 | Returns -1 exactly when the column is missing; otherwise an index of that column. |
| Sqlite.Cursor.MoveToNext | app/src/main/java/com/dokugo/database/ExpenseDatabaseHelper.kt:77 | Advances one row, stopping after the last. Returns true exactly when the cursor is on a row. |
| ExpenseDatabase.ParseAndSkip | app/src/main/java/com/dokugo/database/ExpenseDatabaseHelper.kt:77-84 | Keeps the parsed value of each cell that parses, in order. Never returns more amounts than cells. |
| ExpenseDatabase.SurvivorsSpec | app/src/main/java/com/dokugo/database/ExpenseDatabaseHelper.kt:77-84 | Each kept amount is the parse of a cell, the kept cells are in cursor order, and every cell that parses is kept. |
| ExpenseDatabase.ParseAndSkipAppend | app/src/main/java/com/dokugo/database/ExpenseDatabaseHelper.kt:77-84 | The loop over two runs of rows gives the concatenation of the two results. |
| ExpenseDatabase.SkipUnparsable | app/src/main/java/com/dokugo/database/ExpenseDatabaseHelper.kt:78-83 | A cell that does not parse is dropped and changes nothing else in the result. |
| ExpenseDatabase.NothingSkipped | app/src/main/java/com/dokugo/database/ExpenseDatabaseHelper.kt:77-84 | The result has one amount per row exactly when every cell parses. |
| ExpenseDatabase.Amounts | app/src/main/java/com/dokugo/database/ExpenseDatabaseHelper.kt:71-93 | A query never yields more amounts than the table has rows. |
| ExpenseDatabase.Next7DaysSelect | app/src/main/java/com/dokugo/database/ExpenseDatabaseHelper.kt:164-169 | The query matches exactly the rows dated today to today + 6. It orders them by ascending date and has no LIMIT. |
| ExpenseDatabase.SinceSelect | app/src/main/java/com/dokugo/database/ExpenseDatabaseHelper.kt:201 | The query matches exactly the rows dated on or after today minus N days. It has no ORDER BY and no LIMIT. |
| ExpenseDatabase.LatestSelect | app/src/main/java/com/dokugo/database/ExpenseDatabaseHelper.kt:100-106 | The query matches every row. It orders them by descending date and limits them to `limit`. |
| ExpenseDatabase.AllRowsSelect | app/src/main/java/com/dokugo/database/ExpenseDatabaseHelper.kt:71 | The query matches every row. It has no ORDER BY and no LIMIT. |
| ExpenseDatabase.QueryProvenance | app/src/main/java/com/dokugo/database/ExpenseDatabaseHelper.kt:207-214 | Every amount a query returns is the parse of a distinct matching row, in cursor order. There are no more amounts than rows. |
| ExpenseDatabase.Next7DaysWindow | app/src/main/java/com/dokugo/database/ExpenseDatabaseHelper.kt:161-187 | The amounts come from rows dated today to today + 6 in ascending date order, and those are exactly the table's rows in that window. |
| ExpenseDatabase.SinceWindow | app/src/main/java/com/dokugo/database/ExpenseDatabaseHelper.kt:198-219 | The amounts come from rows dated on or after today minus N days, and those are exactly the table's rows in that window. |
| ExpenseDatabase.LatestWindow | app/src/main/java/com/dokugo/database/ExpenseDatabaseHelper.kt:97-123 | At most `limit` amounts, taken from table rows in descending date order. |
| ExpenseDatabase.LatestAreNewest | app/src/main/java/com/dokugo/database/ExpenseDatabaseHelper.kt:100-106 | Exactly min(limit, count) rows are read. Every row the LIMIT leaves out is dated no later than every row read. |
| ExpenseDatabase.FilterAnywhere | app/src/main/java/com/dokugo/database/ExpenseDatabaseHelper.kt:71 | A query without a WHERE clause keeps every row in order. |
| ExpenseDatabase.HistoricalInStorageOrder | app/src/main/java/com/dokugo/database/ExpenseDatabaseHelper.kt:68-94 | The full history is the parse-and-skip of every stored amount, in storage order. |
| ExpenseDatabase.ReadAmounts | app/src/main/java/com/dokugo/database/ExpenseDatabaseHelper.kt:73-91 | A null cursor or a missing amount column gives an empty list. Otherwise the result is ParseAndSkip of the amount column over every row. |
| ExpenseDatabase.ReadPredictions | app/src/main/java/com/dokugo/database/ExpenseDatabaseHelper.kt:141-155 | A null cursor or a missing column gives an empty list. Otherwise the result is every prediction cell, nulls included, in row order. |
| ExpenseDatabase.ExpenseDatabaseHelper.constructor | app/src/main/java/com/dokugo/database/ExpenseDatabaseHelper.kt:29-47 | The helper holds the two tables and the float parser. |
| ExpenseDatabase.ExpenseDatabaseHelper.QueryAmounts | app/src/main/java/com/dokugo/database/ExpenseDatabaseHelper.kt:170 | A fresh cursor over the query's rows, with one `amount` column, before its first row. |
| ExpenseDatabase.ExpenseDatabaseHelper.GetHistoricalExpenses | app/src/main/java/com/dokugo/database/ExpenseDatabaseHelper.kt:68-94 | The parsed amounts of every row, read without WHERE or ORDER BY. |
| ExpenseDatabase.ExpenseDatabaseHelper.GetLatestExpenses | app/src/main/java/com/dokugo/database/ExpenseDatabaseHelper.kt:97-123 | A negative limit fails: its text is not a valid LIMIT clause. Otherwise the result is the parsed amounts of the query ordered by date descending with LIMIT `limit`. |
| ExpenseDatabase.ExpenseDatabaseHelper.GetExpensesForNext7Days | app/src/main/java/com/dokugo/database/ExpenseDatabaseHelper.kt:161-187 | The parsed amounts of rows dated today to today + 6, in ascending date order. |
| ExpenseDatabase.ExpenseDatabaseHelper.GetExpensesForLastMonth | app/src/main/java/com/dokugo/database/ExpenseDatabaseHelper.kt:189-191 | The 30-day window query. |
| ExpenseDatabase.ExpenseDatabaseHelper.GetExpensesForLastYear | app/src/main/java/com/dokugo/database/ExpenseDatabaseHelper.kt:193-195 | The 365-day window query. |
| ExpenseDatabase.ExpenseDatabaseHelper.GetExpensesFromDatabase | app/src/main/java/com/dokugo/database/ExpenseDatabaseHelper.kt:198-219 | The parsed amounts of rows dated on or after today minus `days`, with no ORDER BY. |
| ExpenseDatabase.ExpenseDatabaseHelper.GetPredictions | app/src/main/java/com/dokugo/database/ExpenseDatabaseHelper.kt:136-158 | Every stored prediction text, in storage order. |
| Prediction.WordBytes | app/src/main/java/com/dokugo/prediction/PredictionHelper.kt:45 | A float occupies four bytes. |
| Prediction.WordAt | app/src/main/java/com/dokugo/prediction/PredictionHelper.kt:54 | The word at an offset is made of exactly the four bytes found there. |
| Prediction.Normalize | app/src/main/java/com/dokugo/prediction/PredictionHelper.kt:27-28 | When expm1 inverts log1p, denormalising a normalised amount above -187.85 gives that amount back: the same scale is used in both directions. |
| Prediction.Features | app/src/main/java/com/dokugo/prediction/PredictionHelper.kt:27-40 | Ten features: the two previous amounts or 0, then 1, sin and cos of 2π·2/7 and 0, then three times log1p(last / 187.85), then 10. |
| Prediction.Pack | app/src/main/java/com/dokugo/prediction/PredictionHelper.kt:42-46 | Writing n floats gives 4·n bytes. |
| Prediction.Unpack | app/src/main/java/com/dokugo/prediction/PredictionHelper.kt:51 | Reading a buffer of 4·n bytes gives n floats. |
| Prediction.Zeros | app/src/main/java/com/dokugo/prediction/PredictionHelper.kt:42 | A freshly allocated direct buffer of n bytes holds n bytes, all zero. |
| Prediction.PackStep | app/src/main/java/com/dokugo/prediction/PredictionHelper.kt:44-46 | Each `putFloat` of the loop advances the buffer by one more packed feature. |
| Prediction.PackSlot | app/src/main/java/com/dokugo/prediction/PredictionHelper.kt:44-46 | Feature i occupies bytes 4i to 4i+3 of the input buffer. |
| Prediction.UnpackPack | app/src/main/java/com/dokugo/prediction/PredictionHelper.kt:42-51 | The interpreter reads back each written feature rounded to a float, in order. When the features are already floats, it reads back exactly the features. |
| Prediction.PredictResult | app/src/main/java/com/dokugo/prediction/PredictionHelper.kt:26-56 | `predict` fails exactly when the list is empty. |
| Prediction.PredictionOverReals | app/src/main/java/com/dokugo/prediction/PredictionHelper.kt:26-55 | An empty list fails. Otherwise `predict` is expm1 of the float-rounded model output on the float-rounded features, times 187.85. When those numbers are already floats it is expm1(model(features)) · 187.85. |
| Prediction.SingletonRoundTrip | app/src/main/java/com/dokugo/prediction/PredictionHelper.kt:27-55 | Suppose the model returns its smoothed-log feature, expm1 inverts log1p and the features written are floats. Then forecasting one amount above -187.85 gives that amount back. |
| Prediction.SingletonFeatures | app/src/main/java/com/dokugo/prediction/PredictionHelper.kt:29-40 | For a one-element list both lag features are 0. |
| Prediction.FeaturesUseLastThree | app/src/main/java/com/dokugo/prediction/PredictionHelper.kt:27-31 | The features depend only on the last three amounts. |
| Prediction.ByteBuffer.AllocateDirect | app/src/main/java/com/dokugo/prediction/PredictionHelper.kt:42-43 | A new zero-filled buffer of the requested capacity, positioned at 0, using the native float encoding. |
| Prediction.ByteBuffer.PutWord | app/src/main/java/com/dokugo/prediction/PredictionHelper.kt:45 | Writes four bytes at the position, leaves every other byte unchanged and advances the position by 4. |
| Prediction.ByteBuffer.PutFloat | app/src/main/java/com/dokugo/prediction/PredictionHelper.kt:45 | Writes the float's encoding at the position and advances the position by 4. |
| Prediction.ByteBuffer.Rewind | app/src/main/java/com/dokugo/prediction/PredictionHelper.kt:53 | Sets the position to 0 and leaves the bytes unchanged. |
| Prediction.ByteBuffer.GetFloat | app/src/main/java/com/dokugo/prediction/PredictionHelper.kt:54 | Decodes the four bytes at the position and advances the position by 4. |
| Prediction.Interpreter.constructor | app/src/main/java/com/dokugo/prediction/PredictionHelper.kt:13-15 | The interpreter runs the given model with the given float encoding. |
| Prediction.Interpreter.Run | app/src/main/java/com/dokugo/prediction/PredictionHelper.kt:51 | Decodes the 40-byte input, applies the model and writes the encoded result into the output buffer. The input, a separate buffer, is unchanged. |
| Prediction.PackInputBuffer | app/src/main/java/com/dokugo/prediction/PredictionHelper.kt:42-46 | A fresh buffer holding exactly the packed features. |
| Prediction.PredictionHelper.constructor | app/src/main/java/com/dokugo/prediction/PredictionHelper.kt:9-15 | The helper uses the given interpreter and numerics. |
| Prediction.PredictionHelper.Predict | app/src/main/java/com/dokugo/prediction/PredictionHelper.kt:26-56 | The byte-buffer pipeline computes exactly `PredictResult`, failing on an empty list. |
| Dashboard.QueryFor | app/src/main/java/com/dokugo/ui/dashboard/DashboardFragment.kt:93-98 | Each range selects its arm exactly as the `when` does: "This Week" the next seven days, then the current month 30 days, then "January - December" 365 days. Any other text selects the full history. |
| Dashboard.AllTimeReadsAllHistory | app/src/main/java/com/dokugo/ui/dashboard/DashboardFragment.kt:63 | The "All Time" button reads the full history and labels it with full dates, whatever the current month's name (other than "All Time" itself). |
| Dashboard.History | app/src/main/java/com/dokugo/ui/dashboard/DashboardFragment.kt:93-98 | The amounts updateChart reads are never more than the stored rows. For an unrecognised range they are every parsable stored amount, in storage order. |
| Dashboard.PointForecast | app/src/main/java/com/dokugo/ui/dashboard/DashboardFragment.kt:104 | The forecast of one amount is predict on that amount alone: the denormalised, float-rounded model output for its features. |
| Dashboard.Forecasts | app/src/main/java/com/dokugo/ui/dashboard/DashboardFragment.kt:100-106 | One forecast per history amount. |
| Dashboard.ForecastsExtend | app/src/main/java/com/dokugo/ui/dashboard/DashboardFragment.kt:103-106 | Each loop step appends the forecast of the next amount alone. |
| Dashboard.ForecastFromSinglePoint | app/src/main/java/com/dokugo/ui/dashboard/DashboardFragment.kt:104 | Forecast i sees no lags: the model gets the rounded [0, 0, 1, sin, cos, 0, L, L, L, 10], with L the normalised i-th amount. |
| Dashboard.ForecastsEchoHistory | app/src/main/java/com/dokugo/ui/dashboard/DashboardFragment.kt:100-106 | Suppose the model returns its smoothed-log feature and every point's features are floats. Then the chart's points are the history amounts themselves. |
| Dashboard.Entries | app/src/main/java/com/dokugo/ui/dashboard/DashboardFragment.kt:117-122 | One entry per prediction: entry i is at x = i + 1 with y equal to prediction i. |
| Dashboard.LabelStyleFor | app/src/main/java/com/dokugo/ui/dashboard/DashboardFragment.kt:146-151 | The date format of the labels matches the query the same range selects: weekday, day of month, day and month, or the full date. |
| Dashboard.TruncateToInt | app/src/main/java/com/dokugo/ui/dashboard/DashboardFragment.kt:140 | `Float.toInt` rounds toward zero. |
| Dashboard.FormatX | app/src/main/java/com/dokugo/ui/dashboard/DashboardFragment.kt:139-152 | A label is blank exactly when the truncated x is not 1 … count. Otherwise it names the day toInt(x) - 1 days ahead, in the range's style. |
| Dashboard.MaxOrZero | app/src/main/java/com/dokugo/ui/dashboard/DashboardFragment.kt:167 | The largest prediction, or 0 for none. |
| Dashboard.Ceil | app/src/main/java/com/dokugo/ui/dashboard/DashboardFragment.kt:168 | The least integer not below x. |
| Dashboard.LeftAxis | app/src/main/java/com/dokugo/ui/dashboard/DashboardFragment.kt:167-169 | The y axis starts at 0. Its top is a whole number of thousands, at least 5000 above every prediction and less than 6000 above the largest. |
| Dashboard.SetupLineChart | app/src/main/java/com/dokugo/ui/dashboard/DashboardFragment.kt:116-173 | One entry per prediction, and it requests one x label per prediction. The left axis starts at 0 and clears every prediction by at least 5000. |
| Dashboard.EntryLabels | app/src/main/java/com/dokugo/ui/dashboard/DashboardFragment.kt:116-157 | Entry i sits at x = i + 1 with the i-th prediction and is labelled i days ahead. There are as many labels as predictions. |
| Dashboard.DashboardFragment.constructor | app/src/main/java/com/dokugo/ui/dashboard/DashboardFragment.kt:29-51 | The fragment holds the database helper and prediction helper it is given, and no chart yet. |
| Dashboard.DashboardFragment.UpdateChart | app/src/main/java/com/dokugo/ui/dashboard/DashboardFragment.kt:90-114 | Empty history leaves the chart as it was. Otherwise the chart becomes the line chart of the per-amount forecasts of the selected history. |

## Left out

- Loading the model file from the app's assets (`loadModel`) and
  `close()` are not modelled: they are file and native-resource handling.
  The interpreter is built from a given model function.
- IEEE-754 single and double precision are not modelled; all arithmetic is
  on reals. This covers the `Float`/`Double` conversions, the rounding of
  `187.85f`, NaN and infinity, and `Float.toInt` saturation. `log1p`,
  `expm1`, `sin`, `cos` and π are abstract.
- `String.toFloat` is abstract (`FloatParser`); its grammar and its
  rounding are not modelled.
- Prediction.Interpreter.Run: TFLite's shape checks and native failures
  are not modelled. It requires the 40-byte input `predict` always passes,
  and it decodes that whole buffer whatever its position.
- Sqlite.Run: the scan order of a query without `ORDER BY` is taken as
  storage order, which SQLite does not promise. SinceWindow states only
  which rows are read. HistoricalInStorageOrder and the all-history clause
  of History state the storage order, so they rest on this assumption.
  Rows with equal dates keep storage order under `ORDER BY`, which SQLite
  does not promise either.
- Dates stored as text are modelled as day numbers. Text that is not
  `yyyy-MM-dd`, which SQLite would compare as strings, is not modelled.
- The clock is not modelled. `date('now')`, `LocalDate.now()` and
  `Calendar.getInstance()` become the `today` and `currentMonth`
  parameters. The month-name lookup of the current locale is not modelled.
- `SimpleDateFormat` rendering is not modelled. A label is its style and
  its number of days ahead, not the formatted text.
- The y-axis value formatter (`%.0f000` in the Indonesian locale) is not
  modelled. It is text rendering only.
- Colours, line width, grid lines, granularity, legend, the progress bar
  and the "No expenses data found." toast are not modelled. They are user
  interface effects with no data.
- Android logging (`Log.e`) and `cursor.close()` are not modelled. They
  have no effect on the results.
- `onCreate`, `onUpgrade`, `insertExpense` and `insertPrediction` are not
  modelled. The tables are given as the helper's contents.
- Dashboard.DashboardFragment.UpdateChart: `predict` cannot fail inside the
  loop, because every call gets a one-element list. The model therefore
  uses the success value directly, as the Kotlin code does.
