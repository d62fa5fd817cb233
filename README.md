# Courier dashboard: record aggregation pipeline

A Dafny model of the computation inside the courier ("mensajería") dashboard
script `mensajeria.py`. The script loads delivery rows from a published
spreadsheet and filters them by a date range and a courier. It then shows
headline figures, a map of markers coloured by fee, an on-screen table of
day subtotals, and a PDF report with day subtotals and a period total.

The model works on rows that are already typed (`Records.Record`):

- an optional courier name (`Empleado`);
- an optional timestamp in seconds (`Fecha de llenar`);
- an optional payment (`Pago`, an exact `real`);
- optional latitude and longitude.

`Records.Columns` records whether the sheet has the date, courier and
payment columns. A missing date or courier column changes what the filter
and the day views do. A missing payment column changes what the on-screen
table does. A missing coordinate column behaves exactly like a column of
empty cells. `Records.Conforms` states that the rows hold no value in a
column the sheet lacks; only `Metrics.HeadlineWithoutPaymentColumn` needs
it.

Modules, one per component of the script:

- `Records` defines the rows, the calendar day of a timestamp (`t / 86400`,
  the date part of a naive local time) and the money sum, in which missing
  payments add 0.
- `Filtering` defines the date window, the row mask and the filter.
- `Zones` covers classification by fee (25 means inside the zone, 75 means
  outside, anything else is unclassified) and the map markers. The marker
  loop is a method.
- `Metrics` defines the four headline figures.
- `DayGrouping` sorts rows by timestamp and splits them into runs of one
  calendar day.
- `PdfReport` holds the PDF's day-subtotal walk. It is a method whose loop
  accumulates the check-in count and the general total.
- `ScreenSubtotals` builds the on-screen day table. Its `Checkins` column
  counts courier names, not rows.
- `CellText` holds the PDF header and cell truncation.
- `Employees` builds the entries of the courier selector.
- `Dashboard` composes the pipeline. It relates the views to each other and
  works through a three-row example.

Behaviour taken from the code:

- Grouping by day drops rows whose day key is missing. The report's
  `'Sin fecha'` title branch therefore never produces an undated bucket, and
  the model has none.
- Without a date column, every row's key is empty. The PDF then lists no day
  and totals 0 check-ins (`PdfReport.ReportWithoutDateColumnIsEmpty`), while
  the headline still counts every row.
- The on-screen table is not shown without a date column. Its aggregation
  names both the `Empleado` and the `Pago` columns, so a sheet missing either
  column fails there (`ScreenSubtotals.MissingColumns`).
- The zone is decided from the fee alone. The zone polygon is drawn on the
  map but never tested against coordinates.

## Model

| member | source | states |
|---|---|---|
| Records.Dated | mensajeria.py:244 | the dated rows are exactly the rows with a timestamp; grouping by the day key keeps only these |
| Records.DatedKeepsOrder | mensajeria.py:244 | the dated rows are an order-preserving subsequence of the rows that keeps every row with a timestamp as often as it occurs and no row without one |
| Records.PaymentTotalBounds | mensajeria.py:274 | rows without payments sum to 0 (pandas' sum skips missing values), and non-negative payments never sum below 0 |
| Records.PaymentTotalAppend | mensajeria.py:276 | the money of two runs of rows is the sum of their money, so per-day sums add up to the whole |
| Filtering.DayWindow | mensajeria.py:342-344 | a picked range starts exactly at midnight of the start day and ends at the last second of the end day |
| Filtering.ResolveWindow | mensajeria.py:341-347 | a complete picker range gives the whole-days window from its start day to its end day; an incomplete one gives the fallback window |
| Filtering.DefaultWindow | mensajeria.py:321-326 | with a date column and at least one timestamp, the range runs from a timestamp of the sheet to another and holds every timestamp; otherwise it is the thirty days up to now; its start never follows its end |
| Filtering.OpeningInput | mensajeria.py:328-333 | the picker opens holding a complete range whose start day does not follow its end day: the days of the sheet's earliest and latest timestamps when it has any |
| Filtering.Keep | mensajeria.py:349-353 | with a date column a kept row has a timestamp inside the window; with a courier column and a selection other than "Total" a kept row names the selected courier; with neither condition in force every row is kept |
| Filtering.DayWindowIsWholeDays | mensajeria.py:342-344 | a picked range runs from midnight of the start day to 23:59:59 of the end day: a timestamp is inside exactly when its calendar day lies between the two picked days |
| Filtering.DayWindowBoundary | mensajeria.py:344 | the last second of the end day is kept and the next second is not |
| Filtering.Earliest | mensajeria.py:322 | the default lower bound is a timestamp of the sheet and no timestamp is earlier |
| Filtering.Latest | mensajeria.py:323 | the default upper bound is a timestamp of the sheet and no timestamp is later |
| Filtering.Times | mensajeria.py:321-323 | the observed timestamps are exactly those of the dated rows |
| Filtering.DefaultWindowKeepsEveryDatedRow | mensajeria.py:321-326 | with the sheet's own earliest-to-latest window, a row passes the date condition if and only if it has a timestamp |
| Filtering.Filter | mensajeria.py:349-355 | a row is kept if and only if it is a sheet row that passes the mask: with a date column, a timestamp inside the window (a missing timestamp never matches); and the selection is "Total", or there is no courier column, or the courier equals the selection exactly |
| Filtering.FilterKeepsMultiplicity | mensajeria.py:355 | each row that passes the mask is kept as often as it occurs in the sheet, and no other row is |
| Filtering.FilterIsSubsequence | mensajeria.py:355 | the filtered rows are an order-preserving subsequence of the sheet, each row unchanged |
| Filtering.FilterTotalIsDateOnly | mensajeria.py:352-353 | selecting "Total" applies only the date condition |
| Filtering.FilteredRowsAreDated | mensajeria.py:350-351 | with a date column, every filtered row has a timestamp inside the window |
| Filtering.FilterIdempotent | mensajeria.py:349-355 | filtering the filtered rows again changes nothing |
| Zones.Classify | mensajeria.py:119-126 | a present payment of 25 is in the zone and one of 75 is outside; everything else, a missing payment included, is unclassified; the three cases are exclusive |
| Zones.ZoneColor | mensajeria.py:121-126 | in-zone markers are green, out-of-zone markers red and unclassified ones gray, each colour for one zone only |
| Zones.ZoneTooltip | mensajeria.py:121-126 | the tooltip of an in-zone marker ends in "($25)", of an out-of-zone one in "($75)", and an unclassified one names no fee |
| Zones.Located | mensajeria.py:93-99 | the rows kept for the map are exactly those with both latitude and longitude |
| Zones.LocatedKeepsOrder | mensajeria.py:97 | the rows kept for the map are an order-preserving subsequence of the rows that keeps every row with both latitude and longitude as often as it occurs and no other row |
| Zones.CreateMap | mensajeria.py:91-164 | no map when no row has both coordinates; otherwise exactly one marker per located row, in order, at its coordinates and classified by its payment |
| Metrics.Headline | mensajeria.py:362-371 | the delivery count is the number of filtered rows and the 25 and 75 counts together never exceed it |
| Metrics.CountPayment | mensajeria.py:367-370 | a fee count never exceeds the rows, and is 0 exactly when no row carries that fee |
| Metrics.ZoneCountsMatchFees | mensajeria.py:119-126 | the headline 25/75 counts equal the number of rows the classification puts in and out of the zone |
| Metrics.MapZonesWithinHeadline | mensajeria.py:97-126 | the map's in-zone (out-of-zone) markers never outnumber the headline 25 (75) count, and match it when every row has both coordinates |
| Metrics.HeadlineWithoutPaymentColumn | mensajeria.py:365-370 | without a 'Pago' column the headline amount and both fee counts are 0 |
| Metrics.ZonesPartitionRows | mensajeria.py:120-126 | in-zone, out-of-zone and unclassified rows add up to all rows |
| Metrics.HeadlinePartition | mensajeria.py:367-370 | v25 + v75 + unclassified equals the headline delivery count |
| DayGrouping.InsertByTime | mensajeria.py:233 | inserting a row yields the old rows plus that row, as a multiset |
| DayGrouping.InsertKeepsSorted | mensajeria.py:233 | inserting into a timestamp-sorted sequence keeps it sorted |
| DayGrouping.SortByTime | mensajeria.py:232-233 | the sorted rows are a permutation of the input |
| DayGrouping.SortIsSorted | mensajeria.py:232-233 | the sorted rows are in ascending timestamp order, and dated input stays dated |
| DayGrouping.AtTimeInsert | mensajeria.py:233 | inserting a row places it before every row already there with the same timestamp, and leaves the other rows of that timestamp in order |
| DayGrouping.SortStable | mensajeria.py:233 | for every timestamp and every input, the rows with that timestamp appear in the sorted rows in the same order as in the sheet |
| DayGrouping.PaymentTotalSort | mensajeria.py:233 | sorting does not change the money total |
| DayGrouping.GroupByDay | mensajeria.py:237-244 | there are no groups exactly when there are no rows, and the first group is the day of the first row |
| DayGrouping.GroupByDayFlattens | mensajeria.py:244 | the groups, one after another, are exactly the sorted rows |
| DayGrouping.GroupByDayWellFormed | mensajeria.py:244 | every group is non-empty and holds only dated rows of its own day |
| DayGrouping.GroupByDayAscending | mensajeria.py:244 | group days strictly ascend, so no day has two groups |
| DayGrouping.RowInExactlyOneGroup | mensajeria.py:236-244 | every dated row is in exactly one group, the group of its own day |
| DayGrouping.DayGroups | mensajeria.py:399-401 | there is a day group exactly when some row is dated |
| DayGrouping.DayGroupsCover | mensajeria.py:236-244 | the day groups hold every dated row and its money, and nothing else |
| DayGrouping.DayGroupsOrdered | mensajeria.py:244 | the day groups are non-empty and in strictly ascending date order |
| PdfReport.KeyedRows | mensajeria.py:236-239 | the rows with a day key are the dated rows with a date column, and none without one |
| PdfReport.ReportGroups | mensajeria.py:232-244 | with a date column the report walks the same day groups as the on-screen table |
| PdfReport.ReportGroupsCover | mensajeria.py:232-244 | the report's groups hold the dated rows and their money with a date column, and nothing without one |
| PdfReport.ReportGroupsOrdered | mensajeria.py:244 | the report visits non-empty days in strictly ascending date order |
| PdfReport.ReportTotals | mensajeria.py:231-283 | one subtotal per day group, in strictly ascending date order, each counting the day's rows and summing its payments; the accumulated total_checkins and total_general are the sums of the subtotals, and equal the number of dated rows and their money (missing payments adding 0) |
| PdfReport.WalkDays | mensajeria.py:241-277 | the day loop emits one subtotal per group, in order, with the group's row count and money; the accumulated check-ins and general total are the sums of the subtotals and equal the number and money of all the grouped rows |
| PdfReport.ReportWithoutDateColumnIsEmpty | mensajeria.py:238-244 | without a date column every day key is empty, so grouping drops every row and the report lists no day at all |
| ScreenSubtotals.NamedCount | mensajeria.py:402 | the named rows never outnumber the rows |
| ScreenSubtotals.NamedCountBound | mensajeria.py:402 | named rows never outnumber rows, and equal them exactly when every row has a courier |
| ScreenSubtotals.ScreenSumsFlatten | mensajeria.py:409-410 | the period line's check-ins and money are the named rows and money of all the grouped rows |
| ScreenSubtotals.NamedCountSort | mensajeria.py:402 | sorting the rows by timestamp does not change how many name their courier |
| ScreenSubtotals.ScreenRows | mensajeria.py:401-404 | one table line per day group, with that day, its named-row count and its money |
| ScreenSubtotals.OnScreenSubtotals | mensajeria.py:397-404 | the table is hidden exactly without a date column, fails exactly when the courier or payment column is missing (naming those columns), and otherwise has one line per day |
| ScreenSubtotals.ScreenTotals | mensajeria.py:397-411 | the shown table's days strictly ascend; its check-in total is at most the number of dated rows, and equal to it exactly when every dated row names its courier; its money total is that of the dated rows |
| CellText.HeaderText | mensajeria.py:185 | a printed header is at most 31 characters, unchanged when it fits, otherwise its first 28 characters and "..." |
| CellText.RowText | mensajeria.py:193-195 | a printed cell is at most 48 characters: `None` prints as "", a text of at most 45 characters is unchanged, a longer one keeps 45 characters and gains "..." |
| CellText.HeaderCells | mensajeria.py:184-186 | one header cell per (title, width) pair, as far as both lists go, each within the 31-character bound |
| CellText.RowCells | mensajeria.py:192-196 | one row cell per (value, width) pair, as far as both lists go, each within the 48-character bound |
| Employees.StrLessIrreflexive | mensajeria.py:338 | no name sorts before itself |
| Employees.StrLessTotal | mensajeria.py:338 | of two different names, one sorts before the other |
| Employees.StrLessTransitive | mensajeria.py:338 | the name order is transitive |
| Employees.AscendingIsDistinct | mensajeria.py:338 | a strictly ascending list has no repeated name |
| Employees.InsertName | mensajeria.py:338 | adding a name keeps the list strictly ascending and adds exactly that name |
| Employees.Names | mensajeria.py:337-338 | the names are strictly ascending; every courier name that is not blank after stripping is listed, and every listed name is a non-blank courier name of the sheet |
| Employees.SelectorEntries | mensajeria.py:336-338 | the selector starts with "Total", and the remaining entries are distinct, ascending and non-blank |
| Dashboard.ReportAgreesWithHeadline | mensajeria.py:231-277 | with a date column, the PDF's check-in total and general total are the headline delivery count and amount |
| Dashboard.ScreenAgreesWithHeadline | mensajeria.py:397-411 | the on-screen period check-ins are at most the headline deliveries, and equal them exactly when every filtered row names its courier; the period amount is the headline amount |
| Dashboard.FilterTotalKeepsDatedInWindow | mensajeria.py:349-355 | with "Total" and a window holding every timestamp, the filter keeps exactly the dated rows, in order |
| Dashboard.OpeningViewIsDatedRows | mensajeria.py:321-355 | with the range the picker opens on and "Total", the filtered rows are exactly the dated rows of the sheet |
| Dashboard.FallbackViewIsDatedRows | mensajeria.py:345-355 | with the fallback window used when the picker holds no complete range, and "Total", the filtered rows are exactly the dated rows of the sheet |
| Dashboard.ExampleFilter | mensajeria.py:342-355 | two deliveries by Ana on 1 January 2024 and one by Luis on the 2nd: filtering 1 January for every courier keeps Ana's two |
| Dashboard.ExampleHeadline | mensajeria.py:362-371 | for those two rows: 2 deliveries, 100 collected, one at 25 and one at 75 |
| Dashboard.ExampleDays | mensajeria.py:231-283 | for those two rows, both day views show the single day 1 January with 2 check-ins and 100 |

## Left out

- Loading (`cargar_datos`) is not modelled: the network fetch, the five-minute cache, the error messages and the empty frame on failure are I/O. So is the parsing of text into dates and numbers. Rows arrive already typed, with fully empty rows already dropped.
- Streamlit page and widget code is not modelled. It is UI. This covers the date picker's minimum and maximum, the selector, `st.stop` and the button that generates the PDF. The picker's content is the `DateInput` parameter and the clock is the `now` parameter.
- Folium map construction is not modelled: the map centre (a mean of floats), popups, the legend HTML and the polygon drawing. The polygon coordinates are never used in a computation. The model keeps only each marker's position and zone, from which its colour and tooltip follow (`Zones.ZoneColor`, `Zones.ZoneTooltip`).
- PDF layout is not modelled: fonts, cell heights, the title lines, the page break at `get_y() > 265`, the temporary file and the download. The text of a non-string cell is also left out: a date printed as `%d/%m/%Y %H:%M`, and a number printed as `str(v)`. Every empty cell of the loaded sheet, in any column, reaches the cell helper as pandas NaN and prints as `nan`; only a literal `None` prints as an empty cell. Cells are modelled as optional strings, and the model's `None` stands for a literal `None` only.
- Currency formatting and float rounding are not modelled. Amounts are exact reals, so sums are exact.
- The alignment of pandas indexes between the fresh `0..n-1` mask and the possibly gapped index left by `dropna` is not modelled. The mask is applied positionally.
- DayGrouping.SortByTime: pandas' default sort is not stable. The model's insertion sort places a row before later rows with the same timestamp (`DayGrouping.SortStable`, for every input), which is one of the orders pandas may produce. Only the order of rows inside a day depends on this, and no count or sum does.
- ScreenSubtotals.OnScreenSubtotals: pandas groups without sorting the rows first. The model reuses the sorted day groups, so inside a day the order may differ. The table shows only per-day counts and sums, which do not depend on that order.
- Employees.Names: the model uses strings for courier names. In the source a non-string cell would be compared through `str(x)` for the blank test.
