# Smart Energy Monitoring Dashboard — render-pass model

The dashboard in `app.py` loads a table of power-meter readings. The table has a
`Timestamp` column and one column of watt readings per appliance. On every
interaction the dashboard runs one render pass over that table:

1. **Column validation.** A table without a `Timestamp` column is rejected. So is
   a table whose only column is `Timestamp`.
2. **Device selection.** The device columns are all columns except `Timestamp`,
   in header order. The sidebar's "Device Type" choice `"All"` keeps every one of
   them. Any other choice keeps the columns whose label contains it as a
   case-sensitive substring. A choice that keeps nothing is rejected.
3. **Totals.** Each kept device gets a summary row:
   - its kWh is the sum of its readings divided by 1000, so each reading counts
     as one hour of draw;
   - its cost is that kWh times the tariff.
   The two KPI totals are the sums of these columns.
4. **Top consumers.** The summary rows are sorted by kWh, largest first, and the
   first three are shown.

The model is a set of pure functions over immutable data:

- The table is a sequence of `Column(name, values)`.
- Readings are exact reals.
- A rejection is an `Err` value of a `Result` datatype. The source instead
  shows a message and stops the script.

A `Timestamp` column may stand in any position; every other column is a device.

Modules:

- `DataFrame`: table, errors, result, granularity.
- `Seqs`: order-preserving selection, subsequences, sums.
- `Text`: Python's `in` on strings.
- `Validation`: stages 1 and 2.
- `Totals`: stage 3.
- `Ranking`: stage 4.
- `Dashboard`: the whole pass and the built-in sample table.

## Model

| member | source | states |
|---|---|---|
| Validation.Validate | app.py:52-60 | Returns `MissingTimestamp` exactly when no column is labelled `Timestamp`. Returns `NoDeviceColumns` exactly when there is a `Timestamp` column and no other column. Never returns the filter error. On success it yields the non-empty device-column sequence. |
| Validation.DeviceColumns | app.py:57 | The device columns are an order-preserving subsequence of the table's columns. A column belongs to it iff it is in the table and is not labelled `Timestamp`. It is empty iff every column is labelled `Timestamp`. Each device column occurs in it as often as in the table. |
| Validation.FilterDevices | app.py:63-67 | `"All"` returns the device columns unchanged. Any other choice succeeds iff some device label contains it; failure is `NoMatchingDevices(choice)`. A success is a non-empty order-preserving subsequence of the input. It holds exactly the matching columns, each with its original multiplicity. |
| Seqs.Select | app.py:64 | A list comprehension with a condition keeps the input's order (its result is a subsequence). It holds exactly the elements of the input that pass the test. |
| Seqs.SelectCount | app.py:64 | The comprehension keeps each passing element as often as it occurs in the input, and drops every failing one. |
| Text.ContainsSpec | app.py:64 | The substring test `device_type in col` holds iff the choice occurs at some position of the label. |
| Dashboard.SelectedDevices | app.py:52-67 | Covers validation and the filter together. Each of the three rejections happens under exactly its own condition. The filter rejection needs a timestamp column, at least one device column, a choice other than `"All"`, and no device label containing the choice. Any rejection is one of those three, and the filter rejection names the choice. A success is a non-empty order-preserving subsequence of the table's columns. It holds exactly the device columns for `"All"`, and otherwise exactly the device columns whose label contains the choice. |
| Totals.ToKwh | app.py:81 | The kWh value times 1000 gives back the watt-hours. It is non-negative for non-negative watt-hours. |
| Totals.Summarize | app.py:81-82 | The summary has one row per selected device, in device order. Row `i` is computed from device `i` alone: its label, the column's summed readings over 1000 as kWh, and that kWh times the tariff as cost. |
| Totals.TotalKwhIsReadingsOverThousand | app.py:81-83 | Total kWh times 1000 is the sum of every selected reading. |
| Totals.TotalCostIsTariffTimesTotalKwh | app.py:82-84 | Total cost equals tariff times total kWh. |
| Totals.TotalCostLinearInTariff | app.py:82-84 | Cost is linear in the tariff. Total cost at tariff `a + b` is the total cost at `a` plus the total cost at `b`. The total kWh is the same at every tariff. |
| Totals.EnergyIgnoresTariff | app.py:81-82 | The kWh column of the summary does not depend on the tariff. |
| Totals.RowNonNegative | app.py:81-82 | A device's kWh and cost are non-negative when its readings and the tariff are. |
| Totals.SummaryNonNegative | app.py:81-84 | With non-negative readings and a non-negative tariff (the tariff input's minimum, line 26), every row's kWh and cost and both totals are non-negative. |
| Ranking.Insert | app.py:122 | Inserting a row into a kWh-descending sequence keeps it descending. It adds exactly that row to the multiset of rows. It raises no upper bound the row itself respects. |
| Ranking.SortDescending | app.py:122 | The sort's output is in non-increasing kWh order and is a permutation of its input. |
| Ranking.TopConsumers | app.py:122 | The top table has exactly `min(3, rows)` rows, in non-increasing kWh order. Its rows are a sub-multiset of the summary's. No row left out has more kWh than any row shown. |
| Dashboard.Build | app.py:81-84 | The computed view carries the chosen time view and the summary of the selected devices. Its total kWh is the summary's kWh sum, and its total cost is tariff times total kWh. |
| Dashboard.Render | app.py:52-84 | A pass stops with `MissingTimestamp` exactly when no column is `Timestamp`. It stops with `NoDeviceColumns` exactly when `Timestamp` is the only kind of column. It stops with `NoMatchingDevices(choice)` exactly when there are device columns, the choice is not `"All"`, and no device label contains it. It succeeds exactly when device selection succeeds, and then its view is the one built from the selected devices, with at least one summary row. A stopped pass computes no totals. |
| Dashboard.GranularityDoesNotChangeTotals | app.py:70-84 | Whether a pass succeeds, and its summary and totals, are the same for every time view. |
| Dashboard.SummarizeCommutesWithFilter | app.py:63-82 | Summarising the filtered device columns gives the unfiltered summary with the non-matching devices' rows removed. |
| Dashboard.FilterKeepsUnfilteredRows | app.py:63-82 | When the table has a `Timestamp` column and some device column the choice keeps, the pass succeeds both with that choice and with `"All"`. For a choice other than `"All"`, the filtered summary is the `"All"` summary restricted to matching labels. So it is an order-preserving subsequence, and each device keeps the kWh and cost it has without the filter. |
| Dashboard.RenderNonNegative | app.py:81-84 | When device selection succeeds on non-negative readings and the tariff is non-negative, the pass succeeds and shows only non-negative energies, costs and totals. |
| Dashboard.SampleDeviceColumns | app.py:36-57 | On the built-in sample, the device columns are the four appliance columns after `Timestamp`. |
| Dashboard.SampleDevices | app.py:36-60 | The built-in sample passes column validation with those four columns. |
| Dashboard.SampleFanRow | app.py:42 | The fan's readings sum to 963 W. At tariff 8 its row shows 0.963 kWh at a cost of 7.704. |
| Dashboard.SampleScenario | app.py:36-84 | On the sample with `"All"` at the default tariff, the pass succeeds for every time view. It has four summary rows, and the fan's row comes first with 0.963 kWh and cost 7.704. |

## Left out

- Page setup, CSS and logo loading, sidebar widgets, KPI cards, tables and the footer (app.py:1-30, 86-100, 130-137). These are user interface only. The widgets' values are parameters of `Dashboard.Render`.
- The data-source choice and `pd.read_csv` (app.py:27-49). This is file I/O and CSV parsing; the model starts from the loaded table.
- `pd.to_datetime` and the unparsable-timestamp error (app.py:56). This is date parsing inside the library. Timestamps are kept as reals and are never read by the totals.
- `resample(...).mean()` for the four time views (app.py:70-78). It feeds only the line chart, and its calendar-anchored buckets are library behaviour. The time view is carried in the result, and `Dashboard.GranularityDoesNotChangeTotals` states that the totals ignore it.
- Plotly charts (app.py:102-118). These are rendering.
- The "Records" KPI (`len(df)`, app.py:91). It is a row count shown in the UI and does not take part in any check or total.
- The rounding (`.round(3)`, `.round(2)`, `:.2f`) and the UTF-8 CSV export of the summary (app.py:89-90, 97-98, 126-128). These are floating-point formatting and serialisation. The model uses exact reals throughout.
- pandas skipping NaN cells and non-numeric device columns. Every device column is taken to hold numbers.
- Ranking.TopConsumers: it ranks the exact kWh values. The source sorts the summary after rounding to three decimals, so devices whose kWh differ only past the third decimal may appear in another order there. The contract also does not fix the order of tied rows, because pandas' default sort is not stable.
- Dashboard.Render: the view does not hold the top-consumers table. That table is `Ranking.TopConsumers` applied to the view's summary.
