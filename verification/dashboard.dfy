/**
 One render pass of the dashboard with the UI removed: validate the table,
 apply the device-type filter, compute the summary and its totals, and rank
 the top consumers. Each rejection ends the pass with an error instead of a
 partial dashboard.
 */
module Dashboard {
  import opened DataFrame
  import opened Seqs
  import opened Text
  import opened Validation
  import opened Totals
  import opened Ranking

  /** What one render pass computes: the summary table, the KPI totals, and
      the time view the chart series is drawn at. The top-consumers table is
      derived from the summary by `TopConsumers`. */
  datatype View = View(
    granularity: Granularity,
    summary: seq<Row>,
    totalKwh: real,
    totalCost: real)

  /** The device columns a render pass works on: validation, then the filter. */
  function SelectedDevices(t: Table, choice: string): (r: Result<seq<Column>>)
    ensures r == Err(MissingTimestamp) <==> !HasTimestamp(t)
    ensures r == Err(NoDeviceColumns) <==>
              HasTimestamp(t) && forall c :: c in t.columns ==> c.name == TimestampLabel
    ensures r == Err(NoMatchingDevices(choice)) <==>
              && HasTimestamp(t)
              && (exists c :: c in t.columns && c.name != TimestampLabel)
              && choice != AllDevices
              && forall c :: c in t.columns && c.name != TimestampLabel ==> !Contains(c.name, choice)
    ensures r.Err? ==> r.error in {MissingTimestamp, NoDeviceColumns, NoMatchingDevices(choice)}
    ensures r.Ok? ==> |r.value| > 0 && IsSubseq(r.value, t.columns)
    ensures r.Ok? ==>
              forall c :: c in r.value <==>
                c in t.columns && IsDevice(c) && (choice == AllDevices || Contains(c.name, choice))
  {
    var devices :- Validate(t);
    var kept :- FilterDevices(devices, choice);
    SubseqTrans(kept, devices, t.columns);
    Ok(kept)
  }

  /** The tables and totals computed from the selected device columns. */
  function Build(devices: seq<Column>, granularity: Granularity, tariff: real): (v: View)
    ensures v.granularity == granularity
    ensures v.summary == Summarize(devices, tariff)
    ensures v.totalKwh == TotalKwh(v.summary)
    ensures v.totalCost == tariff * v.totalKwh
  {
    var summary := Summarize(devices, tariff);
    TotalCostIsTariffTimesTotalKwh(devices, tariff);
    View(granularity, summary, TotalKwh(summary), TotalCost(summary))
  }

  /** A full render pass for the given table, device-type choice, time view and
      tariff. It stops at the first failing check, computing no totals then;
      otherwise it shows the summary of the selected devices and its totals. */
  function Render(t: Table, choice: string, granularity: Granularity, tariff: real): (r: Result<View>)
    ensures r == Err(MissingTimestamp) <==> !HasTimestamp(t)
    ensures r == Err(NoDeviceColumns) <==>
              HasTimestamp(t) && forall c :: c in t.columns ==> c.name == TimestampLabel
    ensures r == Err(NoMatchingDevices(choice)) <==>
              && HasTimestamp(t)
              && (exists c :: c in t.columns && c.name != TimestampLabel)
              && choice != AllDevices
              && forall c :: c in t.columns && c.name != TimestampLabel ==> !Contains(c.name, choice)
    ensures r.Ok? <==> SelectedDevices(t, choice).Ok?
    ensures SelectedDevices(t, choice).Ok? ==>
              r == Ok(Build(SelectedDevices(t, choice).value, granularity, tariff))
    ensures r.Ok? ==> |r.value.summary| > 0
  {
    match SelectedDevices(t, choice)
    case Err(e) => Err(e)
    case Ok(devices) => Ok(Build(devices, granularity, tariff))
  }

  /** The time view only picks the chart's bucket width: whether the pass
      succeeds, and every table and total it computes, are the same for all four. */
  lemma GranularityDoesNotChangeTotals(t: Table, choice: string, g1: Granularity, g2: Granularity, tariff: real)
    ensures Render(t, choice, g1, tariff).Ok? <==> Render(t, choice, g2, tariff).Ok?
    ensures Render(t, choice, g1, tariff).Ok? ==>
              var v1, v2 := Render(t, choice, g1, tariff).value, Render(t, choice, g2, tariff).value;
              v1.summary == v2.summary && v1.totalKwh == v2.totalKwh && v1.totalCost == v2.totalCost
  {
  }

  /** The filter on summary rows that mirrors the filter on columns. */
  function RowMatcher(choice: string): Row -> bool
  {
    (r: Row) => Contains(r.device, choice)
  }

  /** Summarising the filtered columns gives the filtered summary: each row is
      computed from its own column only. */
  lemma {:induction false} SummarizeCommutesWithFilter(devices: seq<Column>, choice: string, tariff: real)
    ensures Summarize(Select(devices, Matcher(choice)), tariff) ==
            Select(Summarize(devices, tariff), RowMatcher(choice))
    decreases |devices|
  {
    if |devices| > 0 {
      var rows := Summarize(devices, tariff);
      assert rows[0] == RowFor(devices[0], tariff);
      assert rows[1..] == Summarize(devices[1..], tariff);
      SummarizeCommutesWithFilter(devices[1..], choice, tariff);
      if Matcher(choice)(devices[0]) {
        var kept := Select(devices, Matcher(choice));
        assert kept == [devices[0]] + Select(devices[1..], Matcher(choice));
        assert kept[1..] == Select(devices[1..], Matcher(choice));
      }
    }
  }

  /** Filtering by device type selects rows of the unfiltered summary: when the
      table has a timestamp column and a device column the choice keeps, the
      pass succeeds both with that choice and with "All",
      and the filtered summary is exactly the unfiltered one with non-matching devices
      dropped, so each device keeps the kWh and cost it has without the filter. */
  lemma FilterKeepsUnfilteredRows(t: Table, choice: string, granularity: Granularity, tariff: real)
    requires HasTimestamp(t)
    requires exists c :: c in t.columns && IsDevice(c) && (choice == AllDevices || Contains(c.name, choice))
    ensures Render(t, choice, granularity, tariff).Ok? && Render(t, AllDevices, granularity, tariff).Ok?
    ensures var filtered, all := Render(t, choice, granularity, tariff).value.summary,
                                 Render(t, AllDevices, granularity, tariff).value.summary;
            && (choice != AllDevices ==> filtered == Select(all, RowMatcher(choice)))
            && IsSubseq(filtered, all)
            && forall x :: x in filtered ==> x in all
  {
    var devices := DeviceColumns(t);
    SubseqRefl(Summarize(devices, tariff));
    if choice != AllDevices {
      SummarizeCommutesWithFilter(devices, choice, tariff);
    }
  }

  /** With non-negative readings and a non-negative tariff, a pass whose device
      selection succeeds shows only non-negative energies, costs and totals. */
  lemma RenderNonNegative(t: Table, choice: string, granularity: Granularity, tariff: real)
    requires forall c :: c in t.columns && c.name != TimestampLabel ==> NonNegative(c.values)
    requires tariff >= 0.0
    requires SelectedDevices(t, choice).Ok?
    ensures Render(t, choice, granularity, tariff).Ok?
    ensures var v := Render(t, choice, granularity, tariff).value;
            && v.totalKwh >= 0.0 && v.totalCost >= 0.0
            && forall x :: x in v.summary ==> x.kwh >= 0.0 && x.cost >= 0.0
  {
    var devices := SelectedDevices(t, choice).value;
    assert forall i :: 0 <= i < |devices| ==> devices[i] in devices;
    SummaryNonNegative(devices, tariff);
  }

  /** The built-in sample table: nine hourly readings, 08:00 to 16:00 on one
      day, of four appliances. The timestamps are written as hours since midnight. */
  const SampleTimes: Column := Column("Timestamp", [8.0, 9.0, 10.0, 11.0, 12.0, 13.0, 14.0, 15.0, 16.0])
  const SampleFan: Column := Column("Fan (W)", [120.0, 100.0, 130.0, 90.0, 110.0, 95.0, 105.0, 115.0, 98.0])
  const SampleLight: Column := Column("Light (W)", [60.0, 40.0, 70.0, 50.0, 65.0, 55.0, 45.0, 60.0, 52.0])
  const SampleFridge: Column := Column("Fridge (W)", [200.0, 220.0, 210.0, 230.0, 205.0, 215.0, 225.0, 210.0, 220.0])
  const SampleTv: Column := Column("TV (W)", [150.0, 160.0, 140.0, 170.0, 155.0, 145.0, 165.0, 150.0, 160.0])
  const Sample: Table := Table([SampleTimes, SampleFan, SampleLight, SampleFridge, SampleTv])

  /** On the sample, every column but the first is a device column. */
  lemma SampleDeviceColumns()
    ensures DeviceColumns(Sample) == Sample.columns[1..]
  {
    var cols := Sample.columns;
    assert Select(cols, IsDevice) == Select(cols[1..], IsDevice);
    assert forall c :: c in cols[1..] ==> IsDevice(c);
    SelectAll(cols[1..], IsDevice);
  }

  /** The sample passes column validation. */
  lemma SampleDevices()
    ensures Validate(Sample) == Ok(Sample.columns[1..])
  {
    assert Sample.columns[0] in Sample.columns;
    assert HasTimestamp(Sample);
    SampleDeviceColumns();
  }

  /** The fan's nine readings sum to 963 W, so its row at the default tariff
      of 8 shows 0.963 kWh costing 7.704. */
  lemma SampleFanRow()
    ensures RowFor(SampleFan, 8.0) == Row("Fan (W)", 0.963, 7.704)
  {
    assert Sum(SampleFan.values) == 963.0;
  }

  /** On the sample with "All" devices and the default tariff, the pass
      succeeds with one row per appliance, the fan's first. */
  lemma SampleScenario(granularity: Granularity)
    ensures Render(Sample, AllDevices, granularity, 8.0).Ok?
    ensures var v := Render(Sample, AllDevices, granularity, 8.0).value;
            && |v.summary| == 4
            && v.summary[0] == Row("Fan (W)", 0.963, 7.704)
  {
    SampleDevices();
    SampleFanRow();
  }
}
