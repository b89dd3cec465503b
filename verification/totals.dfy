/**
 Energy and cost totals: each device's kWh is the sum of its watt readings
 divided by 1000 (every reading stands for one hour of draw), its cost is
 kWh times the tariff, and the grand totals add these up over the selected
 devices. The summary table holds one row per selected device.
 */
module Totals {
  import opened DataFrame
  import opened Seqs

  /** Watt-hours to kilowatt-hours. Each reading is taken to stand for one
      hour of draw, so a column's summed watts are its watt-hours. */
  function ToKwh(wattHours: real): (kwh: real)
    ensures kwh * 1000.0 == wattHours
    ensures wattHours >= 0.0 ==> kwh >= 0.0
  {
    wattHours / 1000.0
  }

  /** One summary row: the device's label, its energy in kWh and its cost. */
  datatype Row = Row(device: string, kwh: real, cost: real)

  /** A device's energy over the whole table. */
  function Energy(c: Column): real
  {
    ToKwh(Sum(c.values))
  }

  /** The summary row of one device column. */
  function RowFor(c: Column, tariff: real): Row
  {
    Row(c.name, Energy(c), Energy(c) * tariff)
  }

  /** The summary table for the selected device columns: one row per column,
      in column order, each computed from that column alone. */
  function Summarize(devices: seq<Column>, tariff: real): (rows: seq<Row>)
    ensures |rows| == |devices|
    ensures forall i :: 0 <= i < |devices| ==> rows[i] == RowFor(devices[i], tariff)
    decreases |devices|
  {
    if |devices| == 0 then []
    else [RowFor(devices[0], tariff)] + Summarize(devices[1..], tariff)
  }

  /** The kWh column of a summary. */
  function Kwhs(rows: seq<Row>): (r: seq<real>)
    ensures |r| == |rows|
    ensures forall i :: 0 <= i < |rows| ==> r[i] == rows[i].kwh
    decreases |rows|
  {
    if |rows| == 0 then [] else [rows[0].kwh] + Kwhs(rows[1..])
  }

  /** The cost column of a summary. */
  function Costs(rows: seq<Row>): (r: seq<real>)
    ensures |r| == |rows|
    ensures forall i :: 0 <= i < |rows| ==> r[i] == rows[i].cost
    decreases |rows|
  {
    if |rows| == 0 then [] else [rows[0].cost] + Costs(rows[1..])
  }

  function TotalKwh(rows: seq<Row>): real
  {
    Sum(Kwhs(rows))
  }

  function TotalCost(rows: seq<Row>): real
  {
    Sum(Costs(rows))
  }

  /** Every reading of every selected device, device after device. */
  function AllReadings(devices: seq<Column>): seq<real>
    decreases |devices|
  {
    if |devices| == 0 then [] else devices[0].values + AllReadings(devices[1..])
  }

  /** Total cost is the tariff times total energy. */
  lemma {:induction false} TotalCostIsTariffTimesTotalKwh(devices: seq<Column>, tariff: real)
    ensures TotalCost(Summarize(devices, tariff)) == tariff * TotalKwh(Summarize(devices, tariff))
    decreases |devices|
  {
    if |devices| > 0 {
      var rows, rest := Summarize(devices, tariff), Summarize(devices[1..], tariff);
      assert rows[1..] == rest;
      TotalCostIsTariffTimesTotalKwh(devices[1..], tariff);
      var energy, restEnergy := rows[0].kwh, TotalKwh(rest);
      assert rows[0].cost == energy * tariff;
      assert TotalCost(rows) == energy * tariff + tariff * restEnergy;
      assert TotalKwh(rows) == energy + restEnergy;
      assert energy * tariff + tariff * restEnergy == tariff * (energy + restEnergy);
    }
  }

  /** Cost is linear in the tariff: the summary at tariff `a + b` costs the sum
      of the costs at `a` and at `b`, and its energy does not change. */
  lemma TotalCostLinearInTariff(devices: seq<Column>, a: real, b: real)
    ensures TotalKwh(Summarize(devices, a + b)) == TotalKwh(Summarize(devices, a))
    ensures TotalCost(Summarize(devices, a + b)) ==
              TotalCost(Summarize(devices, a)) + TotalCost(Summarize(devices, b))
  {
    EnergyIgnoresTariff(devices, a, a + b);
    EnergyIgnoresTariff(devices, b, a + b);
    var energy := TotalKwh(Summarize(devices, a + b));
    assert TotalKwh(Summarize(devices, a)) == energy == TotalKwh(Summarize(devices, b));
    TotalCostIsTariffTimesTotalKwh(devices, a);
    TotalCostIsTariffTimesTotalKwh(devices, b);
    TotalCostIsTariffTimesTotalKwh(devices, a + b);
    assert (a + b) * energy == a * energy + b * energy;
  }

  /** The tariff changes costs only, never energies. */
  lemma EnergyIgnoresTariff(devices: seq<Column>, a: real, b: real)
    ensures Kwhs(Summarize(devices, a)) == Kwhs(Summarize(devices, b))
  {
    var ka, kb := Kwhs(Summarize(devices, a)), Kwhs(Summarize(devices, b));
    assert forall i :: 0 <= i < |ka| ==> ka[i] == Energy(devices[i]) == kb[i];
  }

  /** Total energy is the sum of all selected readings divided by 1000. */
  lemma {:induction false} TotalKwhIsReadingsOverThousand(devices: seq<Column>, tariff: real)
    ensures TotalKwh(Summarize(devices, tariff)) * 1000.0 == Sum(AllReadings(devices))
    decreases |devices|
  {
    if |devices| > 0 {
      var rows := Summarize(devices, tariff);
      assert rows[1..] == Summarize(devices[1..], tariff);
      assert Kwhs(rows) == [rows[0].kwh] + Kwhs(rows[1..]);
      TotalKwhIsReadingsOverThousand(devices[1..], tariff);
      SumAppend(devices[0].values, AllReadings(devices[1..]));
    }
  }

  predicate ReadingsNonNegative(devices: seq<Column>)
  {
    forall i :: 0 <= i < |devices| ==> NonNegative(devices[i].values)
  }

  /** One device's row is non-negative when its readings and the tariff are. */
  lemma RowNonNegative(c: Column, tariff: real)
    requires NonNegative(c.values) && tariff >= 0.0
    ensures RowFor(c, tariff).kwh >= 0.0 && RowFor(c, tariff).cost >= 0.0
  {
    SumNonNegative(c.values);
  }

  /** With non-negative readings and a non-negative tariff (the tariff input's
      minimum is 0), every energy and cost, and both totals, are non-negative. */
  lemma SummaryNonNegative(devices: seq<Column>, tariff: real)
    requires ReadingsNonNegative(devices)
    requires tariff >= 0.0
    ensures forall r :: r in Summarize(devices, tariff) ==> r.kwh >= 0.0 && r.cost >= 0.0
    ensures TotalKwh(Summarize(devices, tariff)) >= 0.0
    ensures TotalCost(Summarize(devices, tariff)) >= 0.0
  {
    var rows := Summarize(devices, tariff);
    forall i | 0 <= i < |rows|
      ensures rows[i].kwh >= 0.0 && rows[i].cost >= 0.0
    {
      RowNonNegative(devices[i], tariff);
    }
    SumNonNegative(Kwhs(rows));
    SumNonNegative(Costs(rows));
  }
}
