/**
 The first two stages of a render pass: checking the table's columns and
 choosing the device columns the sidebar's device-type filter keeps.
 */
module Validation {
  import opened DataFrame
  import opened Seqs
  import opened Text

  /** The table has a column labelled `Timestamp`. */
  predicate HasTimestamp(t: Table)
  {
    exists c :: c in t.columns && c.name == TimestampLabel
  }

  /** A device column is any column other than the timestamp column. */
  predicate IsDevice(c: Column)
  {
    c.name != TimestampLabel
  }

  /** The device columns, in header order. */
  function DeviceColumns(t: Table): (d: seq<Column>)
    ensures IsSubseq(d, t.columns)
    ensures forall c :: c in d <==> c in t.columns && c.name != TimestampLabel
    ensures |d| == 0 <==> forall c :: c in t.columns ==> c.name == TimestampLabel
    ensures forall c :: multiset(d)[c] == if IsDevice(c) then multiset(t.columns)[c] else 0
  {
    var d := Select(t.columns, IsDevice);
    assert |d| > 0 ==> d[0] in d;
    SelectCount(t.columns, IsDevice);
    d
  }

  /** Column validation: reject a table without a timestamp column, then one
      without any device column; otherwise yield the device columns. */
  function Validate(t: Table): (r: Result<seq<Column>>)
    ensures r == Err(MissingTimestamp) <==> !HasTimestamp(t)
    ensures r == Err(NoDeviceColumns) <==>
              HasTimestamp(t) && forall c :: c in t.columns ==> c.name == TimestampLabel
    ensures r.Err? ==> !r.error.NoMatchingDevices?
    ensures r.Ok? ==> r.value == DeviceColumns(t) && |r.value| > 0
  {
    if !HasTimestamp(t) then Err(MissingTimestamp)
    else
      var devices := DeviceColumns(t);
      if |devices| == 0 then Err(NoDeviceColumns) else Ok(devices)
  }

  /** The device-type filter: a case-sensitive substring test on the column label. */
  function Matcher(choice: string): Column -> bool
  {
    (c: Column) => Contains(c.name, choice)
  }

  /** The device-type filter stage. "All" keeps every device column; any other
      choice keeps the columns whose label contains it, and keeping none is an error. */
  function FilterDevices(devices: seq<Column>, choice: string): (r: Result<seq<Column>>)
    ensures choice == AllDevices ==> r == Ok(devices)
    ensures choice != AllDevices ==>
              (r.Ok? <==> exists c :: c in devices && Contains(c.name, choice))
    ensures r.Err? ==> r.error == NoMatchingDevices(choice)
    ensures r.Ok? ==> IsSubseq(r.value, devices)
    ensures r.Ok? && choice != AllDevices ==>
              && |r.value| > 0
              && (forall c :: c in r.value <==> c in devices && Contains(c.name, choice))
              && forall c :: multiset(r.value)[c] == if Contains(c.name, choice) then multiset(devices)[c] else 0
  {
    if choice == AllDevices then
      SubseqRefl(devices);
      Ok(devices)
    else
      var kept := Select(devices, Matcher(choice));
      if |kept| == 0 then
        assert forall c :: c in devices ==> !Matcher(choice)(c);
        Err(NoMatchingDevices(choice))
      else
        assert kept[0] in kept;
        SelectCount(devices, Matcher(choice));
        Ok(kept)
  }
}
