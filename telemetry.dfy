/** The field refresh run after every dispatched action (`hardwareUpdateFields`). */
module Telemetry {
  import opened Fields

  /**
   * The three values the active branch computes from the wall clock (temperature, RPM, power).
   * Their formulas are not part of this model; they arrive as a parameter.
   */
  datatype Reading = Reading(temperature: real, rpm: int, power: int)

  /** The value written to field `i` (0, 1 or 2) by the active or the idle branch. */
  function RefreshValue(i: nat, active: bool, reading: Reading): Value
    requires i < 3
  {
    if active then [Real(reading.temperature), Int(reading.rpm), Int(reading.power)][i]
    else [Real(25.0), Int(0), Int(0)][i]
  }

  /** The field list has the same identifiers, names and types in the same order. */
  predicate SameLayout(a: seq<StateField>, b: seq<StateField>) {
    |a| == |b| && forall i :: 0 <= i < |a| ==> a[i].id == b[i].id && a[i].name == b[i].name && a[i].kind == b[i].kind
  }

  /** The refresh completes only on a list of at least three fields; on a shorter one it panics after the writes that fit. */
  predicate RefreshCompletes(fields: seq<StateField>) {
    |fields| >= 3
  }

  /**
   * The field list after the refresh: the values of fields 0, 1 and 2 (those that exist) are
   * overwritten in that order, and nothing else changes.
   */
  function Refreshed(fields: seq<StateField>, active: bool, reading: Reading): (r: seq<StateField>)
    ensures SameLayout(r, fields)
    ensures forall i :: 3 <= i < |fields| ==> r[i] == fields[i]
  {
    seq(|fields|, i requires 0 <= i < |fields| =>
      if i < 3 then fields[i].(value := RefreshValue(i, active, reading)) else fields[i])
  }

  /** An idle session, stopped or paused, shows 25.0 / 0 / 0 in its first three fields. */
  lemma IdleRefresh(fields: seq<StateField>, reading: Reading)
    requires RefreshCompletes(fields)
    ensures var r := Refreshed(fields, false, reading);
      r[0].value == Real(25.0) && r[1].value == Int(0) && r[2].value == Int(0)
  {
  }

  /** An active session shows the reading in its first three fields. */
  lemma ActiveRefresh(fields: seq<StateField>, reading: Reading)
    requires RefreshCompletes(fields)
    ensures var r := Refreshed(fields, true, reading);
      r[0].value == Real(reading.temperature) && r[1].value == Int(reading.rpm) && r[2].value == Int(reading.power)
  {
  }

  /** The layout relation composes, so it survives any number of refreshes. */
  lemma SameLayoutTransitive(a: seq<StateField>, b: seq<StateField>, c: seq<StateField>)
    requires SameLayout(a, b) && SameLayout(b, c)
    ensures SameLayout(a, c)
  {
  }
}
