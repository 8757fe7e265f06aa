/**
 * Lifetime extremes of the battery (temperatures, currents, pack voltages,
 * Qmax, operating time), normalised from a dictionary of Ints.
 */
module RawLifetime {
  import opened Wrappers
  import opened Variant

  datatype LifetimeData = LifetimeData(
    averageTemperature: Option<int>,
    maximumTemperature: Option<int>,
    minimumTemperature: Option<int>,
    cycleCountLastQmax: Option<int>,
    maximumChargeCurrent: Option<int>,
    maximumDischargeCurrent: Option<int>,
    maximumPackVoltage: Option<int>,
    minimumPackVoltage: Option<int>,
    maximumQmax: Option<int>,
    minimumQmax: Option<int>,
    totalOperatingTime: Option<int>)

  /** The dictionary key of each field, in declaration order. */
  const LifetimeKeys: seq<string> := [
    "AverageTemperature", "MaximumTemperature", "MinimumTemperature", "CycleCountLastQmax",
    "MaximumChargeCurrent", "MaximumDischargeCurrent", "MaximumPackVoltage", "MinimumPackVoltage",
    "MaximumQmax", "MinimumQmax", "TotalOperatingTime"]

  /** `LifetimeData(dict:)`: eleven independent casts, no range checks. */
  function ParseLifetimeData(d: Dict): (r: LifetimeData) {
    LifetimeData(
      IntAt(d, "AverageTemperature"), IntAt(d, "MaximumTemperature"), IntAt(d, "MinimumTemperature"),
      IntAt(d, "CycleCountLastQmax"), IntAt(d, "MaximumChargeCurrent"), IntAt(d, "MaximumDischargeCurrent"),
      IntAt(d, "MaximumPackVoltage"), IntAt(d, "MinimumPackVoltage"), IntAt(d, "MaximumQmax"),
      IntAt(d, "MinimumQmax"), IntAt(d, "TotalOperatingTime"))
  }

  /** Field number `j` of a record, in declaration order. */
  function Field(l: LifetimeData, j: nat): Option<int>
    requires j < 11
  {
    match j
    case 0 => l.averageTemperature
    case 1 => l.maximumTemperature
    case 2 => l.minimumTemperature
    case 3 => l.cycleCountLastQmax
    case 4 => l.maximumChargeCurrent
    case 5 => l.maximumDischargeCurrent
    case 6 => l.maximumPackVoltage
    case 7 => l.minimumPackVoltage
    case 8 => l.maximumQmax
    case 9 => l.minimumQmax
    case _ => l.totalOperatingTime
  }

  lemma LifetimeKeysDistinct()
    ensures |LifetimeKeys| == 11
    ensures forall i, j :: 0 <= i < j < 11 ==> LifetimeKeys[i] != LifetimeKeys[j]
  {
  }

  lemma {:induction false} FieldReadsItsKey(d: Dict, j: nat)
    requires j < 11
    ensures Field(ParseLifetimeData(d), j) == IntAt(d, LifetimeKeys[j])
  {
    match j
    case 0 => case 1 => case 2 => case 3 => case 4 => case 5 =>
    case 6 => case 7 => case 8 => case 9 => case _ =>
  }

  /**
   * Every field is the Int stored under its own key, whatever its value
   * (negative or extreme values pass through), and is absent otherwise.
   */
  lemma LifetimeFields(d: Dict)
    ensures forall j :: 0 <= j < 11 ==>
      (Field(ParseLifetimeData(d), j).Some? <==> LifetimeKeys[j] in d && d[LifetimeKeys[j]].IntV?)
    ensures forall j, v :: 0 <= j < 11 && LifetimeKeys[j] in d && d[LifetimeKeys[j]] == IntV(v) ==>
      Field(ParseLifetimeData(d), j) == Some(v)
  {
    forall j | 0 <= j < 11 {
      FieldReadsItsKey(d, j);
    }
  }

  /** An empty dictionary leaves every field absent. */
  lemma LifetimeFromEmpty()
    ensures forall j :: 0 <= j < 11 ==> Field(ParseLifetimeData(map[]), j) == None
  {
    forall j | 0 <= j < 11 {
      FieldReadsItsKey(map[], j);
    }
  }

  /** Rewriting one key changes at most the field read from that key. */
  lemma LifetimeKeyIndependence(d: Dict, key: string, v: Value)
    ensures forall j :: 0 <= j < 11 && LifetimeKeys[j] != key ==>
      Field(ParseLifetimeData(d[key := v]), j) == Field(ParseLifetimeData(d), j)
  {
    forall j | 0 <= j < 11 && LifetimeKeys[j] != key
      ensures Field(ParseLifetimeData(d[key := v]), j) == Field(ParseLifetimeData(d), j)
    {
      FieldReadsItsKey(d, j);
      FieldReadsItsKey(d[key := v], j);
    }
  }
}
