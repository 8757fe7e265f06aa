/**
 * An external accessory (for example a MagSafe battery pack), normalised from
 * one dictionary of the "AccessoryDetails" array.
 */
module RawAccessory {
  import opened Wrappers
  import opened Variant

  datatype AccessoryDetails = AccessoryDetails(
    currentCapacity: Option<int>,
    isCharging: Option<bool>,
    externalConnected: Option<bool>)

  /** `AccessoryDetails(dict:)` */
  function ParseAccessoryDetails(d: Dict): (r: AccessoryDetails) {
    AccessoryDetails(IntAt(d, "CurrentCapacity"), Some(IsOneAt(d, "IsCharging")), Some(IsOneAt(d, "ExternalConnected")))
  }

  /**
   * The capacity is the Int under its key or absent; the two flags are never
   * absent and hold exactly when their key holds the Int 1.
   */
  lemma AccessoryFields(d: Dict)
    ensures var a := ParseAccessoryDetails(d);
      && (a.currentCapacity.Some? <==> "CurrentCapacity" in d && d["CurrentCapacity"].IntV?)
      && (a.currentCapacity.Some? ==> d["CurrentCapacity"] == IntV(a.currentCapacity.value))
      && a.isCharging.Some? && a.externalConnected.Some?
      && (a.isCharging.value <==> "IsCharging" in d && d["IsCharging"] == IntV(1))
      && (a.externalConnected.value <==> "ExternalConnected" in d && d["ExternalConnected"] == IntV(1))
  {
  }

  /** An empty dictionary gives (absent, false, false). */
  lemma AccessoryFromEmpty()
    ensures ParseAccessoryDetails(map[]) == AccessoryDetails(None, Some(false), Some(false))
  {
  }
}
