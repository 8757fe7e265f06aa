/**
 * The raw battery snapshot, normalised from the telemetry dictionary.  Every
 * field is optional: absence means "not reported", never an error.
 *
 * The parsers of the "ChargerData", "BatteryData" and "KioskMode"
 * sub-dictionaries are not part of this model: the charger parser is a
 * parameter, and the other two records are kept as the sub-dictionary they
 * would be built from (the core only tests whether they are present).
 */
module RawBatteryInfo {
  import opened Wrappers
  import opened Variant
  import opened RawAdapter
  import opened RawAccessory

  /** The charger readings the display items use. */
  datatype ChargerData = ChargerData(
    notChargingReason: Option<int>,
    chargingVoltage: Option<int>,
    chargingCurrent: Option<int>,
    vacVoltageLimit: Option<int>)

  datatype BatteryRawInfo = BatteryRawInfo(
    updateTime: Option<int>,
    batteryInstalled: Option<int>,
    bootPathUpdated: Option<int>,
    bootVoltage: Option<int>,
    serialNumber: Option<string>,
    voltage: Option<int>,
    instantAmperage: Option<int>,
    currentCapacity: Option<int>,
    appleRawCurrentCapacity: Option<int>,
    designCapacity: Option<int>,
    nominalChargeCapacity: Option<int>,
    isCharging: Option<bool>,
    cycleCount: Option<int>,
    temperature: Option<int>,
    batteryData: Option<Dict>,
    kioskMode: Option<Dict>,
    bestAdapterIndex: Option<int>,
    adapterDetails: Option<AdapterDetails>,
    accessoryDetails: Option<AccessoryDetails>,
    appleRawAdapterDetails: seq<AdapterDetails>,
    chargerData: Option<ChargerData>,
    maximumCapacity: Option<string>)

  /** `accessoryArray.first`, parsed; absent for a missing key or an empty array. */
  function FirstAccessory(d: Dict): (r: Option<AccessoryDetails>) {
    match DictArrayAt(d, "AccessoryDetails")
    case Some(arr) => if |arr| > 0 then Some(ParseAccessoryDetails(arr[0])) else None
    case None => None
  }

  /** `rawAdapterArray.map { AdapterDetails(dict: $0) }`, or empty. */
  function RawAdapters(d: Dict): (r: seq<AdapterDetails>) {
    match DictArrayAt(d, "AppleRawAdapterDetails")
    case Some(arr) => seq(|arr|, k requires 0 <= k < |arr| => ParseAdapterDetails(arr[k]))
    case None => []
  }

  /** `BatteryRAWInfo(dict:)`: total; never sets `maximumCapacity`. */
  function ParseBatteryRawInfo(d: Dict, parseCharger: Dict -> ChargerData): (r: BatteryRawInfo) {
    BatteryRawInfo(
      updateTime := IntAt(d, "UpdateTime"),
      batteryInstalled := IntAt(d, "BatteryInstalled"),
      bootPathUpdated := IntAt(d, "BootPathUpdated"),
      bootVoltage := IntAt(d, "BootVoltage"),
      serialNumber := StringAt(d, "Serial"),
      voltage := IntAt(d, "Voltage"),
      instantAmperage := IntAt(d, "InstantAmperage"),
      currentCapacity := IntAt(d, "CurrentCapacity"),
      appleRawCurrentCapacity := IntAt(d, "AppleRawCurrentCapacity"),
      designCapacity := IntAt(d, "DesignCapacity"),
      nominalChargeCapacity := IntAt(d, "NominalChargeCapacity"),
      isCharging := Some(IsOneAt(d, "IsCharging")),
      cycleCount := IntAt(d, "CycleCount"),
      temperature := IntAt(d, "Temperature"),
      batteryData := DictAt(d, "BatteryData"),
      kioskMode := DictAt(d, "KioskMode"),
      bestAdapterIndex := IntAt(d, "BestAdapterIndex"),
      adapterDetails := match DictAt(d, "AdapterDetails")
        case Some(a) => Some(ParseAdapterDetails(a))
        case None => None,
      accessoryDetails := FirstAccessory(d),
      appleRawAdapterDetails := RawAdapters(d),
      chargerData := match DictAt(d, "ChargerData")
        case Some(c) => Some(parseCharger(c))
        case None => None,
      maximumCapacity := None)
  }

  lemma RawScalarFields(d: Dict, parseCharger: Dict -> ChargerData)
    ensures var r := ParseBatteryRawInfo(d, parseCharger);
      && CopiesInt(r.updateTime, d, "UpdateTime")
      && CopiesInt(r.batteryInstalled, d, "BatteryInstalled")
      && CopiesInt(r.bootPathUpdated, d, "BootPathUpdated")
      && CopiesInt(r.bootVoltage, d, "BootVoltage")
      && CopiesString(r.serialNumber, d, "Serial")
      && CopiesInt(r.voltage, d, "Voltage")
      && CopiesInt(r.instantAmperage, d, "InstantAmperage")
      && CopiesInt(r.currentCapacity, d, "CurrentCapacity")
      && CopiesInt(r.appleRawCurrentCapacity, d, "AppleRawCurrentCapacity")
      && CopiesInt(r.designCapacity, d, "DesignCapacity")
      && CopiesInt(r.nominalChargeCapacity, d, "NominalChargeCapacity")
      && CopiesInt(r.cycleCount, d, "CycleCount")
      && CopiesInt(r.temperature, d, "Temperature")
      && CopiesInt(r.bestAdapterIndex, d, "BestAdapterIndex")
  {
  }

  /** `isCharging` is never absent, and true exactly when the key holds the Int 1. */
  lemma RawIsCharging(d: Dict, parseCharger: Dict -> ChargerData)
    ensures var r := ParseBatteryRawInfo(d, parseCharger);
      r.isCharging.Some? && (r.isCharging.value <==> "IsCharging" in d && d["IsCharging"] == IntV(1))
  {
  }

  /** The nested records are present exactly when their key holds a dictionary. */
  lemma RawNestedRecords(d: Dict, parseCharger: Dict -> ChargerData)
    ensures var r := ParseBatteryRawInfo(d, parseCharger);
      && (r.chargerData.Some? <==> "ChargerData" in d && d["ChargerData"].DictV?)
      && (r.chargerData.Some? ==> r.chargerData.value == parseCharger(d["ChargerData"].d))
      && (r.adapterDetails.Some? <==> "AdapterDetails" in d && d["AdapterDetails"].DictV?)
      && (r.adapterDetails.Some? ==> r.adapterDetails.value == ParseAdapterDetails(d["AdapterDetails"].d))
      && (r.batteryData.Some? <==> "BatteryData" in d && d["BatteryData"].DictV?)
      && (r.kioskMode.Some? <==> "KioskMode" in d && d["KioskMode"].DictV?)
  {
  }

  /**
   * Only the first accessory is kept; a missing key, a value that is not an
   * array of dictionaries, or an empty array gives no accessory.
   */
  lemma RawAccessoryFirstOnly(d: Dict, parseCharger: Dict -> ChargerData)
    ensures var r := ParseBatteryRawInfo(d, parseCharger);
      && (r.accessoryDetails.Some? <==>
            "AccessoryDetails" in d && d["AccessoryDetails"].ArrayV? &&
            AllDicts(d["AccessoryDetails"].elems) && |d["AccessoryDetails"].elems| > 0)
      && (r.accessoryDetails.Some? ==>
            r.accessoryDetails.value == ParseAccessoryDetails(d["AccessoryDetails"].elems[0].d))
  {
  }

  /**
   * The raw adapter list has one parsed entry per array element, in order; it
   * is empty when the key is missing or holds anything but an array of dictionaries.
   */
  lemma RawAdapterList(d: Dict, parseCharger: Dict -> ChargerData)
    ensures var r := ParseBatteryRawInfo(d, parseCharger);
      && ("AppleRawAdapterDetails" !in d ==> r.appleRawAdapterDetails == [])
      && (var v := "AppleRawAdapterDetails";
          v in d && !(d[v].ArrayV? && AllDicts(d[v].elems)) ==> r.appleRawAdapterDetails == [])
      && (var v := "AppleRawAdapterDetails";
          v in d && d[v].ArrayV? && AllDicts(d[v].elems) ==>
            |r.appleRawAdapterDetails| == |d[v].elems| &&
            forall k :: 0 <= k < |d[v].elems| ==> r.appleRawAdapterDetails[k] == ParseAdapterDetails(d[v].elems[k].d))
  {
  }

  /** Parsing never fills in `maximumCapacity`. */
  lemma RawNoMaximumCapacity(d: Dict, parseCharger: Dict -> ChargerData)
    ensures ParseBatteryRawInfo(d, parseCharger).maximumCapacity == None
  {
  }
}
