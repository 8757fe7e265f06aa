/**
 * The battery data controller: the display items derived from one battery
 * snapshot, the groups built from them in the user's chosen order, and the
 * policy that decides when a history row is recorded.
 */
module BatteryDataController {
  import opened Wrappers
  import opened RawAdapter
  import opened RawBatteryInfo
  import opened InfoItem
  import opened InfoItemGroup
  import opened SettingsUtils
  import opened BatteryFormatUtils
  import opened SystemInfoUtils
  import opened BatteryRecordDatabase
  import Catalog = BatteryInfoItem

  /** What the device reports without the raw battery dictionary. */
  datatype DeviceState = DeviceState(batteryState: BatteryState, percentage: Option<int>)

  function AdapterOf(info: Option<BatteryRawInfo>): Option<AdapterDetails> {
    if info.Some? then info.value.adapterDetails else None
  }

  function ChargerOf(info: Option<BatteryRawInfo>): Option<ChargerData> {
    if info.Some? then info.value.chargerData else None
  }

  /** A text whose value is unknown. */
  function UnknownText(key: string): Text {
    Formatted(key, Msg("Unknown"))
  }

  /** An integer reading shown as `String(n)`, or Unknown. */
  function NumText(key: string, value: Option<int>): (t: Text)
    ensures value.Some? ==> t == Formatted(key, Num(value.value))
    ensures value.None? ==> t == UnknownText(key)
    ensures t == UnknownText(key) <==> value.None?
  {
    if value.Some? then Formatted(key, Num(value.value)) else UnknownText(key)
  }

  /** A reading in hundredths or thousandths shown with two decimals, or Unknown. */
  function ScaledText(key: string, value: Option<int>, divisor: int): (t: Text)
    ensures value.Some? ==> t == Formatted(key, Scaled(value.value, divisor))
    ensures value.None? ==> t == UnknownText(key)
    ensures t == UnknownText(key) <==> value.None?
  {
    if value.Some? then Formatted(key, Scaled(value.value, divisor)) else UnknownText(key)
  }

  // ----- Basic group items -----

  /**
   * `calculateMaximumCapacity`: present exactly when both capacities are
   * known and the design capacity is positive.
   */
  function MaximumCapacityText(info: Option<BatteryRawInfo>, accuracy: MaximumCapacityAccuracy): (r: Option<CapacityText>)
    ensures r.Some? <==> info.Some? && info.value.nominalChargeCapacity.Some? &&
                         info.value.designCapacity.Some? && info.value.designCapacity.value > 0
    ensures r.Some? ==> r.value == FormatMaximumCapacity(info.value.nominalChargeCapacity.value, info.value.designCapacity.value, accuracy)
  {
    if info.Some? && info.value.nominalChargeCapacity.Some? && info.value.designCapacity.Some? && info.value.designCapacity.value > 0
    then Some(FormatMaximumCapacity(info.value.nominalChargeCapacity.value, info.value.designCapacity.value, accuracy))
    else None
  }

  function MaximumCapacityItem(info: Option<BatteryRawInfo>, accuracy: MaximumCapacityAccuracy): (r: InfoItem)
    ensures r.id == Catalog.MaximumCapacity
    ensures r.text == UnknownText("MaximumCapacity") <==> MaximumCapacityText(info, accuracy).None?
  {
    var key := "MaximumCapacity";
    match MaximumCapacityText(info, accuracy)
    case Some(Whole(digits)) => NewItem(Catalog.MaximumCapacity, Formatted(key, Word(digits)))
    case Some(TwoDecimals(n, d)) => NewItem(Catalog.MaximumCapacity, Formatted(key, TwoDecimalPercent(n, d)))
    case None => NewItem(Catalog.MaximumCapacity, UnknownText(key))
  }

  function CycleCountItem(info: Option<BatteryRawInfo>): (r: InfoItem)
    ensures r.id == Catalog.CycleCount
    ensures r.text == UnknownText("CycleCount") <==> info.None? || info.value.cycleCount.None?
  {
    NewItem(Catalog.CycleCount, NumText("CycleCount", if info.Some? then info.value.cycleCount else None))
  }

  function DesignCapacityItem(info: Option<BatteryRawInfo>): (r: InfoItem)
    ensures r.id == Catalog.DesignCapacity
    ensures r.text == UnknownText("DesignCapacity") <==> info.None? || info.value.designCapacity.None?
  {
    NewItem(Catalog.DesignCapacity, NumText("DesignCapacity", if info.Some? then info.value.designCapacity else None))
  }

  function NominalChargeCapacityItem(info: Option<BatteryRawInfo>): (r: InfoItem)
    ensures r.id == Catalog.NominalChargeCapacity
    ensures r.text == UnknownText("RemainingCapacity") <==> info.None? || info.value.nominalChargeCapacity.None?
  {
    NewItem(Catalog.NominalChargeCapacity, NumText("RemainingCapacity", if info.Some? then info.value.nominalChargeCapacity else None))
  }

  /** The temperature is reported in hundredths of a degree. */
  function TemperatureItem(info: Option<BatteryRawInfo>): (r: InfoItem)
    ensures r.id == Catalog.Temperature
    ensures r.text == UnknownText("CurrentTemperature") <==> info.None? || info.value.temperature.None?
  {
    NewItem(Catalog.Temperature, ScaledText("CurrentTemperature", if info.Some? then info.value.temperature else None, 100))
  }

  /** The raw percentage, else the device's own percentage, else Unknown. */
  function CurrentCapacityItem(info: Option<BatteryRawInfo>, device: DeviceState): (r: InfoItem)
    ensures r.id == Catalog.CurrentCapacity
    ensures info.Some? && info.value.currentCapacity.Some? ==> r.text == Formatted("CurrentCapacity", Num(info.value.currentCapacity.value))
    ensures !(info.Some? && info.value.currentCapacity.Some?) ==> r.text == NumText("CurrentCapacity", device.percentage)
  {
    if info.Some? && info.value.currentCapacity.Some?
    then NewItem(Catalog.CurrentCapacity, Formatted("CurrentCapacity", Num(info.value.currentCapacity.value)))
    else NewItem(Catalog.CurrentCapacity, NumText("CurrentCapacity", device.percentage))
  }

  function CurrentRawCapacityItem(info: Option<BatteryRawInfo>): (r: InfoItem)
    ensures r.id == Catalog.CurrentRawCapacity
    ensures r.text == UnknownText("CurrentRAWCapacity") <==> info.None? || info.value.appleRawCurrentCapacity.None?
  {
    NewItem(Catalog.CurrentRawCapacity, NumText("CurrentRAWCapacity", if info.Some? then info.value.appleRawCurrentCapacity else None))
  }

  /** The voltage is reported in millivolts. */
  function CurrentVoltageItem(info: Option<BatteryRawInfo>): (r: InfoItem)
    ensures r.id == Catalog.CurrentVoltage
    ensures r.text == UnknownText("CurrentVoltage") <==> info.None? || info.value.voltage.None?
  {
    NewItem(Catalog.CurrentVoltage, ScaledText("CurrentVoltage", if info.Some? then info.value.voltage else None, 1000))
  }

  function InstantAmperageItem(info: Option<BatteryRawInfo>): (r: InfoItem)
    ensures r.id == Catalog.InstantAmperage
    ensures r.text == UnknownText("InstantAmperage") <==> info.None? || info.value.instantAmperage.None?
  {
    NewItem(Catalog.InstantAmperage, NumText("InstantAmperage", if info.Some? then info.value.instantAmperage else None))
  }

  /** The items of the basic group, in the order `getBatteryBasicInfo` adds them. */
  function BasicItems(info: Option<BatteryRawInfo>, accuracy: MaximumCapacityAccuracy, device: DeviceState): seq<InfoItem> {
    [MaximumCapacityItem(info, accuracy), CycleCountItem(info), DesignCapacityItem(info),
     NominalChargeCapacityItem(info), TemperatureItem(info), CurrentCapacityItem(info, device),
     CurrentRawCapacityItem(info), CurrentVoltageItem(info), InstantAmperageItem(info)]
  }

  /** The basic group always holds items 101 to 109, in ascending order. */
  lemma BasicItemIds(info: Option<BatteryRawInfo>, accuracy: MaximumCapacityAccuracy, device: DeviceState)
    ensures Ids(BasicItems(info, accuracy, device)) == [101, 102, 103, 104, 105, 106, 107, 108, 109]
  {
  }

  // ----- Charge group items -----

  function IsChargingItem(device: DeviceState): (r: InfoItem)
    ensures r.id == Catalog.IsCharging
    ensures r.text.Formatted? && r.text.key == "IsCharging" && r.text.arg.Msg?
    ensures r.text.arg.key == (match device.batteryState
                               case Charging => "Charging"
                               case Unplugged => "NotCharging"
                               case Full => "CharingFull"
                               case Unknown => "Unknown")
  {
    var key := "IsCharging";
    match device.batteryState
    case Charging => NewItem(Catalog.IsCharging, Formatted(key, Msg("Charging")))
    case Unplugged => NewItem(Catalog.IsCharging, Formatted(key, Msg("NotCharging")))
    case Full => NewItem(Catalog.IsCharging, Formatted(key, Msg("CharingFull")))
    case Unknown => NewItem(Catalog.IsCharging, UnknownText(key))
  }

  function ChargeDescriptionItem(info: Option<BatteryRawInfo>): (r: InfoItem)
    ensures r.id == Catalog.ChargeDescription
    ensures r.text == UnknownText("ChargeDescription") <==> AdapterOf(info).None? || AdapterOf(info).value.description.None?
  {
    var key := "ChargeDescription";
    var adapter := AdapterOf(info);
    if adapter.Some? && adapter.value.description.Some?
    then NewItem(Catalog.ChargeDescription, Formatted(key, Word(adapter.value.description.value)))
    else NewItem(Catalog.ChargeDescription, UnknownText(key))
  }

  function IsWirelessChargerItem(info: Option<BatteryRawInfo>): (r: InfoItem)
    ensures r.id == Catalog.IsWirelessCharger
    ensures r.text == UnknownText("WirelessCharger") <==> AdapterOf(info).None? || AdapterOf(info).value.isWireless.None?
  {
    var key := "WirelessCharger";
    var adapter := AdapterOf(info);
    if adapter.Some? && adapter.value.isWireless.Some?
    then NewItem(Catalog.IsWirelessCharger, Formatted(key, Msg(if adapter.value.isWireless.value then "Yes" else "No")))
    else NewItem(Catalog.IsWirelessCharger, UnknownText(key))
  }

  function MaximumChargingHandshakeWattsItem(info: Option<BatteryRawInfo>): (r: InfoItem)
    ensures r.id == Catalog.MaximumChargingHandshakeWatts
    ensures r.text == UnknownText("MaximumChargingHandshakeWatts") <==> AdapterOf(info).None? || AdapterOf(info).value.watts.None?
  {
    var adapter := AdapterOf(info);
    NewItem(Catalog.MaximumChargingHandshakeWatts,
            NumText("MaximumChargingHandshakeWatts", if adapter.Some? then adapter.value.watts else None))
  }

  /** The displayed form of one entry of the adapter's option menu. */
  function OptionText(o: UsbHvcOption): PowerOptionText {
    PowerOptionText(o.index + 1, o.maxVoltage, o.maxCurrent)
  }

  /**
   * The argument of `getPowerOptionDetail` when the adapter reports the index
   * of the option in use: that menu entry when the menu has it; otherwise the
   * adapter's own voltage and current when both are known; otherwise nothing.
   */
  function CurrentOption(adapter: AdapterDetails, index: int): (a: Arg)
    requires index >= 0
    ensures index < |adapter.usbHvcMenu| ==> a == PowerOption(OptionText(adapter.usbHvcMenu[index]))
    ensures index >= |adapter.usbHvcMenu| && adapter.current.Some? && adapter.adapterVoltage.Some? ==>
      a == PowerOption(PowerOptionText(index + 1, adapter.adapterVoltage.value, adapter.current.value))
    ensures index >= |adapter.usbHvcMenu| && !(adapter.current.Some? && adapter.adapterVoltage.Some?) ==> a == Blank
  {
    if |adapter.usbHvcMenu| > index then PowerOption(OptionText(adapter.usbHvcMenu[index]))
    else if adapter.current.Some? && adapter.adapterVoltage.Some?
    then PowerOption(PowerOptionText(index + 1, adapter.adapterVoltage.value, adapter.current.value))
    else Blank
  }

  /**
   * The caller's obligation of `getPowerOptionDetail`: the source indexes the
   * menu with the reported index without a lower-bound check.
   */
  predicate PowerOptionIndexValid(info: Option<BatteryRawInfo>) {
    var adapter := AdapterOf(info);
    adapter.Some? && adapter.value.usbHvcHvcIndex.Some? ==> adapter.value.usbHvcHvcIndex.value >= 0
  }

  function PowerOptionDetailItem(info: Option<BatteryRawInfo>): (r: InfoItem)
    requires PowerOptionIndexValid(info)
    ensures r.id == Catalog.PowerOptionDetail
  {
    var key := "CurrentUseOption";
    var adapter := AdapterOf(info);
    if adapter.Some? && adapter.value.usbHvcHvcIndex.Some?
    then NewItem(Catalog.PowerOptionDetail, Formatted(key, CurrentOption(adapter.value, adapter.value.usbHvcHvcIndex.value)))
    else NewItem(Catalog.PowerOptionDetail, UnknownText(key))
  }

  /**
   * The option in use is shown as Unknown when no index is reported, and
   * otherwise as the option `CurrentOption` chooses: the menu entry when the
   * index falls inside the menu, else the adapter's own voltage and current.
   */
  lemma PowerOptionRule(info: Option<BatteryRawInfo>)
    requires PowerOptionIndexValid(info)
    ensures AdapterOf(info).None? || AdapterOf(info).value.usbHvcHvcIndex.None? ==>
      PowerOptionDetailItem(info).text == UnknownText("CurrentUseOption")
    ensures AdapterOf(info).Some? && AdapterOf(info).value.usbHvcHvcIndex.Some? ==>
      var a := AdapterOf(info).value;
      PowerOptionDetailItem(info).text == Formatted("CurrentUseOption", CurrentOption(a, a.usbHvcHvcIndex.value))
    ensures AdapterOf(info).Some? && AdapterOf(info).value.usbHvcHvcIndex.Some? &&
            AdapterOf(info).value.usbHvcHvcIndex.value < |AdapterOf(info).value.usbHvcMenu| ==>
      var a := AdapterOf(info).value;
      PowerOptionDetailItem(info).text == Formatted("CurrentUseOption", PowerOption(OptionText(a.usbHvcMenu[a.usbHvcHvcIndex.value])))
  {
  }

  /** `getPowerOptions`: every menu entry in menu order, or Unknown when the menu is empty or there is no adapter. */
  function PowerOptionsItem(info: Option<BatteryRawInfo>): (r: InfoItem)
    ensures r.id == Catalog.PowerOptions
    ensures AdapterOf(info).None? || AdapterOf(info).value.usbHvcMenu == [] <==> r.text == UnknownText("PowerOptions")
    ensures AdapterOf(info).Some? && |AdapterOf(info).value.usbHvcMenu| > 0 ==>
      r.text.Formatted? && r.text.key == "PowerOptions" && r.text.arg.PowerOptionList?
    ensures r.text.Formatted? && r.text.arg.PowerOptionList? ==>
      var menu := AdapterOf(info).value.usbHvcMenu;
      |r.text.arg.options| == |menu| && forall k :: 0 <= k < |menu| ==> r.text.arg.options[k] == OptionText(menu[k])
  {
    var key := "PowerOptions";
    var adapter := AdapterOf(info);
    if adapter.Some? then
      var menu := adapter.value.usbHvcMenu;
      if |menu| == 0 then NewItem(Catalog.PowerOptions, UnknownText(key))
      else NewItem(Catalog.PowerOptions, Formatted(key, PowerOptionList(seq(|menu|, k requires 0 <= k < |menu| => OptionText(menu[k])))))
    else NewItem(Catalog.PowerOptions, UnknownText(key))
  }

  function ChargingLimitVoltageItem(info: Option<BatteryRawInfo>): (r: InfoItem)
    ensures r.id == Catalog.ChargingLimitVoltage
    ensures r.text == UnknownText("LimitVoltage") <==> ChargerOf(info).None? || ChargerOf(info).value.vacVoltageLimit.None?
  {
    var charger := ChargerOf(info);
    NewItem(Catalog.ChargingLimitVoltage, ScaledText("LimitVoltage", if charger.Some? then charger.value.vacVoltageLimit else None, 1000))
  }

  function ChargingVoltageItem(info: Option<BatteryRawInfo>): (r: InfoItem)
    ensures r.id == Catalog.ChargingVoltage
    ensures r.text == UnknownText("ChargingVoltage") <==> ChargerOf(info).None? || ChargerOf(info).value.chargingVoltage.None?
  {
    var charger := ChargerOf(info);
    NewItem(Catalog.ChargingVoltage, ScaledText("ChargingVoltage", if charger.Some? then charger.value.chargingVoltage else None, 1000))
  }

  function ChargingCurrentItem(info: Option<BatteryRawInfo>): (r: InfoItem)
    ensures r.id == Catalog.ChargingCurrent
    ensures r.text == UnknownText("ChargingCurrent") <==> ChargerOf(info).None? || ChargerOf(info).value.chargingCurrent.None?
  {
    var charger := ChargerOf(info);
    NewItem(Catalog.ChargingCurrent, ScaledText("ChargingCurrent", if charger.Some? then charger.value.chargingCurrent else None, 1000))
  }

  /** The charging power needs both the charging voltage and the charging current. */
  function CalculatedChargingPowerItem(info: Option<BatteryRawInfo>): (r: InfoItem)
    ensures r.id == Catalog.CalculatedChargingPower
    ensures r.text.Formatted? && r.text.arg.Product? <==>
      ChargerOf(info).Some? && ChargerOf(info).value.chargingCurrent.Some? && ChargerOf(info).value.chargingVoltage.Some?
  {
    var key := "CalculatedChargingPower";
    var charger := ChargerOf(info);
    if charger.Some? && charger.value.chargingCurrent.Some? && charger.value.chargingVoltage.Some?
    then NewItem(Catalog.CalculatedChargingPower, Formatted(key, Product(charger.value.chargingVoltage.value, charger.value.chargingCurrent.value)))
    else NewItem(Catalog.CalculatedChargingPower, UnknownText(key))
  }

  /** The message of a not-charging reason code, by the code table of `getNotChargingReason`. */
  function ReasonText(reason: int): Text {
    var key := "NotChargingReason";
    if reason == 0 then Message("BatteryChargeNormal")
    else if reason == 1 then Formatted(key, Msg("BatteryFullyCharged"))
    else if reason == 128 then Formatted(key, Msg("NotCharging"))
    else if reason == 256 || reason == 272 then Formatted(key, Msg("BatteryOverheating"))
    else if reason == 1024 || reason == 8192 then Formatted(key, Msg("NegotiatingWithCharger"))
    else Formatted(key, Num(reason))
  }

  function NotChargingReasonItem(info: Option<BatteryRawInfo>): (r: InfoItem)
    ensures r.id == Catalog.NotChargingReason
  {
    var charger := ChargerOf(info);
    if charger.Some? && charger.value.notChargingReason.Some?
    then NewItem(Catalog.NotChargingReason, ReasonText(charger.value.notChargingReason.value))
    else NewItem(Catalog.NotChargingReason, UnknownText("NotChargingReason"))
  }

  /** The codes the table names; every other code is shown as its number. */
  const KnownReasonCodes: set<int> := {0, 1, 128, 256, 272, 1024, 8192}

  /** The not-charging reason table, and Unknown when no code is reported. */
  lemma NotChargingReasonTable(info: Option<BatteryRawInfo>)
    ensures var charger := ChargerOf(info);
      charger.None? || charger.value.notChargingReason.None? ==>
        NotChargingReasonItem(info).text == UnknownText("NotChargingReason")
    ensures var charger := ChargerOf(info);
      charger.Some? && charger.value.notChargingReason.Some? ==>
        var code := charger.value.notChargingReason.value;
        var t := NotChargingReasonItem(info).text;
        (code == 0 ==> t == Message("BatteryChargeNormal")) &&
        (code == 1 ==> t == Formatted("NotChargingReason", Msg("BatteryFullyCharged"))) &&
        (code == 128 ==> t == Formatted("NotChargingReason", Msg("NotCharging"))) &&
        (code in {256, 272} ==> t == Formatted("NotChargingReason", Msg("BatteryOverheating"))) &&
        (code in {1024, 8192} ==> t == Formatted("NotChargingReason", Msg("NegotiatingWithCharger"))) &&
        (code !in KnownReasonCodes <==> t == Formatted("NotChargingReason", Num(code)))
  {
  }

  /** `isChargeByWatts`: the adapter reports a positive wattage (this also covers MagSafe battery packs). */
  predicate IsChargeByWatts(info: Option<BatteryRawInfo>) {
    var adapter := AdapterOf(info);
    adapter.Some? && adapter.value.watts.Some? && adapter.value.watts.value > 0
  }

  /**
   * `isNotCharging`: a reason code is reported and it is not 0. The source
   * also inspects the charging current, but returns true on both of its paths.
   */
  predicate IsNotCharging(info: Option<BatteryRawInfo>) {
    var charger := ChargerOf(info);
    charger.Some? && charger.value.notChargingReason.Some? && charger.value.notChargingReason.value != 0
  }

  /** `isChargeByWatts` by its branches: false without a reported wattage, else whether it is positive. */
  lemma ChargeByWattsCases(info: Option<BatteryRawInfo>)
    ensures AdapterOf(info).None? || AdapterOf(info).value.watts.None? ==> !IsChargeByWatts(info)
    ensures AdapterOf(info).Some? && AdapterOf(info).value.watts.Some? ==>
      (IsChargeByWatts(info) <==> AdapterOf(info).value.watts.value > 0)
  {
  }

  /**
   * `isNotCharging` by its branches: false without a reason code or for code
   * 0; true for any other code, and the charging current never changes it.
   */
  lemma NotChargingCases(info: Option<BatteryRawInfo>, current: Option<int>)
    ensures ChargerOf(info).None? || ChargerOf(info).value.notChargingReason.None? ==> !IsNotCharging(info)
    ensures ChargerOf(info).Some? && ChargerOf(info).value.notChargingReason.Some? ==>
      (IsNotCharging(info) <==> ChargerOf(info).value.notChargingReason.value != 0)
    ensures info.Some? && info.value.chargerData.Some? ==>
      var charger := info.value.chargerData.value.(chargingCurrent := current);
      IsNotCharging(Some(info.value.(chargerData := Some(charger)))) == IsNotCharging(info)
  {
  }

  /** The nine items `addStandardChargingItems` appends, in order. */
  function StandardChargingItems(info: Option<BatteryRawInfo>): (r: seq<InfoItem>)
    requires PowerOptionIndexValid(info)
    ensures |r| == 9
  {
    [ChargeDescriptionItem(info), IsWirelessChargerItem(info), MaximumChargingHandshakeWattsItem(info),
     PowerOptionDetailItem(info), PowerOptionsItem(info), ChargingLimitVoltageItem(info),
     ChargingVoltageItem(info), ChargingCurrentItem(info), CalculatedChargingPowerItem(info)]
  }

  /** The standard charging items are 202 to 210, in ascending order. */
  lemma StandardChargingItemIds(info: Option<BatteryRawInfo>)
    requires PowerOptionIndexValid(info)
    ensures Ids(StandardChargingItems(info)) == [202, 203, 204, 205, 206, 207, 208, 209, 210]
  {
  }

  /** The items of the charge group, as `getChargeInfo` adds them. */
  function ChargeItems(info: Option<BatteryRawInfo>, forceShow: bool, device: DeviceState): (r: seq<InfoItem>)
    requires PowerOptionIndexValid(info)
    ensures |r| > 0 && r[0] == IsChargingItem(device)
  {
    [IsChargingItem(device)] +
    (if forceShow then StandardChargingItems(info) + [NotChargingReasonItem(info)]
     else if IsDeviceCharging(device.batteryState) || IsChargeByWatts(info)
     then StandardChargingItems(info) + (if IsNotCharging(info) then [NotChargingReasonItem(info)] else [])
     else [])
  }

  /**
   * The charge group's ids: all of 201 to 211 when forced; otherwise only 201
   * unless the device charges or the adapter reports watts, and then 201 to
   * 210 plus 211 exactly when a non-zero reason code is reported.
   */
  lemma ChargeItemIds(info: Option<BatteryRawInfo>, forceShow: bool, device: DeviceState)
    requires PowerOptionIndexValid(info)
    ensures forceShow ==> Ids(ChargeItems(info, forceShow, device)) == [201, 202, 203, 204, 205, 206, 207, 208, 209, 210, 211]
    ensures !forceShow && !IsDeviceCharging(device.batteryState) && !IsChargeByWatts(info) ==>
      Ids(ChargeItems(info, forceShow, device)) == [201]
    ensures !forceShow && (IsDeviceCharging(device.batteryState) || IsChargeByWatts(info)) && IsNotCharging(info) ==>
      Ids(ChargeItems(info, forceShow, device)) == [201, 202, 203, 204, 205, 206, 207, 208, 209, 210, 211]
    ensures !forceShow && (IsDeviceCharging(device.batteryState) || IsChargeByWatts(info)) && !IsNotCharging(info) ==>
      Ids(ChargeItems(info, forceShow, device)) == [201, 202, 203, 204, 205, 206, 207, 208, 209, 210]
  {
    var std := StandardChargingItems(info);
    var head := [IsChargingItem(device)];
    var reason := [NotChargingReasonItem(info)];
    StandardChargingItemIds(info);
    assert Ids(head) == [201];
    assert Ids(reason) == [211];
    IdsConcat(head, std);
    IdsConcat(head + std, reason);
    if forceShow {
      assert ChargeItems(info, forceShow, device) == head + std + reason;
    } else if IsDeviceCharging(device.batteryState) || IsChargeByWatts(info) {
      if IsNotCharging(info) {
        assert ChargeItems(info, forceShow, device) == head + std + reason;
      } else {
        assert ChargeItems(info, forceShow, device) == head + std;
      }
    } else {
      assert ChargeItems(info, forceShow, device) == head;
    }
  }

  /** The ids of two lists joined are the ids of the first, then those of the second. */
  lemma IdsConcat(a: seq<InfoItem>, b: seq<InfoItem>)
    ensures Ids(a + b) == Ids(a) + Ids(b)
  {
  }

  /** The group ids the home page knows: basic, charge and the settings-app data. */
  const GroupIds: set<int> := {1, 2, 3}

  /** The ids are the raw values of the three cases the switch in `getGroupedBatteryInfo` handles. */
  lemma GroupIdsAreHomeGroups()
    ensures GroupIds ==
      {Catalog.RawValue(Catalog.Basic), Catalog.RawValue(Catalog.Charge), Catalog.RawValue(Catalog.SettingsBatteryInfo)}
  {
  }

  /** Which groups `getGroupedBatteryInfo` emits for a home order: the entries 1, 2 and 3, in order. */
  function ShownGroupIds(sequence: seq<int>): (r: seq<int>)
    ensures |r| <= |sequence|
  {
    if sequence == [] then []
    else
      var last := sequence[|sequence| - 1];
      ShownGroupIds(sequence[..|sequence| - 1]) + (if last in GroupIds then [last] else [])
  }

  /** The emitted groups are exactly the entries of the order that name a known group. */
  lemma {:induction false} ShownGroupIdsMembers(sequence: seq<int>)
    ensures forall x :: x in ShownGroupIds(sequence) <==> x in sequence && x in GroupIds
  {
    if sequence != [] {
      var init := sequence[..|sequence| - 1];
      ShownGroupIdsMembers(init);
      assert sequence == init + [sequence[|sequence| - 1]];
    }
  }

  /** A duplicate-free home order yields groups with distinct ids. */
  lemma {:induction false} ShownGroupIdsDistinct(sequence: seq<int>)
    requires NoDuplicates(sequence)
    ensures NoDuplicates(ShownGroupIds(sequence))
  {
    if sequence != [] {
      var n := |sequence| - 1;
      var init := sequence[..n];
      assert NoDuplicates(init) by {
        forall i, j | 0 <= i < j < |init| ensures init[i] != init[j] {
          assert init[i] == sequence[i] && init[j] == sequence[j];
        }
      }
      ShownGroupIdsDistinct(init);
      ShownGroupIdsMembers(init);
      var front := ShownGroupIds(init);
      if sequence[n] in GroupIds {
        assert sequence[n] !in init by {
          forall i | 0 <= i < |init| ensures init[i] != sequence[n] {
            assert init[i] == sequence[i];
          }
        }
        var r := front + [sequence[n]];
        forall i, j | 0 <= i < j < |r| ensures r[i] != r[j] {
          if j == |front| {
            assert r[i] == front[i] && r[i] in front;
          } else {
            assert r[i] == front[i] && r[j] == front[j];
          }
        }
      } else {
        assert ShownGroupIds(sequence) == front;
      }
    }
  }

  // ----- Recording policy -----

  /** What `recordBatteryData` does: return true without recording, append a row, or return false without recording. */
  datatype RecordOutcome = Disabled | Append | Skip

  /**
   * The decision of `recordBatteryData`, from the recording switch, the
   * manual flag, the active policy, the stored rows and the new reading.
   * `sameDay` is the calendar comparison of two timestamps.
   */
  function RecordDecision(enabled: bool, manual: bool, policy: RecordFrequency, rows: seq<BatteryDataRecord>,
                          cycleCount: int, nominal: int, now: int, sameDay: (int, int) -> bool): RecordOutcome
  {
    if !enabled then Disabled
    else if manual then Append
    else if policy !in {Automatic, RecordFrequency.DataChanged, EveryDay} then Skip
    else if |rows| == 0 then Append
    else
      var last := Newest(rows).value;
      var dayChanged := !sameDay(now, last.createDate);
      var dataChanged := last.cycleCount != cycleCount || last.nominalChargeCapacity != Some(nominal);
      if policy == Automatic then (if dayChanged || dataChanged then Append else Skip)
      else if policy == RecordFrequency.DataChanged then (if dataChanged then Append else Skip)
      else (if dayChanged then Append else Skip)
  }

  /** Disabled recording inserts nothing; a manual record always inserts while recording is enabled. */
  lemma RecordSwitchAndManual(manual: bool, policy: RecordFrequency, rows: seq<BatteryDataRecord>,
                              cycleCount: int, nominal: int, now: int, sameDay: (int, int) -> bool)
    ensures RecordDecision(false, manual, policy, rows, cycleCount, nominal, now, sameDay) == Disabled
    ensures RecordDecision(true, true, policy, rows, cycleCount, nominal, now, sameDay) == Append
  {
  }

  /** Under Automatic, DataChanged and EveryDay an empty history always receives a row; the Manual policy never records by itself. */
  lemma RecordPolicyBasics(policy: RecordFrequency, rows: seq<BatteryDataRecord>,
                           cycleCount: int, nominal: int, now: int, sameDay: (int, int) -> bool)
    ensures policy in {Automatic, RecordFrequency.DataChanged, EveryDay} && rows == [] ==>
      RecordDecision(true, false, policy, rows, cycleCount, nominal, now, sameDay) == Append
    ensures policy == RecordFrequency.Manual ==>
      RecordDecision(true, false, policy, rows, cycleCount, nominal, now, sameDay) == Skip
  {
  }

  /** The three automatic policies on a non-empty history, stated against its newest row. */
  lemma RecordPolicyRules(policy: RecordFrequency, rows: seq<BatteryDataRecord>,
                          cycleCount: int, nominal: int, now: int, sameDay: (int, int) -> bool)
    requires rows != []
    ensures var last := Newest(rows).value;
      var d := RecordDecision(true, false, policy, rows, cycleCount, nominal, now, sameDay);
      var dayChanged := !sameDay(now, last.createDate);
      var dataChanged := last.cycleCount != cycleCount || last.nominalChargeCapacity != Some(nominal);
      (policy == EveryDay ==> (d == Append <==> dayChanged)) &&
      (policy == Automatic ==> (d == Append <==> dayChanged || dataChanged)) &&
      (policy == RecordFrequency.DataChanged ==> (d == Append <==> dataChanged))
  {
  }

  /** The row `insertRecord` appends for a reading taken at `now`. */
  function RecordedRow(nextId: int, now: int, recordType: int, cycleCount: int, nominal: int, design: int): BatteryDataRecord {
    BatteryDataRecord(nextId, now, recordType, cycleCount, Some(nominal), Some(design), None)
  }

  /**
   * A row stamped later than every stored row becomes the newest.  A stored
   * row of the same second is excluded: SQL leaves the order of tied rows open.
   */
  lemma NewestAfterAppend(rows: seq<BatteryDataRecord>, r: BatteryDataRecord)
    requires forall x :: x in rows ==> x.createDate < r.createDate
    ensures Newest(rows + [r]) == Some(r)
  {
    var all := rows + [r];
    assert all[..|all| - 1] == rows;
    var sorted := SortByDate(rows);
    if sorted != [] {
      assert sorted[0] in multiset(rows);
    }
  }

  /**
   * Repeating an identical non-manual call records at most once: after a row
   * was appended, the second call sees that row as the newest and skips under
   * DataChanged, and also under Automatic and EveryDay within the same day.
   */
  lemma RepeatedCallRecordsOnce(policy: RecordFrequency, rows: seq<BatteryDataRecord>, nextId: int, recordType: int,
                                cycleCount: int, nominal: int, design: int, now: int, sameDay: (int, int) -> bool)
    requires forall x :: x in rows ==> x.createDate < now
    requires policy == RecordFrequency.DataChanged || sameDay(now, now)
    ensures RecordDecision(true, false, policy, rows + [RecordedRow(nextId, now, recordType, cycleCount, nominal, design)],
                           cycleCount, nominal, now, sameDay) == Skip
  {
    NewestAfterAppend(rows, RecordedRow(nextId, now, recordType, cycleCount, nominal, design));
  }

  /**
   * `recordBatteryData`: asks the settings whether and how to record, and
   * appends a row when the policy says so. The result is true when recording
   * is off, the insert's result when a row is due, and false otherwise.
   */
  method RecordBatteryData(settings: Settings, db: BatteryRecordDatabaseManager, manualRecord: bool,
                           cycleCount: int, nominalChargeCapacity: int, designCapacity: int, recordType: int,
                           now: int, sameDay: (int, int) -> bool, engineOk: bool) returns (ok: bool)
    requires db.Valid()
    modifies db
    ensures db.Valid()
    ensures var d := RecordDecision(RecordingEnabled(RecordFrequencyRaw(settings.plist)), manualRecord,
                                    PolicyOf(RecordFrequencyRaw(settings.plist)), old(db.rows),
                                    cycleCount, nominalChargeCapacity, now, sameDay);
      (d == Disabled ==> ok && db.rows == old(db.rows)) &&
      (d == Skip ==> !ok && db.rows == old(db.rows)) &&
      (d == Append ==> (ok == engineOk &&
        db.rows == if engineOk
                   then old(db.rows) + [RecordedRow(old(db.nextId), now, recordType, cycleCount, nominalChargeCapacity, designCapacity)]
                   else old(db.rows))) &&
      db.nextId == old(db.nextId) + (if d == Append && engineOk then 1 else 0)
  {
    var record := BatteryDataRecord(0, 0, recordType, cycleCount, Some(nominalChargeCapacity), Some(designCapacity), None);
    if !settings.EnableRecordBatteryData() {
      return true;
    }
    if manualRecord {
      ok := db.InsertRecord(record, now, engineOk);
      return;
    }
    var policy := settings.RecordFrequencySetting();
    if policy == Automatic || policy == RecordFrequency.DataChanged || policy == EveryDay {
      var count := db.GetRecordCount();
      if count == 0 {
        ok := db.InsertRecord(record, now, engineOk);
        return;
      }
      var lastRecord := db.GetLatestRecord();
      if lastRecord.Some? {
        var last := lastRecord.value;
        var dayChanged := !sameDay(now, last.createDate);
        var dataChanged := last.cycleCount != cycleCount || last.nominalChargeCapacity != Some(nominalChargeCapacity);
        if (policy == Automatic && (dayChanged || dataChanged)) ||
           (policy == RecordFrequency.DataChanged && dataChanged) ||
           (policy == EveryDay && dayChanged) {
          ok := db.InsertRecord(record, now, engineOk);
          return;
        }
      }
    }
    return false;
  }

  // ----- The controller object -----

  /** The controller holds the latest battery snapshot and reads the settings store. */
  class BatteryDataControllerState {
    var batteryInfo: Option<BatteryRawInfo>
    const settings: Settings

    /** `configureInstance(provider:)`: a controller with no snapshot yet. */
    constructor (settings: Settings)
      ensures batteryInfo == None && this.settings == settings
    {
      batteryInfo := None;
      this.settings := settings;
    }

    /** `refreshBatteryInfo`: the provider's result (absent when it failed) replaces the snapshot. */
    method RefreshBatteryInfo(fetched: Option<BatteryRawInfo>)
      modifies this
      ensures batteryInfo == fetched
    {
      batteryInfo := fetched;
    }

    /** `getBatteryRAWInfo` */
    method GetBatteryRawInfo() returns (info: Option<BatteryRawInfo>)
      ensures info == batteryInfo
    {
      info := batteryInfo;
    }

    /** `getBatteryBasicInfo`: a new titled group with the nine basic items. */
    method GetBatteryBasicInfo(device: DeviceState) returns (group: InfoItemGroup)
      ensures fresh(group)
      ensures group.id == Catalog.RawValue(Catalog.Basic) && group.titleText == Some(Message("CFBundleDisplayName")) && group.footerText == None
      ensures group.items == BasicItems(batteryInfo, settings.MaximumCapacityAccuracySetting(), device)
    {
      var accuracy := settings.MaximumCapacityAccuracySetting();
      group := new InfoItemGroup(Catalog.RawValue(Catalog.Basic));
      group.titleText := Some(Message("CFBundleDisplayName"));
      group.AddItem(MaximumCapacityItem(batteryInfo, accuracy));
      group.AddItem(CycleCountItem(batteryInfo));
      group.AddItem(DesignCapacityItem(batteryInfo));
      group.AddItem(NominalChargeCapacityItem(batteryInfo));
      group.AddItem(TemperatureItem(batteryInfo));
      group.AddItem(CurrentCapacityItem(batteryInfo, device));
      group.AddItem(CurrentRawCapacityItem(batteryInfo));
      group.AddItem(CurrentVoltageItem(batteryInfo));
      group.AddItem(InstantAmperageItem(batteryInfo));
    }

    /** `addStandardChargingItems(to:)`: appends the nine charging items to the group. */
    method AddStandardChargingItems(group: InfoItemGroup)
      requires PowerOptionIndexValid(batteryInfo)
      modifies group
      ensures group.items == old(group.items) + StandardChargingItems(batteryInfo)
      ensures group.titleText == old(group.titleText) && group.footerText == old(group.footerText)
    {
      var items := StandardChargingItems(batteryInfo);
      group.AddItem(items[0]);  // how the adapter charges
      group.AddItem(items[1]);  // wireless or not
      group.AddItem(items[2]);  // handshake wattage
      group.AddItem(items[3]);  // option in use
      group.AddItem(items[4]);  // option menu
      group.AddItem(items[5]);  // limit voltage
      group.AddItem(items[6]);  // charging voltage
      group.AddItem(items[7]);  // charging current
      group.AddItem(items[8]);  // charging power
      assert items == [items[0], items[1], items[2], items[3], items[4], items[5], items[6], items[7], items[8]];
    }

    /** `getChargeInfo`: a new group with the charge items and the charge footer. */
    method GetChargeInfo(device: DeviceState) returns (group: InfoItemGroup)
      requires PowerOptionIndexValid(batteryInfo)
      ensures fresh(group)
      ensures group.id == Catalog.RawValue(Catalog.Charge) && group.titleText == None && group.footerText == Some(Message("ChargeInfo"))
      ensures group.items == ChargeItems(batteryInfo, settings.ForceShowChargingData(), device)
    {
      group := new InfoItemGroup(Catalog.RawValue(Catalog.Charge));
      group.footerText := Some(Message("ChargeInfo"));
      group.AddItem(IsChargingItem(device));
      if settings.ForceShowChargingData() {
        AddStandardChargingItems(group);
        group.AddItem(NotChargingReasonItem(batteryInfo));
        return;
      }
      if IsDeviceCharging(device.batteryState) || IsChargeByWatts(batteryInfo) {
        AddStandardChargingItems(group);
        if IsNotCharging(batteryInfo) {
          group.AddItem(NotChargingReasonItem(batteryInfo));
        }
      }
    }

    /** `basic` and `charge` are the items the basic and the charge group are built with. */
    ghost predicate GroupItems(device: DeviceState, basic: seq<InfoItem>, charge: seq<InfoItem>)
      reads this, settings
      requires PowerOptionIndexValid(batteryInfo)
    {
      && basic == BasicItems(batteryInfo, settings.MaximumCapacityAccuracySetting(), device)
      && charge == ChargeItems(batteryInfo, settings.ForceShowChargingData(), device)
    }

    /** One arm of the switch in `getGroupedBatteryInfo`; group 3 is a placeholder without items. */
    method NewGroup(id: int, device: DeviceState, ghost basic: seq<InfoItem>, ghost charge: seq<InfoItem>)
      returns (group: InfoItemGroup)
      requires id in GroupIds && PowerOptionIndexValid(batteryInfo)
      requires GroupItems(device, basic, charge)
      ensures fresh(group) && GroupHolds(group, id, basic, charge)
    {
      if id == Catalog.RawValue(Catalog.Basic) {
        group := GetBatteryBasicInfo(device);
      } else if id == Catalog.RawValue(Catalog.Charge) {
        group := GetChargeInfo(device);
      } else {
        group := new InfoItemGroup(Catalog.RawValue(Catalog.SettingsBatteryInfo));
      }
    }

    /**
     * `getGroupedBatteryInfo`: reads the home order (which may clear a stored
     * order holding a duplicate) and emits one new group per entry 1, 2 or 3,
     * in that order; other entries are skipped.
     */
    method GetGroupedBatteryInfo(device: DeviceState) returns (result: seq<InfoItemGroup>)
      requires PowerOptionIndexValid(batteryInfo)
      modifies settings
      ensures settings.plist ==
        if HomeSequenceClears(ArrayOr(old(settings.plist), "HomeItemGroupSequence", []))
        then old(settings.plist)["HomeItemGroupSequence" := PArray([])]
        else old(settings.plist)
      ensures var shown := ShownGroupIds(HomeSequenceOf(ArrayOr(old(settings.plist), "HomeItemGroupSequence", [])));
        |result| == |shown| &&
        forall k :: 0 <= k < |result| ==>
          fresh(result[k]) && GroupHolds(result[k], shown[k], BasicItems(batteryInfo, settings.MaximumCapacityAccuracySetting(), device),
                                         ChargeItems(batteryInfo, settings.ForceShowChargingData(), device))
    {
      var sequence := settings.GetHomeItemGroupSequence();
      result := GroupsInOrder(sequence, device, BasicItems(batteryInfo, settings.MaximumCapacityAccuracySetting(), device),
                              ChargeItems(batteryInfo, settings.ForceShowChargingData(), device));
    }

    /** The loop of `getGroupedBatteryInfo`, given the items the basic and the charge group will hold. */
    method GroupsInOrder(sequence: seq<int>, device: DeviceState, ghost basic: seq<InfoItem>, ghost charge: seq<InfoItem>)
      returns (result: seq<InfoItemGroup>)
      requires PowerOptionIndexValid(batteryInfo)
      requires GroupItems(device, basic, charge)
      ensures |result| == |ShownGroupIds(sequence)|
      ensures forall k :: 0 <= k < |result| ==> fresh(result[k]) && GroupHolds(result[k], ShownGroupIds(sequence)[k], basic, charge)
    {
      result := [];
      ghost var shown: seq<int> := [];
      var i := 0;
      while i < |sequence|
        invariant 0 <= i <= |sequence|
        invariant shown == ShownGroupIds(sequence[..i])
        invariant |result| == |shown|
        invariant forall k :: 0 <= k < |result| ==> fresh(result[k]) && GroupHolds(result[k], shown[k], basic, charge)
      {
        ShownGroupIdsSnoc(sequence, i);
        if sequence[i] in GroupIds {
          var g := NewGroup(sequence[i], device, basic, charge);
          result, shown := result + [g], shown + [sequence[i]];
        }
        i := i + 1;
      }
      assert sequence[..i] == sequence;
    }
  }

  /** The items of home group `id`, given those of the basic and the charge group. */
  function ItemsOfGroup(id: int, basic: seq<InfoItem>, charge: seq<InfoItem>): seq<InfoItem> {
    if id == Catalog.RawValue(Catalog.Basic) then basic
    else if id == Catalog.RawValue(Catalog.Charge) then charge
    else []
  }

  /** The title of home group `id`: only the basic group has one, the app's display name. */
  function TitleOfGroup(id: int): Option<Text> {
    if id == Catalog.RawValue(Catalog.Basic) then Some(Message("CFBundleDisplayName")) else None
  }

  /** The footer of home group `id`: only the charge group has one, the charge note. */
  function FooterOfGroup(id: int): Option<Text> {
    if id == Catalog.RawValue(Catalog.Charge) then Some(Message("ChargeInfo")) else None
  }

  /** A group of the home page: its id, and the title, items and footer that id calls for. */
  ghost predicate GroupHolds(group: InfoItemGroup, id: int, basic: seq<InfoItem>, charge: seq<InfoItem>)
    reads group
  {
    && group.id == id
    && group.titleText == TitleOfGroup(id)
    && group.items == ItemsOfGroup(id, basic, charge)
    && group.footerText == FooterOfGroup(id)
  }

  lemma ShownGroupIdsSnoc(sequence: seq<int>, i: nat)
    requires i < |sequence|
    ensures ShownGroupIds(sequence[..i + 1]) ==
      ShownGroupIds(sequence[..i]) + (if sequence[i] in GroupIds then [sequence[i]] else [])
  {
    assert sequence[..i + 1][..i] == sequence[..i];
  }
}
