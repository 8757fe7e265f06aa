/** Identifiers of the display groups and of the display items. */
module BatteryInfoItem {

  /** `BatteryInfoGroupID` */
  datatype GroupId =
    | Basic | Charge | SettingsBatteryInfo | BatterySerialNumber | BatteryQmax | Charger
    | BatteryVoltage | BatteryLifeTime | NotChargeReason | ChargingPowerAndNotChargeReason
    | AccessoryDetails

  function RawValue(g: GroupId): (r: int)
    ensures 1 <= r <= 11
  {
    match g
    case Basic => 1
    case Charge => 2
    case SettingsBatteryInfo => 3
    case BatterySerialNumber => 4
    case BatteryQmax => 5
    case Charger => 6
    case BatteryVoltage => 7
    case BatteryLifeTime => 8
    case NotChargeReason => 9
    case ChargingPowerAndNotChargeReason => 10
    case AccessoryDetails => 11
  }

  /** `BatteryInfoGroupID.allCases` */
  const AllCases: seq<GroupId> := [
    Basic, Charge, SettingsBatteryInfo, BatterySerialNumber, BatteryQmax, Charger,
    BatteryVoltage, BatteryLifeTime, NotChargeReason, ChargingPowerAndNotChargeReason,
    AccessoryDetails]

  /** The localisation key of a group's name (`BatteryInfoGroupName.getName`). */
  function GroupName(id: int): (name: string) {
    if id == 1 then "GroupBasic"
    else if id == 2 then "GroupCharge"
    else if id == 3 then "GroupSettingsBatteryInfo"
    else if id == 4 then "GroupBatterySerial"
    else if id == 5 then "GroupBatteryQmax"
    else if id == 6 then "GroupCharger"
    else if id == 7 then "GroupBatteryVoltage"
    else if id == 8 then "GroupBatteryLifeTime"
    else if id == 9 then "GroupNotChargeReason"
    else if id == 10 then "GroupChargingPowerNotChargeReason"
    else if id == 11 then "GroupAccessoryDetails"
    else "GroupUnknown"
  }

  /** The raw values of `allCases` are 1 to 11 in ascending order, so no case is listed twice. */
  lemma {:induction false} AllCasesAscending()
    ensures |AllCases| == 11
    ensures forall k :: 0 <= k < |AllCases| ==> RawValue(AllCases[k]) == k + 1
    ensures forall i, j :: 0 <= i < j < |AllCases| ==> AllCases[i] != AllCases[j]
    ensures forall g: GroupId :: g in AllCases
  {
    forall i, j | 0 <= i < j < |AllCases| ensures AllCases[i] != AllCases[j] {
      assert RawValue(AllCases[i]) == i + 1 && RawValue(AllCases[j]) == j + 1;
    }
    forall g: GroupId ensures g in AllCases {
      assert AllCases[RawValue(g) - 1] == g;
    }
  }

  /** Exactly the ids 1 to 11 have a name of their own; every other id is "GroupUnknown". */
  lemma GroupNameKnown(id: int)
    ensures GroupName(id) != "GroupUnknown" <==> 1 <= id <= 11
  {
  }

  /** Every listed case has a name other than "GroupUnknown", and no two cases share one. */
  lemma {:induction false} AllCasesNamed()
    ensures forall k :: 0 <= k < |AllCases| ==> GroupName(RawValue(AllCases[k])) != "GroupUnknown"
    ensures forall i, j :: 0 <= i < j < |AllCases| ==>
      GroupName(RawValue(AllCases[i])) != GroupName(RawValue(AllCases[j]))
  {
    AllCasesAscending();
  }

  // `BatteryInfoItemID`
  const MaximumCapacity := 101
  const CycleCount := 102
  const DesignCapacity := 103
  const NominalChargeCapacity := 104
  const Temperature := 105
  const CurrentCapacity := 106
  const CurrentRawCapacity := 107
  const CurrentVoltage := 108
  const InstantAmperage := 109

  const IsCharging := 201
  const ChargeDescription := 202
  const IsWirelessCharger := 203
  const MaximumChargingHandshakeWatts := 204
  const PowerOptionDetail := 205
  const PowerOptions := 206
  const ChargingLimitVoltage := 207
  const ChargingVoltage := 208
  const ChargingCurrent := 209
  const CalculatedChargingPower := 210
  const NotChargingReason := 211

  const PossibleRefreshDate := 303

  const BatterySerialNumberItem := 401
  const BatteryManufacturer := 402

  const MaximumQmax := 501
  const MinimumQmax := 502

  const ChargerName := 601
  const ChargerModel := 602
  const ChargerManufacturer := 603
  const ChargerSerialNumber := 604
  const ChargerHardwareVersion := 605
  const ChargerFirmwareVersion := 606

  const BatteryInstalled := 701
  const BootVoltage := 702
  const LimitVoltage := 703

  const AverageTemperature := 801
  const MaximumTemperature := 802
  const MinimumTemperature := 803

  const AccessoryCurrentCapacity := 1101
  const AccessoryIsCharging := 1102
  const AccessoryExternalConnected := 1103

  /** Every item id constant, in declaration order. */
  const AllItemIds: seq<int> := [
    MaximumCapacity, CycleCount, DesignCapacity, NominalChargeCapacity, Temperature,
    CurrentCapacity, CurrentRawCapacity, CurrentVoltage, InstantAmperage,
    IsCharging, ChargeDescription, IsWirelessCharger, MaximumChargingHandshakeWatts,
    PowerOptionDetail, PowerOptions, ChargingLimitVoltage, ChargingVoltage, ChargingCurrent,
    CalculatedChargingPower, NotChargingReason,
    PossibleRefreshDate,
    BatterySerialNumberItem, BatteryManufacturer,
    MaximumQmax, MinimumQmax,
    ChargerName, ChargerModel, ChargerManufacturer, ChargerSerialNumber, ChargerHardwareVersion,
    ChargerFirmwareVersion,
    BatteryInstalled, BootVoltage, LimitVoltage,
    AverageTemperature, MaximumTemperature, MinimumTemperature,
    AccessoryCurrentCapacity, AccessoryIsCharging, AccessoryExternalConnected]

  /** The item ids are listed in strictly ascending order, hence pairwise distinct. */
  lemma {:induction false} ItemIdsDistinct()
    ensures |AllItemIds| == 40
    ensures forall i, j :: 0 <= i < j < |AllItemIds| ==> AllItemIds[i] < AllItemIds[j]
  {
    forall i | 0 <= i < |AllItemIds| - 1 ensures AllItemIds[i] < AllItemIds[i + 1] {
    }
    forall i, j | 0 <= i < j < |AllItemIds| ensures AllItemIds[i] < AllItemIds[j] {
      AscendingStep(AllItemIds, i, j);
    }
  }

  lemma {:induction false} AscendingStep(s: seq<int>, i: nat, j: nat)
    requires forall k :: 0 <= k < |s| - 1 ==> s[k] < s[k + 1]
    requires i < j < |s|
    ensures s[i] < s[j]
    decreases j - i
  {
    if i + 1 < j {
      AscendingStep(s, i + 1, j);
    }
  }
}
