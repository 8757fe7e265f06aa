/**
 * The device facts shown in the app that are computed rather than read:
 * the battery supplier from the serial, the region-code check, the uptime
 * split into days/hours/minutes, and the marketing name of a model identifier.
 */
module SystemInfoUtils {
  import opened Wrappers

  /** A supplier name is a localization key; an unmatched prefix gives the literal "Unknown". */
  datatype ManufacturerText = Localized(key: string) | Literal(text: string)

  const ManufacturerMapping: map<string, string> := map[
    "F8Y" := "Sunwoda", "SWD" := "Sunwoda",
    "F5D" := "Desay", "DTP" := "Desay", "DSY" := "Desay",
    "FG9" := "Simplo", "SMP" := "Simplo",
    "ATL" := "ATL", "LGC" := "LG", "SON" := "Sony"
  ]

  /** `String(serial.prefix(3))` */
  function Prefix3(serial: string): (p: string)
    ensures |p| <= 3 && |p| <= |serial| && p == serial[..|p|]
    ensures |serial| >= 3 ==> |p| == 3
  {
    if |serial| < 3 then serial else serial[..3]
  }

  /** `getBatteryManufacturer(from:)` */
  function BatteryManufacturer(serial: string): (r: ManufacturerText)
    ensures r.Localized? <==> Prefix3(serial) in ManufacturerMapping
    ensures r.Localized? ==> r.key == ManufacturerMapping[Prefix3(serial)]
    ensures r.Literal? ==> r.text == "Unknown"
  {
    var prefix := Prefix3(serial);
    if prefix in ManufacturerMapping then Localized(ManufacturerMapping[prefix]) else Literal("Unknown")
  }

  /** Only the first three characters decide the supplier. */
  lemma ManufacturerByPrefix(s: string, t: string)
    requires Prefix3(s) == Prefix3(t)
    ensures BatteryManufacturer(s) == BatteryManufacturer(t)
  {
  }

  /** Every known prefix has three characters, so a shorter serial is always Unknown. */
  lemma ShortSerialUnknown(serial: string)
    requires |serial| < 3
    ensures BatteryManufacturer(serial) == Literal("Unknown")
  {
    assert forall p | p in ManufacturerMapping :: |p| == 3;
  }

  /** The supplier of each prefix in the table. */
  lemma ManufacturerTable(serial: string)
    requires |serial| >= 3
    ensures serial[..3] in {"F8Y", "SWD"} ==> BatteryManufacturer(serial) == Localized("Sunwoda")
    ensures serial[..3] in {"F5D", "DTP", "DSY"} ==> BatteryManufacturer(serial) == Localized("Desay")
    ensures serial[..3] in {"FG9", "SMP"} ==> BatteryManufacturer(serial) == Localized("Simplo")
    ensures serial[..3] == "ATL" ==> BatteryManufacturer(serial) == Localized("ATL")
    ensures serial[..3] == "LGC" ==> BatteryManufacturer(serial) == Localized("LG")
    ensures serial[..3] == "SON" ==> BatteryManufacturer(serial) == Localized("Sony")
  {
  }

  /** One element of an anchored character pattern: a range `[lo-hi]` or a literal. */
  datatype CharClass = Range(lo: char, hi: char) | Lit(c: char)

  predicate ClassMatches(cc: CharClass, c: char) {
    match cc
    case Range(lo, hi) => lo <= c <= hi
    case Lit(l) => c == l
  }

  /** A pattern `^e1 e2 ... en$` matches exactly the strings of n characters matched element-wise. */
  predicate MatchesAnchored(pattern: seq<CharClass>, s: string) {
    |s| == |pattern| && forall k :: 0 <= k < |s| ==> ClassMatches(pattern[k], s[k])
  }

  /** `^[A-Z]{2}/A$` */
  const RegionPattern: seq<CharClass> := [Range('A', 'Z'), Range('A', 'Z'), Lit('/'), Lit('A')]

  /** `isValidRegionCode` */
  predicate IsValidRegionCode(code: string) {
    MatchesAnchored(RegionPattern, code)
  }

  /** Accepted codes are exactly two capital letters followed by "/A", such as "CH/A" or "LL/A". */
  lemma RegionCodeShape(code: string)
    ensures IsValidRegionCode(code) <==>
      |code| == 4 && 'A' <= code[0] <= 'Z' && 'A' <= code[1] <= 'Z' && code[2..] == "/A"
  {
    if |code| == 4 && 'A' <= code[0] <= 'Z' && 'A' <= code[1] <= 'Z' && code[2..] == "/A" {
      assert code[2] == code[2..][0] && code[3] == code[2..][1];
      forall k | 0 <= k < 4 ensures ClassMatches(RegionPattern[k], code[k]) {
      }
    }
    if IsValidRegionCode(code) {
      assert ClassMatches(RegionPattern[2], code[2]) && ClassMatches(RegionPattern[3], code[3]);
      assert ClassMatches(RegionPattern[0], code[0]) && ClassMatches(RegionPattern[1], code[1]);
      assert code[2..] == [code[2], code[3]];
    }
  }

  /** Swift's `/` on Int: the quotient truncated toward zero. */
  function TruncDiv(a: int, b: int): (q: int)
    requires b > 0
    ensures a >= 0 ==> q == a / b
    ensures a < 0 ==> q == -((-a) / b)
  {
    if a >= 0 then a / b else -((-a) / b)
  }

  /** Swift's `%` on Int: the remainder takes the sign of the dividend. */
  function TruncMod(a: int, b: int): (r: int)
    requires b > 0
    ensures a == TruncDiv(a, b) * b + r
    ensures a >= 0 ==> 0 <= r < b
    ensures a < 0 ==> -b < r <= 0
  {
    if a >= 0 then a % b else -((-a) % b)
  }

  datatype Uptime = Uptime(days: int, hours: int, minutes: int)

  /** The day/hour/minute split of `getDeviceUptime` and `getDeviceUptimeUsingSysctl`. */
  function UptimeOf(seconds: int): (u: Uptime)
    ensures seconds >= 0 ==> 0 <= u.hours < 24 && 0 <= u.minutes < 60 && u.days >= 0
  {
    Uptime(TruncDiv(seconds, 24 * 3600), TruncDiv(TruncMod(seconds, 24 * 3600), 3600), TruncDiv(TruncMod(seconds, 3600), 60))
  }

  /** The split drops only the leftover seconds: less than one minute of a non-negative uptime is lost. */
  lemma UptimeDecomposes(seconds: int)
    requires seconds >= 0
    ensures var u := UptimeOf(seconds);
      u.days * 86400 + u.hours * 3600 + u.minutes * 60 <= seconds < u.days * 86400 + u.hours * 3600 + u.minutes * 60 + 60
  {
    var u := UptimeOf(seconds);
    var dayRest := seconds % 86400;
    var hourRest := seconds % 3600;
    assert u == Uptime(seconds / 86400, dayRest / 3600, hourRest / 60);
    assert seconds == (seconds / 86400) * 86400 + dayRest;
    assert dayRest == u.hours * 3600 + dayRest % 3600;
    HourRemainder(seconds, (seconds / 86400) * 24 + u.hours, dayRest % 3600);
    assert hourRest == u.minutes * 60 + hourRest % 60;
  }

  /** The remainder by 3600 of a multiple of 3600 plus a small rest is that rest. */
  lemma HourRemainder(x: int, q: int, r: int)
    requires 0 <= r < 3600 && x == q * 3600 + r
    ensures x % 3600 == r
  {
  }

  /** A negative interval (a clock moved back) splits into the negated parts of its magnitude. */
  lemma UptimeNegation(seconds: int)
    ensures UptimeOf(-seconds) == Uptime(-UptimeOf(seconds).days, -UptimeOf(seconds).hours, -UptimeOf(seconds).minutes)
  {
  }

  /** `UIDevice.BatteryState`, read from the device. */
  datatype BatteryState = Unknown | Unplugged | Charging | Full

  /** `isDeviceCharging`: charging or already full. */
  predicate IsDeviceCharging(state: BatteryState) {
    state == Charging || state == Full
  }

  /**
   * `getBatteryPercentage`: a negative level means the level is unavailable;
   * otherwise the level (0 to 1) scaled to a percentage and truncated.
   */
  function BatteryPercentage(level: real): (r: Option<int>)
    ensures r.None? <==> level < 0.0
    ensures r.Some? ==> r.value as real <= level * 100.0 < r.value as real + 1.0
    ensures r.Some? && level <= 1.0 ==> 0 <= r.value <= 100
  {
    if level < 0.0 then None else Some((level * 100.0).Floor)
  }

  /** One arm of the `getDeviceName` switch: the identifiers it lists and the name it returns. */
  datatype DeviceEntry = DeviceEntry(models: seq<string>, name: string)

  // The arms of the `getDeviceName` switch in source order, in blocks by device family.

  const IPhoneArms1: seq<DeviceEntry> := [
    DeviceEntry(["iPhone1,1"], "iPhone"),
    DeviceEntry(["iPhone1,2"], "iPhone 3G"),
    DeviceEntry(["iPhone2,1"], "iPhone 3GS"),
    DeviceEntry(["iPhone3,1", "iPhone3,2", "iPhone3,3"], "iPhone 4"),
    DeviceEntry(["iPhone4,1"], "iPhone 4S"),
    DeviceEntry(["iPhone5,1"], "iPhone 5 (GSM)"),
    DeviceEntry(["iPhone5,2"], "iPhone 5 (GSM+CDMA)"),
    DeviceEntry(["iPhone5,3"], "iPhone 5C (GSM)"),
    DeviceEntry(["iPhone5,4"], "iPhone 5C (Global)"),
    DeviceEntry(["iPhone6,1"], "iPhone 5S (GSM)"),
    DeviceEntry(["iPhone6,2"], "iPhone 5S (Global)"),
    DeviceEntry(["iPhone7,1"], "iPhone 6 Plus"),
    DeviceEntry(["iPhone7,2"], "iPhone 6"),
    DeviceEntry(["iPhone8,1"], "iPhone 6s"),
    DeviceEntry(["iPhone8,2"], "iPhone 6s Plus")
  ]

  const IPhoneArms2: seq<DeviceEntry> := [
    DeviceEntry(["iPhone8,4"], "iPhone SE (1st Gen)"),
    DeviceEntry(["iPhone9,1", "iPhone9,3"], "iPhone 7"),
    DeviceEntry(["iPhone9,2", "iPhone9,4"], "iPhone 7 Plus"),
    DeviceEntry(["iPhone10,1", "iPhone10,4"], "iPhone 8"),
    DeviceEntry(["iPhone10,2", "iPhone10,5"], "iPhone 8 Plus"),
    DeviceEntry(["iPhone10,3", "iPhone10,6"], "iPhone X"),
    DeviceEntry(["iPhone11,2"], "iPhone XS"),
    DeviceEntry(["iPhone11,4", "iPhone11,6"], "iPhone XS Max"),
    DeviceEntry(["iPhone11,8"], "iPhone XR"),
    DeviceEntry(["iPhone12,1"], "iPhone 11"),
    DeviceEntry(["iPhone12,3"], "iPhone 11 Pro"),
    DeviceEntry(["iPhone12,5"], "iPhone 11 Pro Max"),
    DeviceEntry(["iPhone12,8"], "iPhone SE (2nd Gen)"),
    DeviceEntry(["iPhone13,1"], "iPhone 12 mini"),
    DeviceEntry(["iPhone13,2"], "iPhone 12")
  ]

  const IPhoneArms3: seq<DeviceEntry> := [
    DeviceEntry(["iPhone13,3"], "iPhone 12 Pro"),
    DeviceEntry(["iPhone13,4"], "iPhone 12 Pro Max"),
    DeviceEntry(["iPhone14,2"], "iPhone 13 Pro"),
    DeviceEntry(["iPhone14,3"], "iPhone 13 Pro Max"),
    DeviceEntry(["iPhone14,4"], "iPhone 13 mini"),
    DeviceEntry(["iPhone14,5"], "iPhone 13"),
    DeviceEntry(["iPhone14,6"], "iPhone SE (3rd Gen)"),
    DeviceEntry(["iPhone14,7"], "iPhone 14"),
    DeviceEntry(["iPhone14,8"], "iPhone 14 Plus"),
    DeviceEntry(["iPhone15,2"], "iPhone 14 Pro"),
    DeviceEntry(["iPhone15,3"], "iPhone 14 Pro Max"),
    DeviceEntry(["iPhone15,4"], "iPhone 15"),
    DeviceEntry(["iPhone15,5"], "iPhone 15 Plus"),
    DeviceEntry(["iPhone16,1"], "iPhone 15 Pro"),
    DeviceEntry(["iPhone16,2"], "iPhone 15 Pro Max")
  ]

  const IPhoneArms4: seq<DeviceEntry> := [
    DeviceEntry(["iPhone17,1"], "iPhone 16 Pro"),
    DeviceEntry(["iPhone17,2"], "iPhone 16 Pro Max"),
    DeviceEntry(["iPhone17,3"], "iPhone 16"),
    DeviceEntry(["iPhone17,4"], "iPhone 16 Plus"),
    DeviceEntry(["iPhone17,5"], "iPhone 16e")
  ]

  const IPodArms: seq<DeviceEntry> := [
    DeviceEntry(["iPod1,1"], "iPod Touch (1st Gen)"),
    DeviceEntry(["iPod2,1"], "iPod Touch (2nd Gen)"),
    DeviceEntry(["iPod3,1"], "iPod Touch (3rd Gen)"),
    DeviceEntry(["iPod4,1"], "iPod Touch (4th Gen)"),
    DeviceEntry(["iPod5,1"], "iPod Touch (5th Gen)"),
    DeviceEntry(["iPod7,1"], "iPod Touch (6th Gen)"),
    DeviceEntry(["iPod9,1"], "iPod Touch (7th Gen)")
  ]

  const IPadArms1: seq<DeviceEntry> := [
    DeviceEntry(["iPad1,1"], "iPad (1st Gen)"),
    DeviceEntry(["iPad1,2"], "iPad (1st Gen, 3G)"),
    DeviceEntry(["iPad2,1"], "iPad 2 (WiFi)"),
    DeviceEntry(["iPad2,2"], "iPad 2 (GSM)"),
    DeviceEntry(["iPad2,3"], "iPad 2 (CDMA)"),
    DeviceEntry(["iPad2,4"], "iPad 2 (Rev A)"),
    DeviceEntry(["iPad2,5"], "iPad Mini (1st Gen)"),
    DeviceEntry(["iPad2,6"], "iPad Mini (1st Gen, GSM+LTE)"),
    DeviceEntry(["iPad2,7"], "iPad Mini (1st Gen, CDMA+LTE)"),
    DeviceEntry(["iPad3,1"], "iPad (3rd Gen, WiFi)"),
    DeviceEntry(["iPad3,2"], "iPad (3rd Gen, CDMA)"),
    DeviceEntry(["iPad3,3"], "iPad (3rd Gen, GSM)"),
    DeviceEntry(["iPad3,4"], "iPad (4th Gen, WiFi)"),
    DeviceEntry(["iPad3,5"], "iPad (4th Gen, GSM+LTE)"),
    DeviceEntry(["iPad3,6"], "iPad (4th Gen, CDMA+LTE)")
  ]

  const IPadArms2: seq<DeviceEntry> := [
    DeviceEntry(["iPad4,1"], "iPad Air (WiFi)"),
    DeviceEntry(["iPad4,2"], "iPad Air (GSM+CDMA)"),
    DeviceEntry(["iPad4,3"], "iPad Air (China)"),
    DeviceEntry(["iPad4,4"], "iPad Mini 2 (WiFi)"),
    DeviceEntry(["iPad4,5"], "iPad Mini 2 (GSM+CDMA)"),
    DeviceEntry(["iPad4,6"], "iPad Mini 2 (China)"),
    DeviceEntry(["iPad4,7"], "iPad Mini 3 (WiFi)"),
    DeviceEntry(["iPad4,8"], "iPad Mini 3 (GSM+CDMA)"),
    DeviceEntry(["iPad4,9"], "iPad Mini 3 (China)"),
    DeviceEntry(["iPad5,1"], "iPad Mini 4 (WiFi)"),
    DeviceEntry(["iPad5,2"], "iPad Mini 4 (WiFi+Cellular)"),
    DeviceEntry(["iPad5,3"], "iPad Air 2 (WiFi)"),
    DeviceEntry(["iPad5,4"], "iPad Air 2 (Cellular)"),
    DeviceEntry(["iPad6,3"], "iPad Pro (9.7 inch, WiFi)"),
    DeviceEntry(["iPad6,4"], "iPad Pro (9.7 inch, WiFi+LTE)")
  ]

  const IPadArms3: seq<DeviceEntry> := [
    DeviceEntry(["iPad6,7"], "iPad Pro (12.9 inch, WiFi)"),
    DeviceEntry(["iPad6,8"], "iPad Pro (12.9 inch, WiFi+LTE)"),
    DeviceEntry(["iPad6,11"], "iPad (5th Gen, WiFi)"),
    DeviceEntry(["iPad6,12"], "iPad (5th Gen, WiFi+Cellular)"),
    DeviceEntry(["iPad7,1"], "iPad Pro 2nd Gen (12.9 inch, WiFi)"),
    DeviceEntry(["iPad7,2"], "iPad Pro 2nd Gen (12.9 inch, WiFi+Cellular)"),
    DeviceEntry(["iPad7,3"], "iPad Pro 10.5-inch (WiFi)"),
    DeviceEntry(["iPad7,4"], "iPad Pro 10.5-inch (WiFi+Cellular)"),
    DeviceEntry(["iPad7,5"], "iPad (6th Gen, WiFi)"),
    DeviceEntry(["iPad7,6"], "iPad (6th Gen, WiFi+Cellular)"),
    DeviceEntry(["iPad7,11"], "iPad (7th Gen, 10.2 inch, WiFi)"),
    DeviceEntry(["iPad7,12"], "iPad (7th Gen, 10.2 inch, WiFi+Cellular)"),
    DeviceEntry(["iPad8,1"], "iPad Pro 11 inch (3rd Gen, WiFi)"),
    DeviceEntry(["iPad8,2"], "iPad Pro 11 inch (3rd Gen, 1TB, WiFi)"),
    DeviceEntry(["iPad8,3"], "iPad Pro 11 inch (3rd Gen, WiFi+Cellular)")
  ]

  const IPadArms4: seq<DeviceEntry> := [
    DeviceEntry(["iPad8,4"], "iPad Pro 11 inch (3rd Gen, 1TB, WiFi+Cellular)"),
    DeviceEntry(["iPad8,5"], "iPad Pro 12.9 inch (3rd Gen, WiFi)"),
    DeviceEntry(["iPad8,6"], "iPad Pro 12.9 inch (3rd Gen, 1TB, WiFi)"),
    DeviceEntry(["iPad8,7"], "iPad Pro 12.9 inch (3rd Gen, WiFi+Cellular)"),
    DeviceEntry(["iPad8,8"], "iPad Pro 12.9 inch (3rd Gen, 1TB, WiFi+Cellular)"),
    DeviceEntry(["iPad8,9"], "iPad Pro 11 inch (4th Gen, WiFi)"),
    DeviceEntry(["iPad8,10"], "iPad Pro 11 inch (4th Gen, WiFi+Cellular)"),
    DeviceEntry(["iPad8,11"], "iPad Pro 12.9 inch (4th Gen, WiFi)"),
    DeviceEntry(["iPad8,12"], "iPad Pro 12.9 inch (4th Gen, WiFi+Cellular)"),
    DeviceEntry(["iPad11,1"], "iPad Mini (5th Gen, WiFi)"),
    DeviceEntry(["iPad11,2"], "iPad Mini (5th Gen, WiFi+Cellular)"),
    DeviceEntry(["iPad11,3"], "iPad Air (3rd Gen, WiFi)"),
    DeviceEntry(["iPad11,4"], "iPad Air (3rd Gen, WiFi+Cellular)"),
    DeviceEntry(["iPad11,6"], "iPad (8th Gen, WiFi)"),
    DeviceEntry(["iPad11,7"], "iPad (8th Gen, WiFi+Cellular)")
  ]

  const IPadArms5: seq<DeviceEntry> := [
    DeviceEntry(["iPad12,1"], "iPad (9th Gen, WiFi)"),
    DeviceEntry(["iPad12,2"], "iPad (9th Gen, WiFi+Cellular)"),
    DeviceEntry(["iPad13,1"], "iPad Air (4th Gen, WiFi)"),
    DeviceEntry(["iPad13,2"], "iPad Air (4th Gen, WiFi+Cellular)"),
    DeviceEntry(["iPad13,4"], "iPad Pro 11 inch (5th Gen)"),
    DeviceEntry(["iPad13,5"], "iPad Pro 11 inch (5th Gen)"),
    DeviceEntry(["iPad13,6"], "iPad Pro 11 inch (5th Gen)"),
    DeviceEntry(["iPad13,7"], "iPad Pro 11 inch (5th Gen)"),
    DeviceEntry(["iPad13,8"], "iPad Pro 12.9 inch (5th Gen)"),
    DeviceEntry(["iPad13,9"], "iPad Pro 12.9 inch (5th Gen)"),
    DeviceEntry(["iPad13,10"], "iPad Pro 12.9 inch (5th Gen)"),
    DeviceEntry(["iPad13,11"], "iPad Pro 12.9 inch (5th Gen)"),
    DeviceEntry(["iPad13,16"], "iPad Air (5th Gen, WiFi)"),
    DeviceEntry(["iPad13,17"], "iPad Air (5th Gen, WiFi+Cellular)"),
    DeviceEntry(["iPad13,18"], "iPad (10th Gen)")
  ]

  const IPadArms6: seq<DeviceEntry> := [
    DeviceEntry(["iPad13,19"], "iPad (10th Gen)"),
    DeviceEntry(["iPad14,1"], "iPad Mini (6th Gen, WiFi)"),
    DeviceEntry(["iPad14,2"], "iPad Mini (6th Gen, WiFi+Cellular)"),
    DeviceEntry(["iPad14,3"], "iPad Pro 11 inch (4th Gen)"),
    DeviceEntry(["iPad14,4"], "iPad Pro 11 inch (4th Gen)"),
    DeviceEntry(["iPad14,5"], "iPad Pro 12.9 inch (6th Gen)"),
    DeviceEntry(["iPad14,6"], "iPad Pro 12.9 inch (6th Gen)"),
    DeviceEntry(["iPad14,8"], "iPad Air (6th Gen)"),
    DeviceEntry(["iPad14,9"], "iPad Air (6th Gen)"),
    DeviceEntry(["iPad14,10"], "iPad Air (7th Gen)"),
    DeviceEntry(["iPad14,11"], "iPad Air (7th Gen)"),
    DeviceEntry(["iPad16,1"], "iPad Mini (7th Gen, WiFi)"),
    DeviceEntry(["iPad16,2"], "iPad Mini (7th Gen, WiFi+Cellular)"),
    DeviceEntry(["iPad16,3"], "iPad Pro 11 inch (5th Gen)"),
    DeviceEntry(["iPad16,4"], "iPad Pro 11 inch (5th Gen)")
  ]

  const IPadArms7: seq<DeviceEntry> := [
    DeviceEntry(["iPad16,5"], "iPad Pro 12.9 inch (7th Gen)"),
    DeviceEntry(["iPad16,6"], "iPad Pro 12.9 inch (7th Gen)")
  ]

  const SimulatorArms: seq<DeviceEntry> := [
    DeviceEntry(["arm64"], "Simulator (arm64)")
  ]

  const DeviceTable: seq<DeviceEntry> :=
    IPhoneArms1 + IPhoneArms2 + IPhoneArms3 + IPhoneArms4 + IPodArms + IPadArms1 + IPadArms2 + IPadArms3 + IPadArms4 + IPadArms5 + IPadArms6 + IPadArms7 + SimulatorArms

  /** The switch: the first arm listing the identifier wins; no arm gives the identifier itself. */
  function LookupDevice(model: string, table: seq<DeviceEntry>): (name: string)
    ensures (forall k :: 0 <= k < |table| ==> model !in table[k].models) ==> name == model
    ensures name != model ==> exists k :: 0 <= k < |table| && model in table[k].models && name == table[k].name
  {
    if table == [] then model
    else if model in table[0].models then table[0].name
    else LookupDevice(model, table[1..])
  }

  /** `getDeviceName`: the marketing name of a known identifier, or the identifier itself. */
  function DeviceName(model: string): (name: string)
    ensures (forall k :: 0 <= k < |DeviceTable| ==> model !in DeviceTable[k].models) ==> name == model
  {
    LookupDevice(model, DeviceTable)
  }

  /** The arm at position k answers for an identifier listed there and in no earlier arm. */
  lemma {:induction false} LookupFirstArm(model: string, table: seq<DeviceEntry>, k: nat)
    requires k < |table| && model in table[k].models
    requires forall j :: 0 <= j < k ==> model !in table[j].models
    ensures LookupDevice(model, table) == table[k].name
  {
    if k > 0 {
      LookupFirstArm(model, table[1..], k - 1);
    }
  }

  /** The three iPhone 4 identifiers share one name. */
  lemma IPhone4Shared(model: string)
    requires model in ["iPhone3,1", "iPhone3,2", "iPhone3,3"]
    ensures DeviceName(model) == "iPhone 4"
  {
    var t := DeviceTable;
    assert forall j :: 0 <= j <= 3 ==> t[j] == IPhoneArms1[j];
    LookupFirstArm(model, t, 3);
  }
}
