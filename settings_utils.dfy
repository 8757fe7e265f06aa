/**
 * The settings store: a flat key/value property list.  Every getter reads the
 * stored value of the right type or falls back to its default; every setter
 * writes one key (flushing to disk is not part of the model).
 */
module SettingsUtils {

  datatype PlistValue = PInt(i: int) | PBool(b: bool) | PString(s: string) | PArray(elems: seq<PlistValue>)

  type Plist = map<string, PlistValue>

  datatype ApplicationLanguage = System | English | SimplifiedChinese | Spanish
  datatype MaximumCapacityAccuracy = Keep | Ceiling | Round | Floor
  /** The magnitude of the stored code selects the policy; its sign enables or disables recording. */
  datatype RecordFrequency = Toggle | Automatic | DataChanged | EveryDay | Manual
  datatype WidgetRefreshFrequency = DataChanged | RefreshDataEveryTime | Manual | Fixed5Minutes

  function LanguageFromRaw(v: int): ApplicationLanguage {
    if v == 1 then English else if v == 2 then SimplifiedChinese else if v == 3 then Spanish else System
  }

  /** `MaximumCapacityAccuracy(rawValue:) ?? .Ceiling` */
  function AccuracyFromRaw(v: int): (r: MaximumCapacityAccuracy)
    ensures r == Keep <==> v == 0
    ensures r == Round <==> v == 2
    ensures r == Floor <==> v == 3
    ensures r == Ceiling <==> v != 0 && v != 2 && v != 3
  {
    if v == 0 then Keep else if v == 2 then Round else if v == 3 then Floor else Ceiling
  }

  /** `RecordFrequency(rawValue:)` */
  function RecordFrequencyFromRaw(v: int): (r: RecordFrequency) {
    if v == 0 then Toggle
    else if v == 2 then RecordFrequency.DataChanged
    else if v == 3 then EveryDay
    else if v == 4 then RecordFrequency.Manual
    else Automatic
  }

  /** `WidgetRefreshFrequency(rawValue:) ?? .DataChanged` */
  function WidgetRefreshFromRaw(v: int): (r: WidgetRefreshFrequency)
    ensures r == WidgetRefreshFrequency.DataChanged <==> v !in {1, 2, 3}
  {
    if v == 1 then RefreshDataEveryTime
    else if v == 2 then WidgetRefreshFrequency.Manual
    else if v == 3 then Fixed5Minutes
    else WidgetRefreshFrequency.DataChanged
  }

  // The property-list manager's typed getters: the stored value when it has the type, else the default.

  function IntOr(p: Plist, key: string, default: int): int {
    if key in p && p[key].PInt? then p[key].i else default
  }

  function BoolOr(p: Plist, key: string, default: bool): bool {
    if key in p && p[key].PBool? then p[key].b else default
  }

  function StringOr(p: Plist, key: string, default: string): string {
    if key in p && p[key].PString? then p[key].s else default
  }

  function ArrayOr(p: Plist, key: string, default: seq<PlistValue>): seq<PlistValue> {
    if key in p && p[key].PArray? then p[key].elems else default
  }

  /** The raw record-frequency code; a missing code reads as Automatic (1), i.e. enabled. */
  function RecordFrequencyRaw(p: Plist): int {
    IntOr(p, "RecordFrequency", 1)
  }

  /** `getEnableRecordBatteryData` */
  predicate RecordingEnabled(raw: int) {
    raw > 0
  }

  /** `getRecordFrequency`: the policy named by the magnitude; 0 and unknown codes give Automatic. */
  function PolicyOf(raw: int): (r: RecordFrequency)
    ensures r != Toggle
    ensures r == RecordFrequency.DataChanged <==> raw == 2 || raw == -2
    ensures r == EveryDay <==> raw == 3 || raw == -3
    ensures r == RecordFrequency.Manual <==> raw == 4 || raw == -4
  {
    if raw == 0 then Automatic
    else RecordFrequencyFromRaw(if raw < 0 then -raw else raw)
  }

  /** Disabling recording (negating the code) never changes the policy it reports. */
  lemma PolicyIgnoresSign(raw: int)
    ensures PolicyOf(-raw) == PolicyOf(raw)
    ensures raw !in {-4, -3, -2, 2, 3, 4} ==> PolicyOf(raw) == Automatic
  {
  }

  /**
   * The code `setRecordFrequency(value:)` stores: a positive value keeps the
   * current enabled/disabled sign; any other value negates the current code.
   */
  function StoredFrequency(original: int, value: int): (r: int)
    ensures value > 0 && original < 0 ==> r == -value
    ensures value > 0 && original >= 0 ==> r == value
    ensures value <= 0 ==> r == -original
  {
    if value > 0 then (if original < 0 then -value else value) else -original
  }

  /** Toggling twice restores the stored code exactly. */
  lemma ToggleIsInvolution(original: int)
    ensures StoredFrequency(StoredFrequency(original, 0), 0) == original
  {
  }

  /**
   * Choosing a policy keeps recording enabled or disabled as it was (a stored
   * 0 counts as disabled and becomes enabled) and makes that policy the active one.
   */
  lemma SetFrequencyKeepsState(original: int, value: int)
    requires value > 0
    ensures original != 0 ==> (RecordingEnabled(StoredFrequency(original, value)) <==> RecordingEnabled(original))
    ensures original == 0 ==> RecordingEnabled(StoredFrequency(original, value))
    ensures PolicyOf(StoredFrequency(original, value)) == PolicyOf(value)
  {
  }

  /** Toggling flips enabled/disabled for a non-zero code and keeps the active policy. */
  lemma ToggleFlipsState(original: int)
    requires original != 0
    ensures RecordingEnabled(StoredFrequency(original, 0)) <==> !RecordingEnabled(original)
    ensures PolicyOf(StoredFrequency(original, 0)) == PolicyOf(original)
  {
  }

  /** The default home group order: basic, charge, settings battery info. */
  const DefaultHomeSequence: seq<int> := [1, 2, 3]

  /** `raw.compactMap { $0 as? Int }` */
  function IntsOf(raw: seq<PlistValue>): (r: seq<int>)
    ensures |r| <= |raw|
    ensures forall x :: x in r <==> PInt(x) in raw
  {
    if raw == [] then []
    else
      assert raw == [raw[0]] + raw[1..];
      if raw[0].PInt? then [raw[0].i] + IntsOf(raw[1..])
      else IntsOf(raw[1..])
  }

  /** A one-element array keeps its element exactly when it is an Int. */
  lemma IntsOfSingle(v: PlistValue)
    ensures IntsOf([v]) == if v.PInt? then [v.i] else []
  {
    assert [v][1..] == [];
  }

  lemma IntsOfCons(v: PlistValue, rest: seq<PlistValue>)
    ensures IntsOf([v] + rest) == IntsOf([v]) + IntsOf(rest)
  {
    IntsOfSingle(v);
    assert ([v] + rest)[1..] == rest;
  }

  /**
   * Keeping the Int elements works element by element: together with
   * `IntsOfSingle`, the kept Ints appear in the array's order.
   */
  lemma {:induction false} IntsOfConcat(a: seq<PlistValue>, b: seq<PlistValue>)
    ensures IntsOf(a + b) == IntsOf(a) + IntsOf(b)
  {
    if a == [] {
      assert a + b == b;
    } else {
      var v, tail := a[0], a[1..];
      assert a == [v] + tail && a + b == [v] + (tail + b);
      IntsOfConcat(tail, b);
      IntsOfCons(v, tail);
      IntsOfCons(v, tail + b);
    }
  }

  /** The array `set` stores for an order: one Int element per entry. */
  function AsPlistInts(s: seq<int>): seq<PlistValue> {
    seq(|s|, k requires 0 <= k < |s| => PInt(s[k]))
  }

  predicate NoDuplicates(s: seq<int>) {
    forall i, j :: 0 <= i < j < |s| ==> s[i] != s[j]
  }

  /** `Set(s).count == s.count`: the test the store uses for "no duplicates". */
  predicate SameCountAsSet(s: seq<int>) {
    |set x | x in s| == |s|
  }

  lemma {:induction false} SetCountDetectsDuplicates(s: seq<int>)
    ensures SameCountAsSet(s) <==> NoDuplicates(s)
    ensures |set x | x in s| <= |s|
  {
    if s != [] {
      var rest := s[1..];
      SetCountDetectsDuplicates(rest);
      var tail := set x | x in rest;
      assert (set x | x in s) == tail + {s[0]};
      if s[0] in rest {
        assert (set x | x in s) == tail;
        var j :| 0 <= j < |rest| && rest[j] == s[0];
        assert s[0] == s[j + 1];
      } else {
        assert s[0] !in tail;
        assert NoDuplicates(s) <==> NoDuplicates(rest) by {
          if NoDuplicates(rest) {
            forall i, j | 0 <= i < j < |s| ensures s[i] != s[j] {
              if i == 0 { assert s[j] == rest[j - 1]; } else { assert s[i] == rest[i - 1] && s[j] == rest[j - 1]; }
            }
          }
        }
      }
    }
  }

  lemma {:induction false} IntsOfPlistInts(s: seq<int>)
    ensures IntsOf(AsPlistInts(s)) == s
  {
    if s != [] {
      assert AsPlistInts(s)[1..] == AsPlistInts(s[1..]);
      IntsOfPlistInts(s[1..]);
    }
  }

  /** What `getHomeItemGroupSequence` returns for a stored array. */
  function HomeSequenceOf(raw: seq<PlistValue>): (r: seq<int>) {
    var ints := IntsOf(raw);
    if ints == [] then DefaultHomeSequence
    else if !SameCountAsSet(ints) then DefaultHomeSequence
    else ints
  }

  /** Whether that read also clears the stored array (it held a duplicate). */
  predicate HomeSequenceClears(raw: seq<PlistValue>) {
    var ints := IntsOf(raw);
    ints != [] && !SameCountAsSet(ints)
  }

  /** The home group order read back is never empty and never lists a group twice. */
  lemma HomeSequenceWellFormed(raw: seq<PlistValue>)
    ensures |HomeSequenceOf(raw)| > 0 && NoDuplicates(HomeSequenceOf(raw))
    ensures IntsOf(raw) == [] ==> HomeSequenceOf(raw) == DefaultHomeSequence
    ensures HomeSequenceClears(raw) <==> IntsOf(raw) != [] && !NoDuplicates(IntsOf(raw))
  {
    SetCountDetectsDuplicates(IntsOf(raw));
  }

  /** A non-empty, duplicate-free order that was stored is read back unchanged. */
  lemma HomeSequenceRoundTrip(s: seq<int>)
    requires |s| > 0 && NoDuplicates(s)
    ensures HomeSequenceOf(AsPlistInts(s)) == s
    ensures !HomeSequenceClears(AsPlistInts(s))
  {
    IntsOfPlistInts(s);
    SetCountDetectsDuplicates(s);
  }

  class Settings {
    var plist: Plist

    constructor (initial: Plist)
      ensures plist == initial
    {
      plist := initial;
    }

    /** `getApplicationLanguage`: follows the system unless a known language code is stored. */
    function ApplicationLanguageSetting(): (r: ApplicationLanguage)
      reads this
      ensures r == System <==> !("ApplicationLanguage" in plist && plist["ApplicationLanguage"].PInt? &&
                                 plist["ApplicationLanguage"].i in {1, 2, 3})
    {
      LanguageFromRaw(IntOr(plist, "ApplicationLanguage", 0))
    }

    /** A switch of the store: its stored flag, or `default` when none of type bool is stored. */
    function Flag(key: string, default: bool): (r: bool)
      reads this
      ensures key in plist && plist[key].PBool? ==> r == plist[key].b
      ensures !(key in plist && plist[key].PBool?) ==> r == default
    {
      BoolOr(plist, key, default)
    }

    /** `getAutoRefreshDataView`: on by default. */
    function AutoRefreshDataView(): (r: bool)
      reads this
      ensures "AutoRefreshDataView" !in plist ==> r
    {
      Flag("AutoRefreshDataView", true)
    }

    /** `getForceShowChargingData`: off by default. */
    function ForceShowChargingData(): (r: bool)
      reads this
      ensures "ForceShowChargingData" !in plist ==> !r
    {
      Flag("ForceShowChargingData", false)
    }

    /** `getShowSettingsBatteryInfo`: off by default. */
    function ShowSettingsBatteryInfo(): (r: bool)
      reads this
      ensures "ShowSettingsBatteryInfo" !in plist ==> !r
    {
      Flag("ShowSettingsBatteryInfo", false)
    }

    /** `getDoubleClickTabBarButtonToScrollToTop`: on by default. */
    function DoubleClickTabBarButtonToScrollToTop(): (r: bool)
      reads this
      ensures "DoubleClickTabBarButtonToScrollToTop" !in plist ==> r
    {
      Flag("DoubleClickTabBarButtonToScrollToTop", true)
    }

    /** `getShowHistoryRecordViewInHomeView`: on by default. */
    function ShowHistoryRecordViewInHomeView(): (r: bool)
      reads this
      ensures "ShowHistoryRecordViewInHomeView" !in plist ==> r
    {
      Flag("ShowHistoryRecordViewInHomeView", true)
    }

    /** `getRecordShowDesignCapacity`: on by default. */
    function RecordShowDesignCapacity(): (r: bool)
      reads this
      ensures "RecordShowDesignCapacity" !in plist ==> r
    {
      Flag("RecordShowDesignCapacity", true)
    }

    /** `getEnableHistoryStatistics`: on by default. */
    function EnableHistoryStatistics(): (r: bool)
      reads this
      ensures "EnableHistoryStatistics" !in plist ==> r
    {
      Flag("EnableHistoryStatistics", true)
    }

    /** `getEnableWidget`: always off before iOS 14, otherwise on by default. */
    function EnableWidget(widgetsSupported: bool): (r: bool)
      reads this
      ensures !widgetsSupported ==> !r
      ensures widgetsSupported && "EnableWidget" !in plist ==> r
    {
      widgetsSupported && Flag("EnableWidget", true)
    }

    /** `getWidgetSandboxDirectoryPath`: empty when no path is stored. */
    function WidgetSandboxDirectoryPath(): (r: string)
      reads this
      ensures "WidgetSandboxPath" !in plist ==> r == ""
    {
      StringOr(plist, "WidgetSandboxPath", "")
    }

    /** `getMaximumCapacityAccuracy`: Ceiling when the code is missing or unknown. */
    function MaximumCapacityAccuracySetting(): (r: MaximumCapacityAccuracy)
      reads this
      ensures !("MaximumCapacityAccuracy" in plist && plist["MaximumCapacityAccuracy"].PInt?) ==> r == Ceiling
      ensures ("MaximumCapacityAccuracy" in plist && plist["MaximumCapacityAccuracy"].PInt? &&
               plist["MaximumCapacityAccuracy"].i !in {0, 2, 3}) ==> r == Ceiling
    {
      AccuracyFromRaw(IntOr(plist, "MaximumCapacityAccuracy", 1))
    }

    /** `getEnableRecordBatteryData`: enabled by default, disabled exactly when the stored code is 0 or negative. */
    function EnableRecordBatteryData(): (r: bool)
      reads this
      ensures "RecordFrequency" !in plist ==> r
      ensures "RecordFrequency" in plist && plist["RecordFrequency"].PInt? ==> (r <==> plist["RecordFrequency"].i > 0)
    {
      RecordingEnabled(RecordFrequencyRaw(plist))
    }

    function RecordFrequencySetting(): (r: RecordFrequency)
      reads this
      ensures r != Toggle
    {
      PolicyOf(RecordFrequencyRaw(plist))
    }

    /** `getUseHistoryRecordToCalculateSettingsBatteryInfoRefreshDate`: never true while recording is off. */
    function UseHistoryRecordToCalculate(): (r: bool)
      reads this
      ensures r ==> RecordingEnabled(RecordFrequencyRaw(plist))
      ensures RecordingEnabled(RecordFrequencyRaw(plist)) && "UseHistoryRecordToCalculate" !in plist ==> r
    {
      EnableRecordBatteryData() && BoolOr(plist, "UseHistoryRecordToCalculate", true)
    }

    /** `getWidgetRefreshFrequency`: DataChanged when the code is missing or unknown. */
    function WidgetRefreshFrequencySetting(): (r: WidgetRefreshFrequency)
      reads this
      ensures !("WidgetRefreshFrequency" in plist && plist["WidgetRefreshFrequency"].PInt?) ==>
        r == WidgetRefreshFrequency.DataChanged
    {
      WidgetRefreshFromRaw(IntOr(plist, "WidgetRefreshFrequency", 0))
    }

    method SetApplicationLanguage(value: int)
      modifies this
      ensures plist == old(plist)["ApplicationLanguage" := PInt(value)]
    {
      plist := plist["ApplicationLanguage" := PInt(value)];
    }

    method SetForceShowChargingData(value: bool)
      modifies this
      ensures plist == old(plist)["ForceShowChargingData" := PBool(value)]
    {
      plist := plist["ForceShowChargingData" := PBool(value)];
    }

    /** The setters of the boolean switches: each stores its flag under its key and touches nothing else. */
    method SetFlag(key: string, value: bool)
      modifies this
      ensures plist == old(plist)[key := PBool(value)]
      ensures Flag(key, true) == value && Flag(key, false) == value
    {
      plist := plist[key := PBool(value)];
    }

    /** `setEnableWidget`: before iOS 14 the switch is stored as off whatever is asked. */
    method SetEnableWidget(enable: bool, widgetsSupported: bool)
      modifies this
      ensures plist == old(plist)["EnableWidget" := PBool(widgetsSupported && enable)]
      ensures EnableWidget(widgetsSupported) == (widgetsSupported && enable)
    {
      if widgetsSupported {
        plist := plist["EnableWidget" := PBool(enable)];
      } else {
        plist := plist["EnableWidget" := PBool(false)];
      }
    }

    /** `setWidgetSandboxDirectoryPath` */
    method SetWidgetSandboxDirectoryPath(path: string)
      modifies this
      ensures plist == old(plist)["WidgetSandboxPath" := PString(path)]
      ensures WidgetSandboxDirectoryPath() == path
    {
      plist := plist["WidgetSandboxPath" := PString(path)];
    }

    /** `removeWidgetSandboxDirectoryPath`: the path reads back as empty. */
    method RemoveWidgetSandboxDirectoryPath()
      modifies this
      ensures plist == old(plist) - {"WidgetSandboxPath"}
      ensures WidgetSandboxDirectoryPath() == ""
    {
      plist := plist - {"WidgetSandboxPath"};
    }

    method SetMaximumCapacityAccuracy(value: int)
      modifies this
      ensures plist == old(plist)["MaximumCapacityAccuracy" := PInt(value)]
    {
      plist := plist["MaximumCapacityAccuracy" := PInt(value)];
    }

    method SetUseHistoryRecordToCalculate(value: bool)
      modifies this
      ensures plist == old(plist)["UseHistoryRecordToCalculate" := PBool(value)]
    {
      plist := plist["UseHistoryRecordToCalculate" := PBool(value)];
    }

    method SetWidgetRefreshFrequency(value: int)
      modifies this
      ensures plist == old(plist)["WidgetRefreshFrequency" := PInt(value)]
    {
      plist := plist["WidgetRefreshFrequency" := PInt(value)];
    }

    /**
     * `setRecordFrequency(value:)`: a read-modify-write of the signed code.
     * Recording stays enabled or disabled when a policy is chosen, and a value
     * of 0 toggles it; the chosen policy becomes the active one.
     */
    method SetRecordFrequency(value: int)
      modifies this
      ensures plist == old(plist)["RecordFrequency" := PInt(StoredFrequency(RecordFrequencyRaw(old(plist)), value))]
      ensures value > 0 ==> RecordFrequencySetting() == PolicyOf(value)
      ensures value > 0 && RecordFrequencyRaw(old(plist)) != 0 ==>
        (EnableRecordBatteryData() <==> old(EnableRecordBatteryData()))
      ensures value <= 0 && RecordFrequencyRaw(old(plist)) != 0 ==>
        (EnableRecordBatteryData() <==> !old(EnableRecordBatteryData()))
    {
      var originalValue := RecordFrequencyRaw(plist);
      var changedValue := value;
      if changedValue > 0 {
        if originalValue < 0 {
          changedValue := -changedValue;
        }
      } else {
        changedValue := -originalValue;
      }
      plist := plist["RecordFrequency" := PInt(changedValue)];
      if value > 0 {
        SetFrequencyKeepsState(originalValue, value);
      }
      if value <= 0 && originalValue != 0 {
        ToggleFlipsState(originalValue);
      }
    }

    /**
     * `getHomeItemGroupSequence`: never empty, never a duplicate; a stored
     * array with a duplicate is cleared as a side effect.
     */
    method GetHomeItemGroupSequence() returns (sequence: seq<int>)
      modifies this
      ensures sequence == HomeSequenceOf(ArrayOr(old(plist), "HomeItemGroupSequence", []))
      ensures |sequence| > 0 && NoDuplicates(sequence)
      ensures plist == if HomeSequenceClears(ArrayOr(old(plist), "HomeItemGroupSequence", []))
                       then old(plist)["HomeItemGroupSequence" := PArray([])]
                       else old(plist)
    {
      var raw := ArrayOr(plist, "HomeItemGroupSequence", []);
      var intArray := IntsOf(raw);
      HomeSequenceWellFormed(raw);
      if intArray == [] {
        return DefaultHomeSequence;
      }
      if !SameCountAsSet(intArray) {
        plist := plist["HomeItemGroupSequence" := PArray([])];
        return DefaultHomeSequence;
      }
      return intArray;
    }

    /** `setHomeItemGroupSequence`: an empty order or one with a duplicate is ignored. */
    method SetHomeItemGroupSequence(sequence: seq<int>)
      modifies this
      ensures plist == if |sequence| > 0 && NoDuplicates(sequence)
                       then old(plist)["HomeItemGroupSequence" := PArray(AsPlistInts(sequence))]
                       else old(plist)
      ensures |sequence| > 0 && NoDuplicates(sequence) ==>
        HomeSequenceOf(ArrayOr(plist, "HomeItemGroupSequence", [])) == sequence
    {
      SetCountDetectsDuplicates(sequence);
      if sequence == [] || !SameCountAsSet(sequence) {
        return;
      }
      plist := plist["HomeItemGroupSequence" := PArray(AsPlistInts(sequence))];
      HomeSequenceRoundTrip(sequence);
    }

    /** `resetHomeItemGroupSequence`: the next read gives the default order. */
    method ResetHomeItemGroupSequence()
      modifies this
      ensures plist == old(plist) - {"HomeItemGroupSequence"}
      ensures HomeSequenceOf(ArrayOr(plist, "HomeItemGroupSequence", [])) == DefaultHomeSequence
    {
      plist := plist - {"HomeItemGroupSequence"};
    }
  }
}
