/**
 * The home-screen widget's timeline provider: the entry it builds from the
 * shared battery data and the intent configuration, and when it asks to be
 * refreshed next.
 */
module BatteryInfoWidget {
  import opened Wrappers

  /**
   * The data the app shares with the widget.  `updateTimeStamp` is the
   * timestamp `getTimeline` reads, 0 marking data that is not valid; the
   * declaration in WidgetBatteryData.swift has no such field, so its origin
   * is not part of this model.
   */
  datatype WidgetBatteryData = WidgetBatteryData(maximumCapacity: string, cycleCount: int, updateDate: string, updateTimeStamp: int)

  /** The widget's colour scheme, with the raw values of the intent's enum. */
  datatype AppearanceType = System | Light | Dark

  function AppearanceRaw(a: AppearanceType): (raw: int)
    ensures 1 <= raw <= 3
  {
    match a
    case System => 1
    case Light => 2
    case Dark => 3
  }

  /** `AppearanceType.from(intent:)`: 1, 2 and 3 name the three schemes; every other raw value falls back to System. */
  function AppearanceFrom(raw: int): (a: AppearanceType)
    ensures a == Light <==> raw == 2
    ensures a == Dark <==> raw == 3
    ensures a == System <==> raw != 2 && raw != 3
  {
    if raw == 1 then System
    else if raw == 2 then Light
    else if raw == 3 then Dark
    else System
  }

  /** Every scheme survives the trip through its raw value. */
  lemma AppearanceRoundTrip(a: AppearanceType)
    ensures AppearanceFrom(AppearanceRaw(a)) == a
  {
  }

  /** The parts of the widget intent the provider reads. */
  datatype WidgetIntent = WidgetIntent(appearanceRaw: int, showUpdateTime: Option<bool>)

  /** `showUpdateTime` is on unless the intent explicitly turns it off. */
  function ShowUpdateTime(intent: WidgetIntent): (show: bool)
    ensures show <==> intent.showUpdateTime != Some(false)
  {
    intent.showUpdateTime.GetOr(true)
  }

  datatype SimpleEntry = SimpleEntry(date: int, batteryData: WidgetBatteryData, appearance: AppearanceType, showUpdateTime: bool)

  /** `createEntry(with:)`: the shared data, dated now, with the intent's appearance and update-time switch. */
  function CreateEntry(intent: WidgetIntent, data: WidgetBatteryData, now: int): (e: SimpleEntry)
    ensures e.date == now && e.batteryData == data
    ensures e.appearance == AppearanceFrom(intent.appearanceRaw) && e.showUpdateTime == ShowUpdateTime(intent)
  {
    SimpleEntry(now, data, AppearanceFrom(intent.appearanceRaw), ShowUpdateTime(intent))
  }

  /** When the system should ask for the next timeline: once this one ends, or at a given time. */
  datatype RefreshPolicy = AtEnd | After(date: int)

  datatype Timeline = Timeline(entries: seq<SimpleEntry>, policy: RefreshPolicy)

  /** Data younger than this many seconds counts as new. */
  const FreshWindow: int := 60 * 5

  /** The delay, in seconds, before a timeline over old data is refreshed. */
  const StaleRefreshDelay: int := 60 * 45

  /**
   * `getTimeline`: a single entry; refresh at its end when the data is
   * invalid (time stamp 0) or new, otherwise in 45 minutes.
   */
  function GetTimeline(intent: WidgetIntent, data: WidgetBatteryData, now: int): (t: Timeline)
    ensures |t.entries| == 1 && t.entries[0] == CreateEntry(intent, data, now)
    ensures data.updateTimeStamp == 0 ==> t.policy == AtEnd
    ensures data.updateTimeStamp != 0 && now - data.updateTimeStamp < 300 ==> t.policy == AtEnd
    ensures data.updateTimeStamp != 0 && now - data.updateTimeStamp >= 300 ==> t.policy == After(now + 2700)
  {
    var entry := CreateEntry(intent, data, now);
    if data.updateTimeStamp == 0 then Timeline([entry], AtEnd)
    else
      var hasNewData := now - data.updateTimeStamp < FreshWindow;
      if hasNewData then Timeline([entry], AtEnd)
      else Timeline([entry], After(now + StaleRefreshDelay))
  }

  /** A scheduled refresh happens exactly for valid data at least five minutes old, and always lies in the future. */
  lemma ScheduledRefresh(intent: WidgetIntent, data: WidgetBatteryData, now: int)
    ensures GetTimeline(intent, data, now).policy.After? <==> data.updateTimeStamp != 0 && now >= data.updateTimeStamp + 300
    ensures GetTimeline(intent, data, now).policy.After? ==> GetTimeline(intent, data, now).policy.date > now
  {
  }
}
