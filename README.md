# BatteryInfo battery-data pipeline in Dafny

This project models the core of BatteryInfo, an iOS app that shows battery telemetry and keeps a history of it. It covers the app's deterministic decisions over integer telemetry:

- **Normalising telemetry.** The raw battery, adapter, accessory and lifetime records are built from an untyped dictionary. A field is present exactly when its key holds a value of the right type. A flag is true exactly when its key holds the Int 1.
- **Display items.** The controller derives display items from one battery snapshot: item ids and group order, the not-charging-reason table, the choice of the power option in use, and the charge group's contents.
- **Settings store.** The store is a key/value property list:
  - the sign-encoded record-frequency code, where the sign enables or disables recording and the magnitude picks the policy;
  - the home group order, which is kept non-empty and free of duplicates;
  - the typed getters with their defaults.
- **Recording policy.** `recordBatteryData` decides whether a history row is appended to the history table. The table is an in-memory sequence with an auto-increment id. Each query is modelled by what its SQL text says.
- **Pure helpers.** Serial masking, the rounding modes of the health percentage, the battery-supplier prefix table, the region-code check, the uptime split and the device-name table.
- **Small stateful pieces.** The display group (`InfoItemGroup`), the six-hour cache of the Settings-app battery figures, and the widget's timeline refresh rule.

## Module layout

Each source file has one module. Objects whose fields the source updates in place are classes:

| class | module |
|---|---|
| `Settings` | `SettingsUtils` |
| `BatteryRecordDatabaseManager` | `BatteryRecordDatabase` |
| `InfoItemGroup` | `InfoItemGroup` |
| `SettingsBatteryDataCache` | `SettingsBatteryDataController` |
| `BatteryDataControllerState` | `BatteryDataController` |

The pure parts are datatypes, functions and lemmas. Three modules are shared:

- `Wrappers` holds `Option`.
- `Variant` holds the untyped dictionary and its casts.
- `Decimal` holds Swift's `String(Int)` and its inverse.

Item texts are tokens: a localisation key plus the argument substituted into it. Localised wording and `"%.2f"` rendering are kept abstract.

## Model

| member | source | states |
|---|---|---|
| Variant.IntAt | BatteryInfo/Entity/BatteryRAWInfo.swift:31-41 | `as? Int` succeeds exactly when the key holds an Int, and then yields it |
| Variant.StringAt | BatteryInfo/Entity/BatteryRAWInfo.swift:35 | `as? String` succeeds exactly when the key holds a String, and then yields it |
| Variant.DictAt | BatteryInfo/Entity/BatteryRAWInfo.swift:47-61 | `as? [String: Any]` succeeds exactly when the key holds a dictionary |
| Variant.DictArrayAt | BatteryInfo/Entity/BatteryRAWInfo.swift:63-71 | `as? [[String: Any]]` succeeds exactly for an array whose every element is a dictionary, keeping length and order |
| RawAccessory.AccessoryFields | BatteryInfo/Entity/RAWData/AccessoryDetails.swift:10-14 | capacity is the Int under its key or absent; both flags are never absent and are true exactly for the Int 1 |
| RawAccessory.AccessoryFromEmpty | BatteryInfo/Entity/RAWData/AccessoryDetails.swift:11-13 | an empty dictionary gives (absent, false, false) |
| RawAdapter.AdapterScalarFields | BatteryInfo/Entity/RAWData/AdapterDetails.swift:27-45 | every Int or String field copies its key's value when the type matches, else is absent |
| RawAdapter.AdapterFlags | BatteryInfo/Entity/RAWData/AdapterDetails.swift:32-34 | `isWireless` and `sharedSource` are never absent and are true exactly for the Int 1 |
| RawAdapter.UsbHvcMenuShape | BatteryInfo/Entity/RAWData/AdapterDetails.swift:48-50 | the menu is empty unless the key holds an array of dictionaries; then it parses each element, in order |
| RawAdapter.UsbHvcOptionDefaults | BatteryInfo/Entity/RAWData/AdapterDetails.swift:62-66 | each option field is the Int under its key, or 0 when missing or mistyped |
| RawAdapter.AdapterVoltageIndependent | BatteryInfo/Entity/RAWData/AdapterDetails.swift:28-37 | "AdapterVoltage" and "Voltage" feed independent fields |
| RawLifetime.LifetimeKeysDistinct | BatteryInfo/Entity/RAWData/LifetimeData.swift:20-30 | the eleven keys are pairwise distinct |
| RawLifetime.FieldReadsItsKey | BatteryInfo/Entity/RAWData/LifetimeData.swift:20-30 | field j is the Int cast of the dictionary under key j |
| RawLifetime.LifetimeFields | BatteryInfo/Entity/RAWData/LifetimeData.swift:19-31 | each field is present exactly when its key holds an Int, and then holds that Int unchanged, whatever its range |
| RawLifetime.LifetimeFromEmpty | BatteryInfo/Entity/RAWData/LifetimeData.swift:20-30 | an empty dictionary leaves all eleven fields absent |
| RawLifetime.LifetimeKeyIndependence | BatteryInfo/Entity/RAWData/LifetimeData.swift:20-30 | rewriting one key leaves every field read from another key unchanged |
| RawBatteryInfo.RawScalarFields | BatteryInfo/Entity/BatteryRAWInfo.swift:31-45 | every Int or String field copies its key's value when the type matches, else is absent |
| RawBatteryInfo.RawIsCharging | BatteryInfo/Entity/BatteryRAWInfo.swift:42 | `isCharging` is never absent and is true exactly for the Int 1 |
| RawBatteryInfo.RawNestedRecords | BatteryInfo/Entity/BatteryRAWInfo.swift:47-61 | charger, adapter, battery and kiosk records are present exactly when their key holds a dictionary, and are parsed from it |
| RawBatteryInfo.RawAccessoryFirstOnly | BatteryInfo/Entity/BatteryRAWInfo.swift:63-66 | only the first accessory is parsed; a missing key, a non-array or an empty array gives none |
| RawBatteryInfo.RawAdapterList | BatteryInfo/Entity/BatteryRAWInfo.swift:68-71 | the raw adapter list is empty for a missing key or a value that is not an array of dictionaries; otherwise it has one parsed adapter per element, in order |
| RawBatteryInfo.RawNoMaximumCapacity | BatteryInfo/Entity/BatteryRAWInfo.swift:26-72 | parsing is total and never sets `maximumCapacity` |
| InfoItem.NewItem | BatteryInfo/Entity/InfoItem.swift:11-15 | `init(id:text:)` sets the sort key to the id and no detail text |
| InfoItem.NewSortedItem | BatteryInfo/Entity/InfoItem.swift:17-21 | the given sort key is stored, with no detail text |
| InfoItem.NewDetailedItem | BatteryInfo/Entity/InfoItem.swift:23-28 | id, text, detail text and sort key are stored as given |
| InfoItemGroup.InfoItemGroup.constructor | BatteryInfo/Entity/InfoItemGroup.swift:10-13 | a new group has no items, no title and no footer |
| InfoItemGroup.InfoItemGroup.WithItems | BatteryInfo/Entity/InfoItemGroup.swift:15-18 | the items are stored in the given order |
| InfoItemGroup.InfoItemGroup.WithTitle | BatteryInfo/Entity/InfoItemGroup.swift:20-24 | title and items are stored, with no footer |
| InfoItemGroup.InfoItemGroup.WithFooter | BatteryInfo/Entity/InfoItemGroup.swift:26-30 | items and footer are stored, with no title |
| InfoItemGroup.InfoItemGroup.WithTitleAndFooter | BatteryInfo/Entity/InfoItemGroup.swift:32-37 | title, items and footer are stored |
| InfoItemGroup.InfoItemGroup.AddItem | BatteryInfo/Entity/InfoItemGroup.swift:40-42 | appends at the end: one more item, earlier items unchanged, title and footer kept |
| InfoItemGroup.InfoItemGroup.AddItems | BatteryInfo/Entity/InfoItemGroup.swift:45-47 | appends the new items in order after the existing ones |
| InfoItemGroup.InfoItemGroup.ClearItems | BatteryInfo/Entity/InfoItemGroup.swift:50-52 | empties the items and keeps title and footer; the id is a constant |
| BatteryInfoItem.RawValue | BatteryInfo/Entity/BatteryInfoItem.swift:4-15 | every group id has a raw value from 1 to 11 |
| BatteryInfoItem.AllCasesAscending | BatteryInfo/Entity/BatteryInfoItem.swift:17-31 | `allCases` lists raw values 1 to 11 in ascending order, with every case once |
| BatteryInfoItem.GroupNameKnown | BatteryInfo/Entity/BatteryInfoItem.swift:36-63 | an id gets a name other than "GroupUnknown" exactly when it is 1 to 11 |
| BatteryInfoItem.AllCasesNamed | BatteryInfo/Entity/BatteryInfoItem.swift:17-59 | every listed group has its own name, distinct from the others and from "GroupUnknown" |
| BatteryInfoItem.ItemIdsDistinct | BatteryInfo/Entity/BatteryInfoItem.swift:67-116 | the forty item-id constants are strictly ascending, hence distinct |
| Decimal.DecimalRoundTrip | BatteryInfo/Utils/BatteryFormatUtils.swift:13-17 | `String(n)` is a well-formed decimal that reads back as n |
| BatteryFormatUtils.FloorOf | BatteryInfo/Utils/BatteryFormatUtils.swift:17 | `floor` is the largest integer not above its argument |
| BatteryFormatUtils.CeilOf | BatteryInfo/Utils/BatteryFormatUtils.swift:13 | `ceil` is the smallest integer not below its argument |
| BatteryFormatUtils.RoundOf | BatteryInfo/Utils/BatteryFormatUtils.swift:15 | `round` is within one half of its argument, halves going away from zero |
| BatteryFormatUtils.RoundedPercent | BatteryInfo/Utils/BatteryFormatUtils.swift:7-17 | Floor, Ceiling and Round bound the health percentage from below, from above and within one half |
| BatteryFormatUtils.FormatMaximumCapacity | BatteryInfo/Utils/BatteryFormatUtils.swift:6-19 | Keep gives the two-decimal token; the integer modes give the decimal form of the rounded percentage |
| BatteryFormatUtils.RoundingModesOrdered | BatteryInfo/Utils/BatteryFormatUtils.swift:7-17 | Floor ≤ Round ≤ Ceiling and Ceiling − Floor ≤ 1 |
| BatteryFormatUtils.FullBatteryShowsHundred | BatteryInfo/Utils/BatteryFormatUtils.swift:7-17 | equal nominal and design capacities show "100" in every integer mode |
| BatteryFormatUtils.IntegralPercentExact | BatteryInfo/Utils/BatteryFormatUtils.swift:7-17 | an integral percentage is shown exactly in every integer mode |
| BatteryFormatUtils.MaskSerialNumber | BatteryInfo/Utils/BatteryFormatUtils.swift:52-61 | same length; short serials unchanged; first five characters kept and every later one `*` |
| BatteryFormatUtils.MaskIdempotent | BatteryInfo/Utils/BatteryFormatUtils.swift:52-61 | masking a masked serial changes nothing |
| SystemInfoUtils.Prefix3 | BatteryInfo/Utils/SystemInfoUtils.swift:346 | the prefix is the first three characters, or the whole of a shorter serial |
| SystemInfoUtils.BatteryManufacturer | BatteryInfo/Utils/SystemInfoUtils.swift:330-350 | a known prefix gives its table entry; any other gives the literal "Unknown" |
| SystemInfoUtils.ManufacturerByPrefix | BatteryInfo/Utils/SystemInfoUtils.swift:346-349 | only the first three characters decide the supplier |
| SystemInfoUtils.ShortSerialUnknown | BatteryInfo/Utils/SystemInfoUtils.swift:346-349 | a serial shorter than three characters gives "Unknown" |
| SystemInfoUtils.ManufacturerTable | BatteryInfo/Utils/SystemInfoUtils.swift:332-343 | F8Y/SWD are Sunwoda, F5D/DTP/DSY Desay, FG9/SMP Simplo, ATL ATL, LGC LG, SON Sony |
| SystemInfoUtils.RegionCodeShape | BatteryInfo/Utils/SystemInfoUtils.swift:156-159 | accepted codes are exactly two letters A–Z followed by "/A" |
| SystemInfoUtils.TruncDiv | BatteryInfo/Utils/SystemInfoUtils.swift:39-43 | Swift's `/` truncates toward zero |
| SystemInfoUtils.TruncMod | BatteryInfo/Utils/SystemInfoUtils.swift:39-43 | Swift's `%` takes the dividend's sign and completes the division identity |
| SystemInfoUtils.UptimeOf | BatteryInfo/Utils/SystemInfoUtils.swift:38-46 | for a non-negative uptime, hours < 24, minutes < 60 and days ≥ 0 |
| SystemInfoUtils.UptimeDecomposes | BatteryInfo/Utils/SystemInfoUtils.swift:61-66 | days·86400 + hours·3600 + minutes·60 ≤ uptime < that sum + 60 |
| SystemInfoUtils.UptimeNegation | BatteryInfo/Utils/SystemInfoUtils.swift:48-66 | a negative interval splits into the negated parts of its magnitude |
| SystemInfoUtils.BatteryPercentage | BatteryInfo/Utils/SystemInfoUtils.swift:88-97 | absent exactly for a negative level; otherwise the truncated percentage, from 0 to 100 for a level up to 1 |
| SystemInfoUtils.LookupDevice | BatteryInfo/Utils/SystemInfoUtils.swift:161-325 | an identifier no arm lists gives itself; any other answer comes from an arm listing it |
| SystemInfoUtils.DeviceName | BatteryInfo/Utils/SystemInfoUtils.swift:161-325 | an unknown identifier is returned unchanged |
| SystemInfoUtils.LookupFirstArm | BatteryInfo/Utils/SystemInfoUtils.swift:161-325 | the first arm listing an identifier decides its name |
| SystemInfoUtils.IPhone4Shared | BatteryInfo/Utils/SystemInfoUtils.swift:161-170 | iPhone3,1, iPhone3,2 and iPhone3,3 are all "iPhone 4" |
| SettingsUtils.AccuracyFromRaw | BatteryInfo/Utils/SettingsUtils.swift:19-24 | codes 0, 2 and 3 name Keep, Round and Floor; every other code gives Ceiling |
| SettingsUtils.WidgetRefreshFromRaw | BatteryInfo/Utils/SettingsUtils.swift:34-39 | every code other than 1, 2 and 3 gives DataChanged |
| SettingsUtils.PolicyOf | BatteryInfo/Utils/SettingsUtils.swift:177-186 | the policy is chosen by the code's magnitude; 0 and unknown codes give Automatic, never Toggle |
| SettingsUtils.PolicyIgnoresSign | BatteryInfo/Utils/SettingsUtils.swift:177-186 | −n gives the same policy as n |
| SettingsUtils.StoredFrequency | BatteryInfo/Utils/SettingsUtils.swift:194-207 | a positive value keeps the sign of the current code; any other value negates the current code |
| SettingsUtils.ToggleIsInvolution | BatteryInfo/Utils/SettingsUtils.swift:201-206 | toggling twice restores the stored code |
| SettingsUtils.SetFrequencyKeepsState | BatteryInfo/Utils/SettingsUtils.swift:194-200 | choosing a policy keeps recording enabled or disabled, and makes that policy active |
| SettingsUtils.ToggleFlipsState | BatteryInfo/Utils/SettingsUtils.swift:201-206 | toggling flips enabled/disabled and keeps the policy |
| SettingsUtils.IntsOf | BatteryInfo/Utils/SettingsUtils.swift:212 | keeping the Int elements never lengthens the array, and an Int is kept exactly when the array holds it |
| SettingsUtils.IntsOfSingle | BatteryInfo/Utils/SettingsUtils.swift:212 | a single element is kept exactly when it is an Int |
| SettingsUtils.IntsOfConcat | BatteryInfo/Utils/SettingsUtils.swift:212 | the kept Ints of two joined arrays are those of the first followed by those of the second, so the array's order is kept |
| SettingsUtils.SetCountDetectsDuplicates | BatteryInfo/Utils/SettingsUtils.swift:220 | comparing the set's size with the count detects exactly the duplicates |
| SettingsUtils.IntsOfPlistInts | BatteryInfo/Utils/SettingsUtils.swift:212-240 | storing an order and keeping its Ints gives the order back |
| SettingsUtils.HomeSequenceWellFormed | BatteryInfo/Utils/SettingsUtils.swift:210-234 | the order read is never empty and never has a duplicate; an empty store gives [1, 2, 3]; a duplicate clears the store |
| SettingsUtils.HomeSequenceRoundTrip | BatteryInfo/Utils/SettingsUtils.swift:233-245 | a non-empty, duplicate-free order that was stored reads back unchanged |
| SettingsUtils.Settings.constructor | BatteryInfo/Utils/SettingsUtils.swift:41-43 | the store starts from the given property list |
| SettingsUtils.Settings.ApplicationLanguageSetting | BatteryInfo/Utils/SettingsUtils.swift:55-58 | the system language is followed unless code 1, 2 or 3 is stored |
| SettingsUtils.Settings.Flag | BatteryInfo/Utils/SettingsUtils.swift:71-73 | a switch is its stored bool, or its default when none is stored |
| SettingsUtils.Settings.AutoRefreshDataView | BatteryInfo/Utils/SettingsUtils.swift:71-73 | on by default |
| SettingsUtils.Settings.ForceShowChargingData | BatteryInfo/Utils/SettingsUtils.swift:80-82 | off by default |
| SettingsUtils.Settings.ShowSettingsBatteryInfo | BatteryInfo/Utils/SettingsUtils.swift:90-92 | off by default |
| SettingsUtils.Settings.DoubleClickTabBarButtonToScrollToTop | BatteryInfo/Utils/SettingsUtils.swift:111-113 | on by default |
| SettingsUtils.Settings.ShowHistoryRecordViewInHomeView | BatteryInfo/Utils/SettingsUtils.swift:147-149 | on by default |
| SettingsUtils.Settings.RecordShowDesignCapacity | BatteryInfo/Utils/SettingsUtils.swift:157-159 | on by default |
| SettingsUtils.Settings.EnableHistoryStatistics | BatteryInfo/Utils/SettingsUtils.swift:167-169 | on by default |
| SettingsUtils.Settings.EnableWidget | BatteryInfo/Utils/SettingsUtils.swift:254-260 | always off without widget support; otherwise on by default |
| SettingsUtils.Settings.WidgetSandboxDirectoryPath | BatteryInfo/Utils/SettingsUtils.swift:290-292 | empty when no path is stored |
| SettingsUtils.Settings.MaximumCapacityAccuracySetting | BatteryInfo/Utils/SettingsUtils.swift:122-125 | Ceiling when the code is missing or unknown, else the named mode |
| SettingsUtils.Settings.EnableRecordBatteryData | BatteryInfo/Utils/SettingsUtils.swift:138-144 | enabled when no code is stored, and otherwise exactly when the stored code is positive |
| SettingsUtils.Settings.RecordFrequencySetting | BatteryInfo/Utils/SettingsUtils.swift:177-186 | the active policy is never Toggle |
| SettingsUtils.Settings.UseHistoryRecordToCalculate | BatteryInfo/Utils/SettingsUtils.swift:100-103 | never true while recording is off; on by default while it is on |
| SettingsUtils.Settings.WidgetRefreshFrequencySetting | BatteryInfo/Utils/SettingsUtils.swift:273-276 | DataChanged when the code is missing or unknown |
| SettingsUtils.Settings.SetApplicationLanguage | BatteryInfo/Utils/SettingsUtils.swift:66-69 | stores the code under its key and changes nothing else |
| SettingsUtils.Settings.SetForceShowChargingData | BatteryInfo/Utils/SettingsUtils.swift:84-87 | stores the flag under its key and changes nothing else |
| SettingsUtils.Settings.SetFlag | BatteryInfo/Utils/SettingsUtils.swift:75-78 | stores a switch under its key and it reads back, whatever its default |
| SettingsUtils.Settings.SetEnableWidget | BatteryInfo/Utils/SettingsUtils.swift:263-270 | stores off without widget support, else the requested value, and it reads back |
| SettingsUtils.Settings.SetWidgetSandboxDirectoryPath | BatteryInfo/Utils/SettingsUtils.swift:295-298 | stores the path and it reads back |
| SettingsUtils.Settings.RemoveWidgetSandboxDirectoryPath | BatteryInfo/Utils/SettingsUtils.swift:301-304 | removes the key and the path reads back as empty |
| SettingsUtils.Settings.SetMaximumCapacityAccuracy | BatteryInfo/Utils/SettingsUtils.swift:133-136 | stores the code under its key and changes nothing else |
| SettingsUtils.Settings.SetUseHistoryRecordToCalculate | BatteryInfo/Utils/SettingsUtils.swift:105-108 | stores the flag under its key and changes nothing else |
| SettingsUtils.Settings.SetWidgetRefreshFrequency | BatteryInfo/Utils/SettingsUtils.swift:284-287 | stores the code under its key and changes nothing else |
| SettingsUtils.Settings.SetRecordFrequency | BatteryInfo/Utils/SettingsUtils.swift:194-207 | read-modify-write of the signed code: a chosen policy becomes active with the enabled state kept; 0 toggles it |
| SettingsUtils.Settings.GetHomeItemGroupSequence | BatteryInfo/Utils/SettingsUtils.swift:210-234 | the order read is non-empty and duplicate-free; a stored order with a duplicate is cleared |
| SettingsUtils.Settings.SetHomeItemGroupSequence | BatteryInfo/Utils/SettingsUtils.swift:237-245 | an empty order or one with a duplicate is ignored; any other reads back exactly |
| SettingsUtils.Settings.ResetHomeItemGroupSequence | BatteryInfo/Utils/SettingsUtils.swift:248-251 | the next read gives [1, 2, 3] |
| BatteryRecordDatabase.InsertByDate | BatteryInfo/Controller/BatteryRecordDatabaseManager.swift:50 | one row more, the same rows plus the new one |
| BatteryRecordDatabase.InsertKeepsDescending | BatteryInfo/Controller/BatteryRecordDatabaseManager.swift:50 | inserting into a newest-first sequence keeps it newest first |
| BatteryRecordDatabase.SortByDate | BatteryInfo/Controller/BatteryRecordDatabaseManager.swift:50 | `ORDER BY createDate DESC` is a permutation with non-increasing dates |
| BatteryRecordDatabase.WithCycleCount | BatteryInfo/Controller/BatteryRecordDatabaseManager.swift:199 | `WHERE cycleCount = ?` keeps exactly the matching rows |
| BatteryRecordDatabase.WithCycleCountKeepsMatches | BatteryInfo/Controller/BatteryRecordDatabaseManager.swift:199 | each matching row is kept as many times as it occurs |
| BatteryRecordDatabase.WithoutId | BatteryInfo/Controller/BatteryRecordDatabaseManager.swift:141 | `DELETE ... WHERE id = ?` keeps exactly the rows with another id |
| BatteryRecordDatabase.WithoutIdKeepsOthers | BatteryInfo/Controller/BatteryRecordDatabaseManager.swift:141 | every other row is kept as many times as it occurs |
| BatteryRecordDatabase.WithoutIdRemovesOne | BatteryInfo/Controller/BatteryRecordDatabaseManager.swift:140-160 | with distinct ids, a present id removes one row and an absent id none |
| BatteryRecordDatabase.Newest | BatteryInfo/Controller/BatteryRecordDatabaseManager.swift:164-167 | `LIMIT 1` of the newest-first order is absent exactly for no rows, else a row with the greatest date |
| BatteryRecordDatabase.CsvLineCount | BatteryInfo/Controller/BatteryRecordDatabaseManager.swift:241-250 | the export has the header line and exactly one line per row |
| BatteryRecordDatabase.CsvLineIsOneLine | BatteryInfo/Controller/BatteryRecordDatabaseManager.swift:248 | each row's line ends with exactly one line break |
| BatteryRecordDatabase.SplitAfterField | BatteryInfo/Controller/BatteryRecordDatabaseManager.swift:248 | a leading field without a comma is cut off whole when the line is split at commas |
| BatteryRecordDatabase.CsvLineSplit | BatteryInfo/Controller/BatteryRecordDatabaseManager.swift:248 | split at commas, a line gives the id, date text, cycle count and the two capacities as fields 0 to 4, then the health text |
| BatteryRecordDatabase.CsvLineFields | BatteryInfo/Controller/BatteryRecordDatabaseManager.swift:248 | fields 0, 2, 3 and 4 of a line are decimals that parse back to the id, the cycle count and the two capacities, a missing capacity as 0; with a comma-free health text the line has exactly six fields |
| BatteryRecordDatabase.HeaderIsOneLine | BatteryInfo/Controller/BatteryRecordDatabaseManager.swift:241 | the header is one line |
| BatteryRecordDatabase.KeptIdsStayValid | BatteryInfo/Controller/BatteryRecordDatabaseManager.swift:140-160 | deleting rows keeps the remaining ids positive, distinct and below the counter |
| BatteryRecordDatabase.BatteryRecordDatabaseManager.constructor | BatteryInfo/Controller/BatteryRecordDatabaseManager.swift:30-46 | a new table is empty and issues id 1 next |
| BatteryRecordDatabase.BatteryRecordDatabaseManager.FetchAllRecords | BatteryInfo/Controller/BatteryRecordDatabaseManager.swift:49-82 | every row, each as often as stored, newest first |
| BatteryRecordDatabase.BatteryRecordDatabaseManager.GetRecordCount | BatteryInfo/Controller/BatteryRecordDatabaseManager.swift:84-99 | the number of rows |
| BatteryRecordDatabase.BatteryRecordDatabaseManager.InsertRecord | BatteryInfo/Controller/BatteryRecordDatabaseManager.swift:102-137 | on success one row is appended, stamped now with a fresh id, capacities defaulting to 0 and no health text; on failure nothing changes |
| BatteryRecordDatabase.BatteryRecordDatabaseManager.DeleteRecord | BatteryInfo/Controller/BatteryRecordDatabaseManager.swift:140-160 | removes the rows with that id, keeping every other row in order |
| BatteryRecordDatabase.BatteryRecordDatabaseManager.GetLatestRecord | BatteryInfo/Controller/BatteryRecordDatabaseManager.swift:162-192 | absent exactly for an empty table, else a stored row with the greatest date |
| BatteryRecordDatabase.BatteryRecordDatabaseManager.GetRecordByCycleCount | BatteryInfo/Controller/BatteryRecordDatabaseManager.swift:195-228 | absent exactly when no row has that cycle count, else the newest such row |
| BatteryRecordDatabase.BatteryRecordDatabaseManager.ExportToCsv | BatteryInfo/Controller/BatteryRecordDatabaseManager.swift:231-260 | nothing for an empty table or a failed write, else the header and one line per row in fetch order |
| BatteryRecordDatabase.BatteryRecordDatabaseManager.DeleteAllRecords | BatteryInfo/Controller/BatteryRecordDatabaseManager.swift:263-269 | the table is empty afterwards and the id counter is kept |
| BatteryDataController.MaximumCapacityText | BatteryInfo/Controller/BatteryDataController.swift:41-47 | present exactly when both capacities are known and the design capacity is positive, and then the formatted percentage |
| BatteryDataController.MaximumCapacityItem | BatteryInfo/Controller/BatteryDataController.swift:50-63 | item 101 shows Unknown exactly when no health percentage can be computed |
| BatteryDataController.CycleCountItem | BatteryInfo/Controller/BatteryDataController.swift:66-78 | item 102 shows Unknown exactly when the cycle count is missing |
| BatteryDataController.DesignCapacityItem | BatteryInfo/Controller/BatteryDataController.swift:81-93 | item 103 shows Unknown exactly when the design capacity is missing |
| BatteryDataController.NominalChargeCapacityItem | BatteryInfo/Controller/BatteryDataController.swift:96-108 | item 104 shows Unknown exactly when the nominal capacity is missing |
| BatteryDataController.TemperatureItem | BatteryInfo/Controller/BatteryDataController.swift:111-123 | item 105 shows Unknown exactly when the temperature is missing |
| BatteryDataController.CurrentCapacityItem | BatteryInfo/Controller/BatteryDataController.swift:126-143 | the raw percentage, else the device's own percentage, else Unknown |
| BatteryDataController.CurrentRawCapacityItem | BatteryInfo/Controller/BatteryDataController.swift:146-158 | item 107 shows Unknown exactly when the raw capacity is missing |
| BatteryDataController.CurrentVoltageItem | BatteryInfo/Controller/BatteryDataController.swift:161-173 | item 108 shows Unknown exactly when the voltage is missing |
| BatteryDataController.InstantAmperageItem | BatteryInfo/Controller/BatteryDataController.swift:176-188 | item 109 shows Unknown exactly when the amperage is missing |
| BatteryDataController.BasicItemIds | BatteryInfo/Controller/BatteryDataController.swift:434-460 | the basic group holds items 101 to 109, in ascending order |
| BatteryDataController.IsChargingItem | BatteryInfo/Controller/BatteryDataController.swift:191-214 | charging, unplugged and full each give their message; any other state gives Unknown |
| BatteryDataController.ChargeDescriptionItem | BatteryInfo/Controller/BatteryDataController.swift:217-229 | item 202 shows Unknown exactly when the adapter gives no description |
| BatteryDataController.IsWirelessChargerItem | BatteryInfo/Controller/BatteryDataController.swift:232-244 | item 203 shows Unknown exactly when the adapter gives no wireless flag |
| BatteryDataController.MaximumChargingHandshakeWattsItem | BatteryInfo/Controller/BatteryDataController.swift:247-259 | item 204 shows Unknown exactly when the adapter gives no wattage |
| BatteryDataController.CurrentOption | BatteryInfo/Controller/BatteryDataController.swift:262-292 | the menu entry at the index when the menu has it; else the adapter's voltage and current when both are known; else empty |
| BatteryDataController.PowerOptionRule | BatteryInfo/Controller/BatteryDataController.swift:262-298 | Unknown when no index is reported; otherwise the option `CurrentOption` chooses for that index: the menu entry inside the menu, else the adapter's voltage and current, else blank |
| BatteryDataController.PowerOptionsItem | BatteryInfo/Controller/BatteryDataController.swift:301-328 | Unknown exactly without an adapter or with an empty menu; a non-empty menu gives the option list, holding every menu entry in menu order |
| BatteryDataController.ChargingLimitVoltageItem | BatteryInfo/Controller/BatteryDataController.swift:331-343 | item 207 shows Unknown exactly when the charger gives no limit voltage |
| BatteryDataController.ChargingVoltageItem | BatteryInfo/Controller/BatteryDataController.swift:346-358 | item 208 shows Unknown exactly when the charger gives no charging voltage |
| BatteryDataController.ChargingCurrentItem | BatteryInfo/Controller/BatteryDataController.swift:361-373 | item 209 shows Unknown exactly when the charger gives no charging current |
| BatteryDataController.CalculatedChargingPowerItem | BatteryInfo/Controller/BatteryDataController.swift:376-389 | a power is shown exactly when both charging voltage and charging current are known |
| BatteryDataController.NotChargingReasonTable | BatteryInfo/Controller/BatteryDataController.swift:392-431 | 0 normal, 1 full, 128 not charging, 256/272 overheating, 1024/8192 negotiating, other codes as their number, none Unknown |
| BatteryDataController.StandardChargingItemIds | BatteryInfo/Controller/BatteryDataController.swift:516-535 | the standard charging items are 202 to 210, in order |
| BatteryDataController.ChargeItems | BatteryInfo/Controller/BatteryDataController.swift:462-491 | the charge group always starts with the charging-state item |
| BatteryDataController.ChargeByWattsCases | BatteryInfo/Controller/BatteryDataController.swift:538-544 | `isChargeByWatts` is false without a reported wattage, and otherwise true exactly for a positive wattage |
| BatteryDataController.NotChargingCases | BatteryInfo/Controller/BatteryDataController.swift:547-560 | `isNotCharging` is false without a reason code or for code 0, true for any other code, and unchanged by the charging current |
| BatteryDataController.ChargeItemIds | BatteryInfo/Controller/BatteryDataController.swift:462-560 | forced: 201 to 211; else only 201 unless charging or the adapter reports watts; then 201 to 210, plus 211 exactly for a non-zero reason |
| BatteryDataController.GroupIdsAreHomeGroups | BatteryInfo/Controller/BatteryDataController.swift:499-507 | the ids the switch handles are the raw values of the basic, charge and settings-app groups |
| BatteryDataController.ShownGroupIds | BatteryInfo/Controller/BatteryDataController.swift:494-513 | no more groups than entries in the order |
| BatteryDataController.ShownGroupIdsMembers | BatteryInfo/Controller/BatteryDataController.swift:494-513 | the emitted groups are exactly the order's entries 1, 2 and 3 |
| BatteryDataController.ShownGroupIdsDistinct | BatteryInfo/Controller/BatteryDataController.swift:494-513 | a duplicate-free order yields distinct groups |
| BatteryDataController.RecordSwitchAndManual | BatteryInfo/Controller/BatteryDataController.swift:616-622 | disabled recording appends nothing; a manual record always appends while enabled |
| BatteryDataController.RecordPolicyBasics | BatteryInfo/Controller/BatteryDataController.swift:625-660 | Automatic, DataChanged and EveryDay append to an empty history; the Manual policy never appends by itself |
| BatteryDataController.RecordPolicyRules | BatteryInfo/Controller/BatteryDataController.swift:625-659 | against the newest row: EveryDay appends on a new day, DataChanged on a changed reading, Automatic on either |
| BatteryDataController.NewestAfterAppend | BatteryInfo/Controller/BatteryRecordDatabaseManager.swift:102-137 | a row stamped later than every stored row becomes the newest |
| BatteryDataController.RepeatedCallRecordsOnce | BatteryInfo/Controller/BatteryDataController.swift:625-663 | when every stored row is older than the new one, repeating an identical call after the append skips under DataChanged, and under Automatic and EveryDay on the same day |
| BatteryDataController.RecordBatteryData | BatteryInfo/Controller/BatteryDataController.swift:610-664 | true without a write when recording is off; the insert result when a row is due; false and no write otherwise; the next id advances exactly when a row is written |
| BatteryDataController.BatteryDataControllerState.constructor | BatteryInfo/Controller/BatteryDataController.swift:25-34 | the controller starts with no snapshot |
| BatteryDataController.BatteryDataControllerState.RefreshBatteryInfo | BatteryInfo/Controller/BatteryDataController.swift:17-19 | the fetched snapshot replaces the old one |
| BatteryDataController.BatteryDataControllerState.GetBatteryRawInfo | BatteryInfo/Controller/BatteryDataController.swift:21-23 | returns the current snapshot |
| BatteryDataController.BatteryDataControllerState.GetBatteryBasicInfo | BatteryInfo/Controller/BatteryDataController.swift:434-460 | a new group 1, titled with the app name, holding the basic items |
| BatteryDataController.BatteryDataControllerState.AddStandardChargingItems | BatteryInfo/Controller/BatteryDataController.swift:516-535 | appends the nine standard charging items, keeping title and footer |
| BatteryDataController.BatteryDataControllerState.GetChargeInfo | BatteryInfo/Controller/BatteryDataController.swift:462-491 | a new group 2 with the charge footer, holding the charge items |
| BatteryDataController.BatteryDataControllerState.NewGroup | BatteryInfo/Controller/BatteryDataController.swift:498-509 | a new group for id 1, 2 or 3, holding the items that id calls for; only group 1 has a title (the app name) and only group 2 a footer (the charge note) |
| BatteryDataController.BatteryDataControllerState.GroupsInOrder | BatteryInfo/Controller/BatteryDataController.swift:497-512 | one new group per entry 1, 2 or 3 of the order, in order, each with the id, title, items and footer its id calls for |
| BatteryDataController.BatteryDataControllerState.GetGroupedBatteryInfo | BatteryInfo/Controller/BatteryDataController.swift:494-513 | one new group per entry 1, 2 or 3 of the home order read from the store, in that order, each with its id's title, items and footer; the store changes only by the clearing of a stored order holding a duplicate |
| SettingsBatteryDataController.CacheWindow | BatteryInfo/Controller/SettingsBatteryDataController.swift:11-14 | a value fetched at t is served exactly for unforced calls before t + 21600 |
| SettingsBatteryDataController.SettingsBatteryDataCache.constructor | BatteryInfo/Controller/SettingsBatteryDataController.swift:6-7 | both cache fields start absent |
| SettingsBatteryDataController.SettingsBatteryDataCache.GetSettingsBatteryInfoData | BatteryInfo/Controller/SettingsBatteryDataController.swift:9-43 | a hit returns the cache unchanged; a success stores and returns the new value; a failure returns the old value unchanged |
| SettingsBatteryDataController.SettingsBatteryDataCache.ClearCache | BatteryInfo/Controller/SettingsBatteryDataController.swift:45-48 | both fields become absent, so no later call is a hit |
| BatteryInfoWidget.AppearanceRaw | BatteryInfoWidget/BatteryInfoWidget.swift:16-19 | the schemes have raw values 1 to 3 |
| BatteryInfoWidget.AppearanceFrom | BatteryInfoWidget/BatteryInfoWidget.swift:21-24 | 2 gives light, 3 gives dark, every other value gives system |
| BatteryInfoWidget.AppearanceRoundTrip | BatteryInfoWidget/BatteryInfoWidget.swift:16-24 | every scheme survives the trip through its raw value |
| BatteryInfoWidget.ShowUpdateTime | BatteryInfoWidget/BatteryInfoWidget.swift:81 | on unless the intent explicitly turns it off |
| BatteryInfoWidget.CreateEntry | BatteryInfoWidget/BatteryInfoWidget.swift:78-90 | the shared data dated now, with the intent's appearance and switch |
| BatteryInfoWidget.GetTimeline | BatteryInfoWidget/BatteryInfoWidget.swift:44-75 | one entry; refresh at the end for a zero stamp or data under 300 s old; otherwise at now + 2700 |
| BatteryInfoWidget.ScheduledRefresh | BatteryInfoWidget/BatteryInfoWidget.swift:48-70 | a scheduled refresh happens exactly for valid data at least 300 s old, and lies in the future |

## Left out

- Foreign calls and I/O are not modelled:
  - the SQLite C API;
  - the property-list file behind the settings store (the store is a map, and the flush to disk after each write is not modelled);
  - the IOKit call that fetches the telemetry;
  - the `spawnRoot` helper and its JSON decoding;
  - the file write of the CSV export.
  
  Each of these is an input instead: the fetched snapshot, the helper's decoded result, the engine's success flag, the write's success flag and a date formatter.
- The clock is an input (`now`, whole seconds). `createEntry` and `getTimeline` read the clock separately; the model uses one reading. The cache age is compared in whole seconds rather than as a `Double` interval.
- `isSameDay` in BatteryFormatUtils.swift depends on the calendar and time zone. It is a predicate parameter of the recording policy. `formatTimestamp` and `formatDateOnly` are replaced by the date-formatter parameter of the export.
- Localisation and `"%.2f"` rendering are not modelled. Texts are tokens: a localisation key and its argument.
- BatteryFormatUtils.FormatMaximumCapacity: the Keep mode is a two-decimal token, not its text. The integer modes are computed over exact rationals.
- BatteryFormatUtils.RoundedPercent: computes the percentage over exact rationals, as `FormatMaximumCapacity` does. IEEE division can land just below an integer (57/100·100, for instance), so `floor` in the app can give one less than the model.
- BatteryDataController.PowerOptionDetailItem requires a non-negative reported option index. The app indexes the menu with it without a lower-bound check and would trap.
- BatteryFormatUtils.FormatMaximumCapacity requires a non-zero design capacity. The app converts an infinite or NaN value to Int there and traps. The controller never calls it that way.
- The records use unbounded integers. The database binds them as 32-bit values, and that truncation is not modelled.
- BatteryDataRecord.swift is not part of this model. The record is a datatype of its columns, and `recordType` is stored as given.
- SQLite leaves the order among rows with equal `createDate` open. The model's newest-first order fixes one such order. The lemmas about the newest row after an append (`NewestAfterAppend`, `RepeatedCallRecordsOnce`) require every stored row to be strictly older, so they do not depend on that choice. With a stored row of the same second, SQLite may return either row, and a repeated DataChanged call can then record again; the model does not promise otherwise.
- The `Int(Double(x))` conversion in `getDeviceUptime` is taken as exact for the uptime values that occur.
- The regular expression's `$` also accepts a final line terminator in the ICU engine. The model checks exactly four characters.
- The singleton `getInstance` (and its `fatalError` before configuration) and `resetInstance` are replaced by the controller's constructor.
- `checkRunTimePermission` and `checkInstallPermission` are left out: they query the file system and the process.
- The static `getSettingsBatteryInfoData` wrapper in BatteryDataController.swift is left out. It calls the cached helper of SettingsBatteryDataController.swift, which is modelled.
- ChargerData.swift, BatteryData.swift and KioskMode.swift are not part of this model. The charger parser is a parameter of the raw-info parser. The battery-data and kiosk-mode records are kept as their raw sub-dictionary, since the core only tests whether they are present.
- The not-charging reason code 32768 has no branch in `getNotChargingReason`, so the model shows it as its number, as the code does.
- `isNotCharging` also inspects the charging current, but returns true on both of its paths. The model states the result only in terms of the reason code.
- A zero widget timestamp gives the at-end refresh policy in `getTimeline`, as the code is written. It does not give a 45-minute refresh.
- Group 3 of `getGroupedBatteryInfo` is a placeholder group without items, as in the source.
- `BatteryDataController.BatteryDataControllerState.NewGroup` and `GroupsInOrder` are the arm and the loop of `getGroupedBatteryInfo`'s single source loop, split into two methods.
- Variant.IntAt: `IntV` stands for every value the bridged `as? Int` cast accepts. For a Foundation number that includes a whole-valued double and a boolean, and the model does not tell those apart from an Int.
- BatteryFormatUtils.MaskSerialNumber: counts Unicode scalars, where Swift's `count` and `prefix` count grapheme clusters. The two agree on the ASCII serial numbers the device reports, not on strings with combining marks.
- SystemInfoUtils.Prefix3: takes three Unicode scalars, where Swift's `prefix(3)` takes three grapheme clusters. They agree on ASCII serials only.
- SystemInfoUtils.BatteryPercentage: computes `level * 100` over exact reals. In `Float` the product can land just below an integer, so the app's truncation can give one less than the model.
- BatteryInfoWidget.GetTimeline: reads `updateTimeStamp`, which BatteryInfoWidget.swift:48 and :57 use but WidgetBatteryData.swift does not declare. Where that field is written is not part of this model; it is an input of the data record.
- SettingsUtils.IntsOf: its contract gives membership and a length bound; order is given by `IntsOfSingle` and `IntsOfConcat`, not by the function's own ensures.
- The view controllers, SwiftUI views, timers, the widget bundle and the lock-screen widget are presentation code and are not modelled.
