/**
 * The cache in front of the privileged helper that reads the battery health
 * figures shown in the system Settings app. A value is reused for six hours
 * unless a refresh is forced.
 */
module SettingsBatteryDataController {
  import opened Wrappers

  /** The decoded helper output: both figures may be missing from it. */
  datatype SettingsBatteryData = SettingsBatteryData(cycleCount: Option<int>, maximumCapacityPercent: Option<int>)

  /** How long, in seconds, a cached value is served without asking the helper again. */
  const CacheLifetime: int := 6 * 60 * 60

  /** A call is served from the cache when a value and its time exist, no refresh is forced and the value is younger than six hours. */
  predicate CacheHit(lastUpdate: Option<int>, cachedData: Option<SettingsBatteryData>, forceRefresh: bool, now: int) {
    lastUpdate.Some? && cachedData.Some? && !forceRefresh && now - lastUpdate.value < CacheLifetime
  }

  /** A value fetched at `fetched` is served for every later unforced call within six hours of it, and never once six hours have passed. */
  lemma CacheWindow(data: SettingsBatteryData, fetched: int, now: int, forceRefresh: bool)
    ensures CacheHit(Some(fetched), Some(data), forceRefresh, now) <==> !forceRefresh && now < fetched + 21600
  {
  }

  /** The two static fields of the controller, as one cache object. */
  class SettingsBatteryDataCache {
    var lastUpdate: Option<int>
    var cachedData: Option<SettingsBatteryData>

    /** Both fields start absent. */
    constructor ()
      ensures lastUpdate == None && cachedData == None
    {
      lastUpdate := None;
      cachedData := None;
    }

    /**
     * `getSettingsBatteryInfoData`. `helperResult` is what running the helper
     * and decoding its output gives, absent when either fails; `now` is the
     * current time in seconds. On a hit the cached value is returned and
     * nothing changes; on a successful fetch both fields are updated and the
     * new value is returned; on a failure the old cached value (possibly
     * absent) is returned and nothing changes.
     */
    method GetSettingsBatteryInfoData(forceRefresh: bool, now: int, helperResult: Option<SettingsBatteryData>)
      returns (data: Option<SettingsBatteryData>)
      modifies this
      ensures CacheHit(old(lastUpdate), old(cachedData), forceRefresh, now) ==>
        data == old(cachedData) && data.Some? && lastUpdate == old(lastUpdate) && cachedData == old(cachedData)
      ensures !CacheHit(old(lastUpdate), old(cachedData), forceRefresh, now) && helperResult.Some? ==>
        data == helperResult && lastUpdate == Some(now) && cachedData == helperResult
      ensures !CacheHit(old(lastUpdate), old(cachedData), forceRefresh, now) && helperResult.None? ==>
        data == old(cachedData) && lastUpdate == old(lastUpdate) && cachedData == old(cachedData)
    {
      if lastUpdate.Some? && cachedData.Some? && !forceRefresh && now - lastUpdate.value < 6 * 60 * 60 {
        return cachedData;
      }
      if helperResult.Some? {
        lastUpdate := Some(now);
        cachedData := helperResult;
        return helperResult;
      }
      return cachedData;
    }

    /** `clearCache`: both fields become absent, so the next call cannot be a hit. */
    method ClearCache()
      modifies this
      ensures lastUpdate == None && cachedData == None
      ensures forall forceRefresh: bool, now: int :: !CacheHit(lastUpdate, cachedData, forceRefresh, now)
    {
      lastUpdate := None;
      cachedData := None;
    }
  }
}
