/**
 * Per-user schedule settings (lib/userSettings.ts), kept in Redis under
 * "user_settings:{userId}". Redis is modelled as a map that the store's
 * methods reassign; a read of a missing key yields the defaults.
 */
module Settings {
  import opened Base
  import opened Schedules

  datatype UserSettings = UserSettings(scheduleFrequency: Frequency, lastProcessed: Option<string>,
                                       qstashScheduleId: Option<string>, isActive: bool)

  /** `Partial<UserSettings>`: a field is `Some` when the update object has that key. */
  datatype SettingsPatch = SettingsPatch(scheduleFrequency: Option<Frequency>, lastProcessed: Option<Option<string>>,
                                         qstashScheduleId: Option<Option<string>>, isActive: Option<bool>)

  const DEFAULT_SETTINGS := UserSettings(Manual, None, None, false)
  const SETTINGS_PREFIX := "user_settings:"

  function SettingsKey(userId: string): (k: string)
    ensures |k| == |SETTINGS_PREFIX| + |userId| && k[..|SETTINGS_PREFIX|] == SETTINGS_PREFIX
  {
    SETTINGS_PREFIX + userId
  }

  /** Different users never share a settings key. */
  lemma SettingsKeyInjective(a: string, b: string)
    requires SettingsKey(a) == SettingsKey(b)
    ensures a == b
  {
    assert a == SettingsKey(a)[|SETTINGS_PREFIX|..];
    assert b == SettingsKey(b)[|SETTINGS_PREFIX|..];
  }

  function Pick<T>(update: Option<T>, current: T): T
  {
    if update.Some? then update.value else current
  }

  /** `{ ...current, ...updates }` */
  function Merge(current: UserSettings, updates: SettingsPatch): (r: UserSettings)
  {
    UserSettings(Pick(updates.scheduleFrequency, current.scheduleFrequency),
                 Pick(updates.lastProcessed, current.lastProcessed),
                 Pick(updates.qstashScheduleId, current.qstashScheduleId),
                 Pick(updates.isActive, current.isActive))
  }

  /** The patch that only sets `lastProcessed`, as `setLastProcessed` sends it. */
  function LastProcessedPatch(nowIso: string): SettingsPatch
  {
    SettingsPatch(None, Some(Some(nowIso)), None, None)
  }

  /** A field absent from the update keeps its current value; a present one takes the update's. */
  lemma MergeFields(current: UserSettings, updates: SettingsPatch)
    ensures var r := Merge(current, updates);
            && (updates.scheduleFrequency.None? ==> r.scheduleFrequency == current.scheduleFrequency)
            && (updates.scheduleFrequency.Some? ==> r.scheduleFrequency == updates.scheduleFrequency.value)
            && (updates.lastProcessed.None? ==> r.lastProcessed == current.lastProcessed)
            && (updates.lastProcessed.Some? ==> r.lastProcessed == updates.lastProcessed.value)
            && (updates.qstashScheduleId.None? ==> r.qstashScheduleId == current.qstashScheduleId)
            && (updates.qstashScheduleId.Some? ==> r.qstashScheduleId == updates.qstashScheduleId.value)
            && (updates.isActive.None? ==> r.isActive == current.isActive)
            && (updates.isActive.Some? ==> r.isActive == updates.isActive.value)
  {
  }

  /** Applying the same update twice leaves what applying it once leaves. */
  lemma MergeIdempotent(current: UserSettings, updates: SettingsPatch)
    ensures Merge(Merge(current, updates), updates) == Merge(current, updates)
  {
  }

  /** An empty update changes nothing. */
  lemma MergeEmpty(current: UserSettings)
    ensures Merge(current, SettingsPatch(None, None, None, None)) == current
  {
  }

  /** `setLastProcessed` changes `lastProcessed` and nothing else. */
  lemma LastProcessedOnly(current: UserSettings, nowIso: string)
    ensures Merge(current, LastProcessedPatch(nowIso)) == current.(lastProcessed := Some(nowIso))
  {
  }

  /** `isScheduleActive`'s test on a settings value. */
  predicate ActiveSchedule(s: UserSettings)
  {
    s.isActive && s.scheduleFrequency != Manual
  }

  /** An active schedule always has a cron expression to run on; the defaults are not active. */
  lemma ActiveHasCron(s: UserSettings)
    ensures ActiveSchedule(s) ==> CronOf(s.scheduleFrequency) != ""
    ensures !ActiveSchedule(DEFAULT_SETTINGS)
  {
  }

  class SettingsStore {
    /** The Redis values, by key. */
    var stored: map<string, UserSettings>

    constructor (stored: map<string, UserSettings>)
      ensures this.stored == stored
    {
      this.stored := stored;
    }

    /** `getUserSettings`: the stored value, or the defaults when nothing is stored. */
    function Get(userId: string): (s: UserSettings)
      reads this
      ensures SettingsKey(userId) !in stored ==> s == DEFAULT_SETTINGS
      ensures SettingsKey(userId) in stored ==> s == stored[SettingsKey(userId)]
    {
      if SettingsKey(userId) in stored then stored[SettingsKey(userId)] else DEFAULT_SETTINGS
    }

    /**
     * `updateUserSettings`: stores the merge of the current settings and the
     * update, and returns what it stored; None when the Redis write throws,
     * which leaves the store as it was.
     */
    method Update(userId: string, updates: SettingsPatch, writeOk: bool) returns (updated: Option<UserSettings>)
      modifies this
      ensures updated.Some? <==> writeOk
      ensures writeOk ==>
                && updated.value == Merge(old(Get(userId)), updates)
                && stored == old(stored)[SettingsKey(userId) := updated.value]
                && Get(userId) == updated.value
      ensures !writeOk ==> stored == old(stored)
    {
      if !writeOk {
        return None;
      }
      var current := Get(userId);
      var merged := Merge(current, updates);
      stored := stored[SettingsKey(userId) := merged];
      updated := Some(merged);
    }

    /** `setLastProcessed`: `lastProcessed` becomes now; every other field and every other user is unchanged. */
    method SetLastProcessed(userId: string, nowIso: string)
      modifies this
      ensures stored == old(stored)[SettingsKey(userId) := old(Get(userId)).(lastProcessed := Some(nowIso))]
      ensures forall u :: u != userId ==> Get(u) == old(Get(u))
    {
      LastProcessedOnly(Get(userId), nowIso);
      var _ := Update(userId, LastProcessedPatch(nowIso), true);
      forall u | u != userId
        ensures Get(u) == old(Get(u))
      {
        if SettingsKey(u) == SettingsKey(userId) {
          SettingsKeyInjective(u, userId);
        }
      }
    }

    /** `isScheduleActive` */
    method IsScheduleActive(userId: string) returns (active: bool)
      ensures active <==> Get(userId).isActive && Get(userId).scheduleFrequency != Manual
      ensures active ==> CronOf(Get(userId).scheduleFrequency) != ""
    {
      ActiveHasCron(Get(userId));
      active := ActiveSchedule(Get(userId));
    }
  }
}
