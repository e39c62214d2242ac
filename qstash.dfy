/**
 * The QStash schedule store (lib/qstash.ts): the four schedule frequencies,
 * their cron expressions and labels, and the remote set of schedules as a
 * map from schedule id to what the schedule delivers. The QStash service is
 * outside the model: the id it issues and whether each request succeeds are
 * arguments.
 */
module Schedules {
  import opened Base

  /** `ScheduleFrequency`: "3h" | "hourly" | "daily" | "manual". */
  datatype Frequency = ThreeHours | Hourly | Daily | Manual

  /** `CRON_SCHEDULES`; only "manual" has no cron expression. */
  function CronOf(f: Frequency): (c: string)
    ensures c == "" <==> f == Manual
  {
    match f
    case ThreeHours => "0 */3 * * *"
    case Hourly => "0 * * * *"
    case Daily => "0 9 * * *"
    case Manual => ""
  }

  /** `FREQUENCY_LABELS`: every frequency has a label. */
  function Label(f: Frequency): (l: string)
    ensures l != ""
  {
    match f
    case ThreeHours => "Every 3 Hours"
    case Hourly => "Hourly"
    case Daily => "Daily (9 AM UTC)"
    case Manual => "Manual Only"
  }

  /** Distinct frequencies have distinct cron expressions and distinct labels. */
  lemma TablesInjective(f: Frequency, g: Frequency)
    ensures CronOf(f) == CronOf(g) ==> f == g
    ensures Label(f) == Label(g) ==> f == g
  {
  }

  /**
   * What a created schedule delivers: a POST to `destination` on `cron`,
   * whose JSON body carries `userId` and whose `x-cron-secret` header carries
   * the deployment's CRON_SECRET.
   */
  datatype Schedule = Schedule(destination: string, cron: string, userId: string, cronSecret: Option<string>)

  /** The error surfaced when a QStash request throws (the client library's own message is not modelled). */
  const QSTASH_FAILED := "QStash request failed"

  /** The schedules left after deleting `id`, when the delete succeeds. */
  function Removed(schedules: map<string, Schedule>, id: string): (r: map<string, Schedule>)
    ensures id !in r && r.Keys == schedules.Keys - {id}
    ensures forall k :: k in r ==> r[k] == schedules[k]
  {
    schedules - {id}
  }

  class ScheduleStore {
    var schedules: map<string, Schedule>

    constructor (schedules: map<string, Schedule>)
      ensures this.schedules == schedules
    {
      this.schedules := schedules;
    }

    /**
     * `createSchedule`: "manual" creates nothing and yields null; otherwise one
     * schedule is added under the id QStash issues, or the request throws.
     */
    method CreateSchedule(userId: string, frequency: Frequency, webhookUrl: string, cronSecret: Option<string>,
                          issuedId: string, apiOk: bool)
      returns (r: Result<Option<string>>)
      modifies this
      ensures frequency == Manual ==> r == Ok(None) && schedules == old(schedules)
      ensures frequency != Manual && !apiOk ==> r == Err(QSTASH_FAILED) && schedules == old(schedules)
      ensures frequency != Manual && apiOk ==>
                r == Ok(Some(issuedId))
                && schedules == old(schedules)[issuedId := Schedule(webhookUrl, CronOf(frequency), userId, cronSecret)]
    {
      if frequency == Manual {
        return Ok(None);
      }
      if !apiOk {
        return Err(QSTASH_FAILED);
      }
      schedules := schedules[issuedId := Schedule(webhookUrl, CronOf(frequency), userId, cronSecret)];
      r := Ok(Some(issuedId));
    }

    /** `deleteSchedule`: removes the schedule; an unknown id or a failed request throws. */
    method DeleteSchedule(scheduleId: string, apiOk: bool) returns (r: Result<()>)
      modifies this
      ensures r.Ok? <==> apiOk && scheduleId in old(schedules)
      ensures r.Err? ==> r.msg == QSTASH_FAILED
      ensures schedules == if r.Ok? then Removed(old(schedules), scheduleId) else old(schedules)
    {
      if !apiOk || scheduleId !in schedules {
        return Err(QSTASH_FAILED);
      }
      schedules := Removed(schedules, scheduleId);
      r := Ok(());
    }

    /**
     * `updateSchedule`: a truthy old id is deleted first, a failure to delete
     * being swallowed; then the result is `createSchedule` for the new
     * frequency, so "manual" leaves no schedule and yields null.
     */
    method UpdateSchedule(userId: string, oldScheduleId: Option<string>, newFrequency: Frequency, webhookUrl: string,
                          cronSecret: Option<string>, deleteOk: bool, issuedId: string, createOk: bool)
      returns (r: Result<Option<string>>)
      modifies this
      ensures var cleared := if Truthy(oldScheduleId) && deleteOk && oldScheduleId.value in old(schedules)
                             then Removed(old(schedules), oldScheduleId.value) else old(schedules);
              && (newFrequency == Manual ==> r == Ok(None) && schedules == cleared)
              && (newFrequency != Manual && !createOk ==> r == Err(QSTASH_FAILED) && schedules == cleared)
              && (newFrequency != Manual && createOk ==>
                    r == Ok(Some(issuedId))
                    && schedules == cleared[issuedId := Schedule(webhookUrl, CronOf(newFrequency), userId, cronSecret)])
    {
      if Truthy(oldScheduleId) {
        var _ := DeleteSchedule(oldScheduleId.value, deleteOk);
      }
      r := CreateSchedule(userId, newFrequency, webhookUrl, cronSecret, issuedId, createOk);
    }
  }
}
