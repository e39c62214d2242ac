/**
 * The schedule settings endpoint (app/api/settings/schedule/route.ts):
 * `GET` returns the user's settings with the frequency's label; `POST`
 * takes a new frequency and/or active flag, replaces or removes the user's
 * QStash schedule when either changed, and saves the three schedule fields.
 *
 * QStash's answers (whether a delete or a create succeeds, the id it
 * issues) and the deployment's NEXT_PUBLIC_APP_URL and CRON_SECRET are
 * arguments, gathered in `World`.
 */
module ScheduleRoute {
  import opened Base
  import opened Schedules
  import opened Settings
  import opened Session

  const NOT_AUTHENTICATED := "Not authenticated"
  const UPDATE_FAILED := "Failed to update settings"
  const DEFAULT_APP_URL := "https://gmail-assistant.vercel.app"
  const WEBHOOK_PATH := "/api/cron/process-emails"
  const SCHEDULE_SET := "Schedule set to "
  const SCHEDULE_DISABLED := "Schedule disabled"

  /** Settings as both handlers return them: the stored fields and `frequencyLabel`. */
  datatype SettingsView = SettingsView(settings: UserSettings, frequencyLabel: string)

  function View(s: UserSettings): (v: SettingsView)
    ensures v.settings == s && v.frequencyLabel == Label(s.scheduleFrequency) && v.frequencyLabel != ""
  {
    SettingsView(s, Label(s.scheduleFrequency))
  }

  datatype Response = Failed(status: nat, error: string) | Settled(data: SettingsView, message: Option<string>)

  /** `GET`: the caller's settings, or 401 without a session. */
  method GetSchedule(jar: CookieJar, settings: SettingsStore) returns (resp: Response)
    ensures jar.GetSession().None? ==> resp == Failed(401, NOT_AUTHENTICATED)
    ensures jar.GetSession().Some? ==> resp == Settled(View(settings.Get(jar.GetSession().value)), None)
  {
    var userId := jar.GetSession();
    if userId.None? {
      return Failed(401, NOT_AUTHENTICATED);
    }
    var current := settings.Get(userId.value);
    resp := Settled(View(current), None);
  }

  /** The POST body's `frequency` and `isActive`, each present or absent. */
  datatype Body = Body(frequency: Option<Frequency>, isActive: Option<bool>)

  /** The deployment's variables and the outside world's answers: QStash's delete, create and issued id, and the settings write. */
  datatype World = World(appUrl: Option<string>, cronSecret: Option<string>, deleteOk: bool, issuedId: string, createOk: bool,
                         settingsWriteOk: bool)

  /** The schedule's target: the app's URL, or the default deployment, followed by the cron path. */
  function WebhookUrl(appUrl: Option<string>): (u: string)
    ensures Truthy(appUrl) ==> u == appUrl.value + WEBHOOK_PATH
    ensures !Truthy(appUrl) ==> u == DEFAULT_APP_URL + WEBHOOK_PATH
  {
    OrElse(appUrl, DEFAULT_APP_URL) + WEBHOOK_PATH
  }

  /** The reply's message: the new frequency's label while active, "Schedule disabled" otherwise. */
  function Message(frequency: Frequency, isActive: bool): (m: string)
    ensures isActive ==> m == SCHEDULE_SET + Label(frequency) && |m| > |SCHEDULE_SET|
    ensures !isActive ==> m == SCHEDULE_DISABLED
  {
    if isActive then SCHEDULE_SET + Label(frequency) else SCHEDULE_DISABLED
  }

  /**
   * The user's settings and the schedule store agree: a stored schedule id
   * belongs to an active, non-manual setting and names a schedule of this
   * user on that frequency's cron expression.
   */
  predicate InSync(userId: string, s: UserSettings, schedules: map<string, Schedule>)
  {
    s.qstashScheduleId.Some? ==>
      && ActiveSchedule(s)
      && s.qstashScheduleId.value in schedules
      && schedules[s.qstashScheduleId.value].cron == CronOf(s.scheduleFrequency)
      && schedules[s.qstashScheduleId.value].userId == userId
  }

  /** The schedules left after `updateSchedule` deleted the setting's old schedule, if it did. */
  function Cleared(schedules: map<string, Schedule>, oldId: Option<string>, deleteOk: bool): map<string, Schedule>
  {
    if Truthy(oldId) && deleteOk && oldId.value in schedules then Removed(schedules, oldId.value) else schedules
  }

  /**
   * What `POST` does once the session and the body are in hand, as a
   * relation between the stores before and after and the response. The
   * settings keep `lastProcessed` and every other user's entry. An unchanged
   * frequency and flag leave the schedules alone and save the settings as
   * they were. A change to an active, non-manual schedule replaces the QStash
   * schedule and saves its id. Any other change removes the schedule
   * (ignoring errors) and saves no id. A failed create, or a failed settings
   * write, answers 500 with the settings as they were and the schedules as
   * the QStash calls left them.
   */
  twostate predicate Applied(settings: SettingsStore, qstash: ScheduleStore, userId: string, body: Body, w: World, resp: Response)
    reads settings, qstash
  {
    var current := old(settings.Get(userId));
    var newFrequency := Pick(body.frequency, current.scheduleFrequency);
    var newIsActive := Pick(body.isActive, current.isActive);
    var changed := newFrequency != current.scheduleFrequency || newIsActive != current.isActive;
    var creating := changed && newIsActive && newFrequency != Manual;
    var cleared := Cleared(old(qstash.schedules), current.qstashScheduleId, w.deleteOk);
    var saved := current.(scheduleFrequency := newFrequency, isActive := newIsActive,
                          qstashScheduleId := if !changed then current.qstashScheduleId
                                              else if creating then Some(w.issuedId) else None);
    && qstash.schedules == (if !changed then old(qstash.schedules)
                            else if creating && w.createOk
                            then cleared[w.issuedId := Schedule(WebhookUrl(w.appUrl), CronOf(newFrequency), userId, w.cronSecret)]
                            else cleared)
    && ((creating && !w.createOk) || !w.settingsWriteOk ==>
          resp == Failed(500, UPDATE_FAILED) && settings.stored == old(settings.stored))
    && (!(creating && !w.createOk) && w.settingsWriteOk ==>
          resp == Settled(View(saved), Some(Message(newFrequency, newIsActive)))
          && settings.stored == old(settings.stored)[SettingsKey(userId) := saved])
  }

  /**
   * The body of `POST` once the session and the body are in hand, as
   * `Applied` states it. When the create succeeds but the settings write
   * fails, the new QStash schedule stays in place and no setting records it.
   */
  method ApplySchedule(settings: SettingsStore, qstash: ScheduleStore, userId: string, body: Body, w: World)
    returns (resp: Response)
    modifies settings, qstash
    ensures Applied(settings, qstash, userId, body, w, resp)
    ensures var current := old(settings.Get(userId));
            var newFrequency := Pick(body.frequency, current.scheduleFrequency);
            var newIsActive := Pick(body.isActive, current.isActive);
            (newFrequency != current.scheduleFrequency || newIsActive != current.isActive)
            && newIsActive && newFrequency != Manual && w.createOk && !w.settingsWriteOk ==>
              resp == Failed(500, UPDATE_FAILED) && w.issuedId in qstash.schedules && settings.Get(userId) == current
  {
    var current := settings.Get(userId);
    var newFrequency := Pick(body.frequency, current.scheduleFrequency);
    var newIsActive := Pick(body.isActive, current.isActive);
    var webhookUrl := WebhookUrl(w.appUrl);
    var newScheduleId := current.qstashScheduleId;
    if newFrequency != current.scheduleFrequency || newIsActive != current.isActive {
      if newIsActive && newFrequency != Manual {
        var created := qstash.UpdateSchedule(userId, current.qstashScheduleId, newFrequency, webhookUrl, w.cronSecret,
                                             w.deleteOk, w.issuedId, w.createOk);
        if created.Err? {
          return Failed(500, UPDATE_FAILED);
        }
        newScheduleId := created.value;
      } else {
        if Truthy(current.qstashScheduleId) {
          var _ := qstash.UpdateSchedule(userId, current.qstashScheduleId, Manual, webhookUrl, w.cronSecret,
                                         w.deleteOk, w.issuedId, w.createOk);
        }
        newScheduleId := None;
      }
    }
    var updatedSettings := settings.Update(userId, SettingsPatch(Some(newFrequency), None, Some(newScheduleId), Some(newIsActive)),
                                           w.settingsWriteOk);
    if updatedSettings.None? {
      return Failed(500, UPDATE_FAILED);
    }
    resp := Settled(View(updatedSettings.value), Some(Message(newFrequency, newIsActive)));
  }

  /**
   * `POST`: 401 without a session and 500 for a body that is not valid
   * JSON or is null, both before any store is read or written; otherwise
   * what `Applied` states. A successful request keeps the caller's settings in
   * sync with the schedule store when they were in sync before, and changes
   * no other user's settings.
   */
  method PostSchedule(jar: CookieJar, settings: SettingsStore, qstash: ScheduleStore, body: Option<Body>, w: World)
    returns (resp: Response)
    modifies settings, qstash
    ensures jar.GetSession().None? ==>
              resp == Failed(401, NOT_AUTHENTICATED) && settings.stored == old(settings.stored)
              && qstash.schedules == old(qstash.schedules)
    ensures jar.GetSession().Some? && body.None? ==>
              resp == Failed(500, UPDATE_FAILED) && settings.stored == old(settings.stored)
              && qstash.schedules == old(qstash.schedules)
    ensures jar.GetSession().Some? && body.Some? ==> Applied(settings, qstash, jar.GetSession().value, body.value, w, resp)
    ensures jar.GetSession().Some? ==>
              var userId := jar.GetSession().value;
              && settings.Get(userId).lastProcessed == old(settings.Get(userId)).lastProcessed
              && (forall u :: u != userId ==> settings.Get(u) == old(settings.Get(u)))
              && (resp.Settled? && InSync(userId, old(settings.Get(userId)), old(qstash.schedules)) ==>
                    InSync(userId, settings.Get(userId), qstash.schedules))
  {
    var userId := jar.GetSession();
    if userId.None? {
      return Failed(401, NOT_AUTHENTICATED);
    }
    if body.None? {
      return Failed(500, UPDATE_FAILED);
    }
    resp := ApplySchedule(settings, qstash, userId.value, body.value, w);
    forall u | u != userId.value
      ensures settings.Get(u) == old(settings.Get(u))
    {
      if SettingsKey(u) == SettingsKey(userId.value) {
        SettingsKeyInjective(u, userId.value);
      }
    }
  }
}
