# Gmail job-application tracker, modelled in Dafny

This project models the core of the gmail-assistant web application. The
application reads a user's Gmail and asks a language model (Gemini) which
messages concern a job application. It keeps a roster of applications in a
Google Sheet: one row per job, matched case-insensitively by title and
company, with its status updated when a later email reports progress.

The roster is reconciled in two ways:

- a **scheduled run**: QStash calls `POST /api/cron/process-emails` on the
  user's chosen frequency and processes the mail that arrived since the
  user's `lastProcessed` watermark;
- a **manual run**: `GET /api/jobs/track` processes today's mail for the
  signed-in user.

Around these sit:

- the sheet client (reading and writing rows);
- the classifier (prompt reply cleaning and verdict mapping);
- the schedule settings route with its QStash schedules and Redis-held
  user settings;
- the Gmail helpers (OAuth credentials, the date query, fetching);
- the session cookie and user-id derivation;
- the OpenAI embedding preparation and batching;
- the Pinecone upload, deletion and statistics.

## Layout

- `base.dfy`, module `Base`: `Option` and `Result`, plus the JavaScript
  string behaviour the code relies on: truthiness, `||` defaults,
  `substring(0, n)`, `toLowerCase`, `trim`.
- `messages.dfy`, module `Messages`: a Gmail message, and the first-header
  lookup with its defaults.
- `sheets.dfy`, module `Sheets`: `JobApplication`, row decoding and
  encoding, and the class `SheetStore`, whose `contents` the append and
  overwrite methods change.
- `job_classifier.dfy`, module `JobClassifier`: fence stripping, and the
  mapping of a verdict to a job or null.
- `reconcile.dfy`, module `Reconcile`: the heart of the model.
  - It defines the action each email leads to against the frozen roster
    snapshot.
  - Each loop has a specification fold: `CronRun` for the scheduled loop,
    `TrackRun` for the manual one. The loop methods `CronLoop` and
    `TrackLoop` are proved equal to these folds.
  - Lemmas over the folds prove the counter bounds, the pacing discipline
    and the agreement of the two variants.
- `cron_route.dfy` and `track_route.dfy`: the two handlers around the loops.
- `qstash.dfy` (module `Schedules`), `user_settings.dfy` (module
  `Settings`) and `schedule_route.dfy`: the schedules and settings, with the
  settings route.
- `gmail.dfy`, `session.dfy`, `tokens.dfy`: credentials, the date query,
  message fetching, the session cookie, the user id and the token store.
- `batching.dfy`, `openai.dfy` (module `Embeddings`) and `pinecone.dfy`
  (module `VectorIndex`): slicing into batches, embedding and the vector
  index.

### How the outside world enters

Every external answer is an argument of the operation that receives it:

- the Gemini reply for each email;
- `JSON.parse` of the cleaned reply, as a function `parse`;
- whether each sheet write, token write, settings write or QStash call
  succeeds;
- the outcome of the QStash signature check;
- the environment variables;
- the clock, as `nowMs`, `nowIso` or a calendar date;
- `toLocaleDateString`, as a function `fmt`;
- the Gmail list and get calls;
- the embedding call, as `answers`: one outcome per email, by position
  (the vector, or None when the request throws).

The 200 ms and 100 ms `setTimeout` pauses and the progress callbacks become
ghost traces. These traces are returned by the methods and specified
exactly. The 10 s wait for a newly created index is recorded in the
Pinecone object's `waits`, which every index operation states through
`Initialized`.

### Behaviours of the code worth knowing

- **Frozen snapshot.** The roster is read once before the loop and never
  refreshed. A job first seen in this run is not matched by a later email
  of the same run: two emails about the same new job append two rows
  (`Reconcile.SameNewJobTwice`). Rows appended earlier in a run are not
  seen by its later iterations.
- **The manual run aborts.** In the manual run, a classifier error or a
  failed sheet write ends the whole request with a 500 and no summary
  (`Reconcile.TrackAbortIsFinal`, `TrackRoute.TrackJobs`). Emails after
  the failing one are not processed, and rows already written stay. Only
  the scheduled run catches per-message errors and goes on.
- **`geminiCalls` in the scheduled run** counts only calls that returned.
  The 200 ms pause is inserted only once one such call has happened
  (`Reconcile.CronPacing`).
- **`geminiCalls` in the manual run** is reported as
  `emails.length - skipped`. With the abort, this equals the number of
  calls made (`Reconcile.TrackCounters`, `Reconcile.TrackPacing`).
- **Truncated ids.** Stored email ids are cut to 16 characters, but the
  skip test compares full ids. An email whose id is longer than 16
  characters is therefore never recognised as already processed
  (`Reconcile.LongIdsNeverSkipped`, `Sheets.StoredIdsAreShort`).
- **User ids can collide.** `createUserId` removes `+`, `/` and `=` from the
  base64 text, so it is not injective (`Session.UserIdCollision`). It is
  injective on addresses whose bytes never produce those digits
  (`Session.UserIdInjective`).
- **Unrecorded schedules.** In `POST /api/settings/schedule` a new QStash
  schedule is created before the settings are saved. When that save
  throws, the request answers 500 and the schedule stays in QStash with
  no setting naming it (`ScheduleRoute.ApplySchedule`).

## Model

| member | source | states |
|---|---|---|
| Base.Lower | gmail-assistant/app/api/cron/process-emails/route.ts:143-144 | the lower-cased string has the same length and maps each character through the letter lower-casing |
| Messages.FindHeader | gmail-assistant/lib/jobClassifier.ts:26-28 | absent exactly when no header has that name; otherwise the value of the first header with exactly that name |
| Messages.Summarize | gmail-assistant/lib/jobClassifier.ts:24-29 | the subject and sender of a summary are never empty |
| Messages.SummaryFields | gmail-assistant/lib/jobClassifier.ts:24-29 | the subject, sender and date are the first matching header's value when it is truthy, else "No Subject", "Unknown" and the current time; the snippet defaults to "" |
| Messages.FirstHeaderWins | gmail-assistant/lib/jobClassifier.ts:26 | a header with no same-named header before it is the one the lookup returns |
| Sheets.DecodeRow | gmail-assistant/lib/sheets.ts:34-43 | the row at index i gets sheetRowId i + 2; the status is never empty (it defaults to "applied"); an empty date or notes cell decodes to absent |
| Sheets.DecodeRows | gmail-assistant/lib/sheets.ts:32-43 | one application per data row, in order, the i-th decoded from row i |
| Sheets.EncodeRow | gmail-assistant/lib/sheets.ts:67-75 | a written row has the 7 cells of the header; its Email ID cell is a prefix of the email id of at most 16 characters |
| Sheets.Appended | gmail-assistant/lib/sheets.ts:78-85 | appending keeps the header and every existing row and adds exactly one last row |
| Sheets.Overwritten | gmail-assistant/lib/sheets.ts:121-128 | writing at A{r} fails for r < 1, replaces the header for r = 1, and otherwise replaces exactly data row r - 2 (padding when it lies beyond the data) |
| Sheets.UpdatedSheet | gmail-assistant/lib/sheets.ts:92-128 | a missing or zero sheetRowId fails with "Cannot update application without sheetRowId"; a row id inside the data replaces exactly that row with the encoded application |
| Sheets.ReadBack | gmail-assistant/lib/sheets.ts:34-75 | decoding a written row returns the same title, company, notes and status ("applied" when empty), the email id cut to 16 characters, and the row id of its position |
| Sheets.RowIdsConsecutive | gmail-assistant/lib/sheets.ts:42 | decoded row ids are at least 2 and differ exactly as the row indexes do, hence distinct and consecutive |
| Sheets.StoredIdsAreShort | gmail-assistant/lib/sheets.ts:73 | every email id read back from written rows has at most 16 characters |
| Sheets.SheetStore.GetAllApplications | gmail-assistant/lib/sheets.ts:22-48 | a missing sheet id or a failed read gives its error; otherwise the decoded rows of the sheet |
| Sheets.SheetStore.AddApplication | gmail-assistant/lib/sheets.ts:50-90 | succeeds exactly when the sheet id is set and the API accepts; then the sheet is the old one with the encoded row appended, else unchanged |
| Sheets.SheetStore.UpdateApplication | gmail-assistant/lib/sheets.ts:92-133 | the missing-row-id error comes before any other; on success the sheet is the overwritten one, on failure unchanged |
| JobClassifier.RemoveFences | gmail-assistant/lib/jobClassifier.ts:59 | removing every fence marker with its optional newline never lengthens the text |
| JobClassifier.NoFenceNoChange | gmail-assistant/lib/jobClassifier.ts:59 | text with no backtick is left unchanged by fence removal |
| JobClassifier.PlainPrefix | gmail-assistant/lib/jobClassifier.ts:59 | fence removal passes a backtick-free prefix through untouched |
| JobClassifier.NoBackticksOnlyTrimmed | gmail-assistant/lib/jobClassifier.ts:59 | cleaning a reply without backticks only trims it |
| JobClassifier.FencedPayload | gmail-assistant/lib/jobClassifier.ts:59 | a reply of the form "```json\n" + payload + "```" cleans to the trimmed payload |
| JobClassifier.ClassifyJobEmail | gmail-assistant/lib/jobClassifier.ts:23-78 | a job built from an email carries that email's id and no row id |
| JobClassifier.FromVerdict | gmail-assistant/lib/jobClassifier.ts:62-77 | an unparsable reply throws; a job built from a verdict carries the email's id and no row id |
| JobClassifier.ClassifyOutcome | gmail-assistant/lib/jobClassifier.ts:23-78 | a failed model call or unparsable text throws; a falsy isJobRelated gives null; a job takes title and company (or "Unknown"), status as given, notes when truthy, the Date header as dateApplied, the email id and the current time |
| JobClassifier.JobHasIdentity | gmail-assistant/lib/jobClassifier.ts:70-71 | a classified job always has a non-empty title and company |
| Reconcile.FindExisting | gmail-assistant/app/api/cron/process-emails/route.ts:141-145 | returns the first roster entry with the same lower-cased title and company, and none exactly when there is no such entry |
| Reconcile.FirstMatchUnique | gmail-assistant/app/api/cron/process-emails/route.ts:141-145 | the first match is unique |
| Reconcile.ProcessedIds | gmail-assistant/app/api/cron/process-emails/route.ts:115 | an id is in the set exactly when some roster entry carries it |
| Reconcile.LongIdsNeverSkipped | gmail-assistant/app/api/cron/process-emails/route.ts:124 | against a roster of stored (at most 16-character) ids, an email whose id is longer is never skipped |
| Reconcile.JobAction | gmail-assistant/app/api/cron/process-emails/route.ts:140-158 | a job result always leads to an append, an overwrite or nothing |
| Reconcile.ClassifiedAction | gmail-assistant/app/api/cron/process-emails/route.ts:134-138 | a classified email is never skipped; it fails exactly when classification threw, and is not a job exactly when the result is null |
| Reconcile.ActionOf | gmail-assistant/app/api/cron/process-emails/route.ts:122-127 | an email is skipped exactly when its id is in the snapshot's id set |
| Reconcile.JobActionMeaning | gmail-assistant/app/api/cron/process-emails/route.ts:140-158 | append exactly when no snapshot entry matches; otherwise the first match decides: the same status writes nothing, another status overwrites the match's row with the new job |
| Reconcile.ActionMeaning | gmail-assistant/app/api/cron/process-emails/route.ts:122-158 | the full decision for one email: skip on a known id, failure on a thrown classification, nothing for null, else the job's action against the snapshot |
| Reconcile.NewJobAppends | gmail-assistant/app/api/cron/process-emails/route.ts:155-158 | a new email classified as a job with no match in the snapshot is appended |
| Reconcile.SameNewJobTwice | gmail-assistant/app/api/cron/process-emails/route.ts:114-158 | two emails about the same job absent from the snapshot append two rows in one run, because the snapshot is never refreshed |
| Reconcile.AppendStep | gmail-assistant/app/api/cron/process-emails/route.ts:155-157 | a successful append adds exactly the encoded row and counts one new job |
| Reconcile.CronStepCounters | gmail-assistant/app/api/cron/process-emails/route.ts:122-162 | one scheduled iteration raises skipped + geminiCalls by at most one, counts a write only after a counted call, and keeps the header |
| Reconcile.CronCounters | gmail-assistant/app/api/cron/process-emails/route.ts:117-163 | after the scheduled loop, skipped + geminiCalls <= processed, newJobs + updatedJobs <= geminiCalls, and the sheet grew by exactly newJobs rows |
| Reconcile.CronRunCounters | gmail-assistant/app/api/cron/process-emails/route.ts:113-178 | the same bounds for a run over fetched emails against a roster read from the sheet |
| Reconcile.CronStepPacing | gmail-assistant/app/api/cron/process-emails/route.ts:129-136 | one iteration keeps the scheduled pacing discipline and geminiCalls equal to the number of calls that returned |
| Reconcile.CronPacing | gmail-assistant/app/api/cron/process-emails/route.ts:129-136 | in the scheduled run, every wait is 200 ms directly before a call, a call is preceded by a wait exactly when an earlier call returned, and geminiCalls counts the calls that returned |
| Reconcile.AllSkipped | gmail-assistant/app/api/cron/process-emails/route.ts:122-127 | when every email is skipped the sheet is untouched, nothing is classified, and skipped equals their number |
| Reconcile.CronAllKnown | gmail-assistant/app/api/cron/process-emails/route.ts:122-127 | a run over emails all already on the roster changes nothing and reports all of them skipped |
| Reconcile.CronJob | gmail-assistant/app/api/cron/process-emails/route.ts:147-158 | the write for a job result leaves the sheet and counters as the scheduled specification says, a failed write swallowed |
| Reconcile.CronClassified | gmail-assistant/app/api/cron/process-emails/route.ts:134-162 | a classification outcome updates sheet, counters and trace as one scheduled specification step |
| Reconcile.CronVisit | gmail-assistant/app/api/cron/process-emails/route.ts:122-162 | one loop iteration equals one step of the scheduled specification |
| Reconcile.CronLoop | gmail-assistant/app/api/cron/process-emails/route.ts:113-163 | the loop leaves the sheet, the trace and the counters of the scheduled specification run, with processed = emails.length |
| Reconcile.TrackStepCounters | gmail-assistant/app/api/jobs/track/route.ts:46-88 | one manual iteration that does not abort raises skipped + geminiCallCount by exactly one, and the lists grow only after a call |
| Reconcile.TrackCounters | gmail-assistant/app/api/jobs/track/route.ts:41-99 | a manual run that does not abort has emails.length - skipped = geminiCallCount, the two lists together no longer than geminiCallCount, and the sheet grown by one row per new job |
| Reconcile.TrackRunCounters | gmail-assistant/app/api/jobs/track/route.ts:36-99 | the same bounds for a run over fetched emails against a roster read from the sheet |
| Reconcile.TrackStepPacing | gmail-assistant/app/api/jobs/track/route.ts:53-60 | one iteration keeps the manual pacing discipline and the call count |
| Reconcile.TrackPacing | gmail-assistant/app/api/jobs/track/route.ts:53-60 | in the manual run every call but the first is directly preceded by a 200 ms wait, and a completed run's call count equals the calls made |
| Reconcile.TrackAbortIsFinal | gmail-assistant/app/api/jobs/track/route.ts:101-106 | once a manual run has aborted, later emails change nothing |
| Reconcile.StepsAgree | gmail-assistant/app/api/jobs/track/route.ts:46-88 | while no error occurs, a manual step does what the scheduled step does |
| Reconcile.RunsAgreeWithoutErrors | gmail-assistant/app/api/jobs/track/route.ts:46-88 | a manual run that does not abort ends with the sheet, counters and classifier calls of the scheduled run over the same answers |
| Reconcile.TrackJob | gmail-assistant/app/api/jobs/track/route.ts:72-87 | the write for a job result leaves the sheet and lists as the manual specification says, a failed write aborting |
| Reconcile.TrackClassified | gmail-assistant/app/api/jobs/track/route.ts:59-87 | a classification outcome updates sheet, lists, count and trace as one manual specification step |
| Reconcile.TrackVisit | gmail-assistant/app/api/jobs/track/route.ts:46-88 | one loop iteration equals one step of the manual specification |
| Reconcile.TrackLoop | gmail-assistant/app/api/jobs/track/route.ts:36-99 | the loop leaves the sheet and trace of the manual specification run, and a summary exactly when it did not abort, with geminiCalls = emails.length - skipped |
| CronRoute.GateOf | gmail-assistant/app/api/cron/process-emails/route.ts:28-53 | passes exactly for an authorised request with a truthy userId; a bad signature gives 401 "Invalid signature", a missing or wrong secret 401 "Unauthorized", a missing userId 400, a non-JSON body 500 |
| CronRoute.GateProperties | gmail-assistant/app/api/cron/process-emails/route.ts:28-44 | with a signature present the secret header is ignored; without one, an unset CRON_SECRET rejects every request |
| CronRoute.AfterRefresh | gmail-assistant/lib/gmail.ts:151-171 | credentials that need no refresh are kept; otherwise they are replaced by the refreshed ones, or the refresh failed |
| CronRoute.RefreshTokens | gmail-assistant/app/api/cron/process-emails/route.ts:64-91 | no stored tokens gives 401; a failed refresh 401 "Token refresh failed"; tokens are written back only when the access token changed, and nothing is written on failure |
| CronRoute.SinceOf | gmail-assistant/app/api/cron/process-emails/route.ts:94-96 | the window starts at lastProcessed when it is set, else 24 hours before now |
| CronRoute.NextWindow | gmail-assistant/app/api/cron/process-emails/route.ts:94-105 | after a trigger sets lastProcessed, the next trigger fetches from that moment on |
| CronRoute.FetchAndProcess | gmail-assistant/app/api/cron/process-emails/route.ts:100-178 | a failed fetch or roster read gives 500 and changes nothing; an empty fetch sets lastProcessed only; otherwise the scheduled run's sheet and summary, then lastProcessed set |
| CronRoute.ProcessEmails | gmail-assistant/app/api/cron/process-emails/route.ts:20-186 | a refused or inactive trigger touches nothing; a passed token step leads to a failed fetch's 500, NoNewEmails for an empty fetch, an unreadable roster's 500, or otherwise a completed run; past the token step the token store holds the refreshed access token (written only when it changed), and a token failure gives its 401 or 500 with the store unchanged; a failure leaves settings and sheet unchanged; success sets only the user's lastProcessed in the settings and reports the scheduled run over the chosen window |
| CronRoute.TokenFailure | gmail-assistant/app/api/cron/process-emails/route.ts:64-91 | the token step lets the request through exactly when tokens are stored, the OAuth environment is set, the refresh succeeds and a changed token is saved; otherwise 401 "No tokens found", 500, or 401 "Token refresh failed" |
| CronRoute.TokensAfter | gmail-assistant/app/api/cron/process-emails/route.ts:78-84 | after a passed token step the user's entry carries the refreshed access token, nothing is written when it did not change, and other entries are untouched |
| TrackRoute.TrackJobs | gmail-assistant/app/api/jobs/track/route.ts:13-108 | no session or no tokens gives 401 with the sheet untouched; a failed fetch or read gives 500; otherwise the manual run's sheet and summary, or 500 when it aborted; settings are not among its inputs |
| Schedules.CronOf | gmail-assistant/lib/qstash.ts:14-19 | the cron expression is empty exactly for manual |
| Schedules.Label | gmail-assistant/lib/qstash.ts:21-26 | every frequency has a non-empty label |
| Schedules.TablesInjective | gmail-assistant/lib/qstash.ts:14-26 | distinct frequencies have distinct cron expressions and distinct labels |
| Schedules.Removed | gmail-assistant/lib/qstash.ts:54-56 | deleting a schedule removes exactly its id and keeps every other schedule |
| Schedules.ScheduleStore.CreateSchedule | gmail-assistant/lib/qstash.ts:31-49 | manual returns null and creates nothing; otherwise a schedule to the webhook, on the frequency's cron, for this user, with the secret header, is stored under the returned id |
| Schedules.ScheduleStore.DeleteSchedule | gmail-assistant/lib/qstash.ts:54-56 | succeeds exactly when the API accepts and the id exists, and then removes exactly that schedule |
| Schedules.ScheduleStore.UpdateSchedule | gmail-assistant/lib/qstash.ts:61-77 | the old schedule is removed when its id is set and the delete succeeds, a failed delete ignored; the result is that of creating the new frequency, so manual leaves no new schedule and returns null |
| Settings.SettingsKey | gmail-assistant/lib/userSettings.ts:34 | the key is the prefix "user_settings:" followed by the user id |
| Settings.SettingsKeyInjective | gmail-assistant/lib/userSettings.ts:34 | different users have different keys |
| Settings.MergeFields | gmail-assistant/lib/userSettings.ts:46-49 | every field in the update overrides, every field not in it is kept |
| Settings.MergeIdempotent | gmail-assistant/lib/userSettings.ts:47-49 | applying the same update twice gives what applying it once gives |
| Settings.MergeEmpty | gmail-assistant/lib/userSettings.ts:48 | an empty update changes nothing |
| Settings.LastProcessedOnly | gmail-assistant/lib/userSettings.ts:56-60 | setting lastProcessed changes only lastProcessed |
| Settings.ActiveHasCron | gmail-assistant/lib/userSettings.ts:65-68 | an active schedule has a non-empty cron expression; the default settings are not active |
| Settings.SettingsStore.Get | gmail-assistant/lib/userSettings.ts:33-37 | stored settings, or the defaults {manual, null, null, false} when none are stored |
| Settings.SettingsStore.Update | gmail-assistant/lib/userSettings.ts:42-51 | stores the current settings overlaid with the update and returns exactly what it stored, or, when the Redis write throws, returns nothing and leaves the store as it was |
| Settings.SettingsStore.SetLastProcessed | gmail-assistant/lib/userSettings.ts:56-60 | sets this user's lastProcessed to now and leaves every other user's settings alone |
| Settings.SettingsStore.IsScheduleActive | gmail-assistant/lib/userSettings.ts:65-68 | true exactly when isActive and the frequency is not manual |
| ScheduleRoute.View | gmail-assistant/app/api/settings/schedule/route.ts:23-29 | the response data is the settings with the frequency's label added |
| ScheduleRoute.GetSchedule | gmail-assistant/app/api/settings/schedule/route.ts:11-37 | no session gives 401 "Not authenticated"; otherwise the user's settings with their label |
| ScheduleRoute.WebhookUrl | gmail-assistant/app/api/settings/schedule/route.ts:63-64 | the app URL, or the default one when unset, followed by /api/cron/process-emails |
| ScheduleRoute.Message | gmail-assistant/app/api/settings/schedule/route.ts:108-110 | "Schedule set to {label}" when active, else "Schedule disabled" |
| ScheduleRoute.ApplySchedule | gmail-assistant/app/api/settings/schedule/route.ts:55-117 | absent fields fall back to the current values; no change makes no schedule call; a change to active non-manual replaces the schedule and stores its id; any other change deletes it and stores null; only the three schedule fields are saved; a failed create or settings write answers 500 with the settings unchanged, and a created schedule whose settings write failed stays in QStash unrecorded |
| ScheduleRoute.PostSchedule | gmail-assistant/app/api/settings/schedule/route.ts:39-119 | no session gives 401 and an invalid or null JSON body 500, touching nothing; otherwise the response, settings and schedules ApplySchedule gives; lastProcessed and other users are never changed; a successful request keeps the settings and schedules in sync |
| Gmail.CreateOAuth2Client | gmail-assistant/lib/gmail.ts:18-30 | fails with the missing-variables error exactly when one of the three variables is unset or empty |
| Gmail.CredentialTests | gmail-assistant/lib/gmail.ts:133-171 | no access token is invalid; invalid credentials with a token need a refresh; credentials needing none are valid exactly when they hold a token; validity holds at earlier times |
| Gmail.OAuthClient.RefreshAccessTokenIfNeeded | gmail-assistant/lib/gmail.ts:151-171 | no expiry, or an expiry at least 5 minutes ahead, changes nothing; otherwise the refreshed credentials are set, or "Failed to refresh access token" with the credentials unchanged |
| Gmail.Decimal | gmail-assistant/lib/gmail.ts:121-123 | the decimal text of a number is non-empty and all digits |
| Gmail.PadStart2 | gmail-assistant/lib/gmail.ts:122-123 | pads to two characters and keeps longer text unchanged |
| Gmail.DecimalRoundTrip | gmail-assistant/lib/gmail.ts:121-123 | reading the decimal text back gives the number |
| Gmail.PaddedValue | gmail-assistant/lib/gmail.ts:122-123 | a number below 100 pads to two digits that read back as the number |
| Gmail.DateQueryRoundTrip | gmail-assistant/lib/gmail.ts:120-125 | the query after:Y/MM/DD reads back as the year, the month counted from 1, and the day |
| Gmail.FetchError | gmail-assistant/lib/gmail.ts:102-110 | code 401 maps to the re-authenticate message, anything else to the generic fetch failure |
| Gmail.GetAll | gmail-assistant/lib/gmail.ts:90-101 | all messages in list order when every get answers; otherwise the error of one that threw |
| Gmail.FetchRecentEmails | gmail-assistant/lib/gmail.ts:69-111 | an absent or empty list gives []; otherwise the i-th result is the message of the i-th listed id; errors are mapped |
| Session.B64Char | gmail-assistant/lib/session.ts:16 | a base64 digit is a letter or digit exactly for the values below 62 |
| Session.B64ValueOfChar | gmail-assistant/lib/session.ts:16 | a letter or digit reads back as its base64 value |
| Session.Encode | gmail-assistant/lib/session.ts:16 | the base64 text has length 4 * ceil(n / 3) |
| Session.KeepAlnum | gmail-assistant/lib/session.ts:16 | removing the other characters leaves only ASCII letters and digits, and never lengthens |
| Session.KeepAlnumKeeps | gmail-assistant/lib/session.ts:16 | text of letters and digits is unchanged by the removal |
| Session.CreateUserId | gmail-assistant/lib/session.ts:14-17 | the id holds only ASCII letters and digits and is no longer than the base64 encoding |
| Session.QuadRoundTrip | gmail-assistant/lib/session.ts:16 | three safe bytes encode to four letters or digits that read back as those bytes |
| Session.DropPadding | gmail-assistant/lib/session.ts:16 | removing the "=" padding leaves the digits |
| Session.TailOneRoundTrip | gmail-assistant/lib/session.ts:16 | a final single safe byte reads back from its id |
| Session.TailTwoRoundTrip | gmail-assistant/lib/session.ts:16 | final two safe bytes read back from their id |
| Session.UserIdRoundTrip | gmail-assistant/lib/session.ts:14-17 | an address of safe bytes is recovered from its user id |
| Session.IdSplit | gmail-assistant/lib/session.ts:16 | the id of a longer address is the first three bytes' digits followed by the id of the rest |
| Session.UserIdInjective | gmail-assistant/lib/session.ts:14-17 | two addresses of safe bytes with the same user id are equal |
| Session.UserIdCollision | gmail-assistant/lib/session.ts:16 | the addresses "ab", "ab>" and "ab?" share the user id "YWI" |
| Session.SessionMaxAge | gmail-assistant/lib/session.ts:9-29 | the cookie max-age is 30 days in seconds, 2592000 |
| Session.CookieJar.GetSession | gmail-assistant/lib/session.ts:37-42 | null when the cookie is absent or empty, else its value |
| Session.CookieJar.SetSession | gmail-assistant/lib/session.ts:22-32 | sets the http-only, lax, path "/" cookie with the 30-day max-age; afterwards the session is the id when non-empty, and isAuthenticated matches |
| Session.CookieJar.ClearSession | gmail-assistant/lib/session.ts:47-50 | removes only the session cookie; afterwards there is no session and isAuthenticated is false |
| Tokens.TokenKey | gmail-assistant/lib/kv.ts:36 | the key is the prefix "gmail_token:" followed by the user id |
| Tokens.TokenKeyInjective | gmail-assistant/lib/kv.ts:36 | different users have different keys |
| Tokens.TokenStore.GetTokens | gmail-assistant/lib/kv.ts:34-52 | the stored credentials under the user's key, or null |
| Tokens.TokenStore.UpdateTokens | gmail-assistant/lib/kv.ts:83-85 | on success the user's credentials are replaced and no other user's change; on failure "Failed to store tokens" and nothing changes |
| Batching.ChunksFrom | gmail-assistant/lib/openai.ts:123-124 | every slice is non-empty and at most the batch size, one per progress value |
| Batching.ChunksFromCover | gmail-assistant/lib/openai.ts:123-124 | the slices taken from i on concatenate to the items from i on |
| Batching.ChunksCover | gmail-assistant/lib/openai.ts:123-126 | the slices concatenate to the whole input, in order |
| Batching.ProgressCountsItems | gmail-assistant/lib/openai.ts:128-130 | each progress value is the number of items in the slices handled so far |
| Batching.ProgressShape | gmail-assistant/lib/pinecone.ts:86-90 | progress values lie in (i, n], strictly increase and end at n |
| Batching.ProgressOf | gmail-assistant/lib/pinecone.ts:80-92 | progress is empty exactly for empty input, strictly increases and ends at n |
| Embeddings.PrepareEmailForEmbedding | gmail-assistant/lib/openai.ts:47-73 | the id and metadata id are the email id; the metadata snippet has at most 200 characters |
| Embeddings.PreparedFields | gmail-assistant/lib/openai.ts:47-73 | the metadata is the defaulted subject, sender and date, the first 200 snippet characters and the id; the text is the From, Subject, Content template trimmed |
| Embeddings.TrimmedText | gmail-assistant/lib/openai.ts:56-60 | trimming the template gives the three lines with trailing space removed |
| Embeddings.Entry | gmail-assistant/lib/openai.ts:92-107 | a successful embedding adds one entry with the email id, the vector and the metadata; a failed one adds none |
| Embeddings.Prepared | gmail-assistant/lib/openai.ts:86 | one prepared email per email |
| Embeddings.PreparedAt | gmail-assistant/lib/openai.ts:86 | the k-th prepared email is the k-th email prepared |
| Embeddings.PreparedAppend | gmail-assistant/lib/openai.ts:84-86 | preparing two lists one after the other is preparing their concatenation |
| Embeddings.EmbedAll | gmail-assistant/lib/openai.ts:84-108 | never more entries than prepared emails |
| Embeddings.Embedded | gmail-assistant/lib/openai.ts:82-110 | never more entries than emails |
| Embeddings.EmbedAllAppend | gmail-assistant/lib/openai.ts:84-108 | embedding two prepared lists one after the other is embedding their concatenation |
| Embeddings.EmbeddedAppend | gmail-assistant/lib/openai.ts:84-108 | embedding two email lists one after the other is embedding their concatenation |
| Embeddings.EmbedAllSucceed | gmail-assistant/lib/openai.ts:84-108 | when every embedding succeeds there is one entry per email, in input order, holding that email's id, vector and metadata |
| Embeddings.EmbedAllFail | gmail-assistant/lib/openai.ts:104-107 | when every embedding fails the result is empty |
| Embeddings.ReportsNumbered | gmail-assistant/lib/openai.ts:88-90 | the k-th report is (k + 1, total, subject of the k-th prepared email), one per email |
| Embeddings.EmbedStep | gmail-assistant/lib/openai.ts:84-108 | one more email extends the prepared list, the entries and the reports by that email's alone |
| Embeddings.EmbedEmails | gmail-assistant/lib/openai.ts:78-111 | returns the entries of the emails whose own request succeeded, in order, reports every email before its request, and pauses once per success |
| Embeddings.BatchEmbedEmails | gmail-assistant/lib/openai.ts:116-134 | processes the consecutive slices with their answers and returns what embedding the whole list at once returns, so batching loses and reorders nothing; reports min(i + batchSize, n) after each slice |
| Embeddings.EmbeddedPrefixStep | gmail-assistant/lib/openai.ts:123-127 | the embeddings up to i followed by those of the slice i..end are the embeddings up to end |
| VectorIndex.UpsertAppend | gmail-assistant/lib/pinecone.ts:81-84 | upserting a concatenation is upserting one part after the other |
| VectorIndex.UpsertBatchesFlatten | gmail-assistant/lib/pinecone.ts:81-84 | upserting batch by batch equals upserting their concatenation |
| VectorIndex.UpsertInChunks | gmail-assistant/lib/pinecone.ts:80-84 | upserting in slices of 100 equals upserting the whole list |
| VectorIndex.UpsertKeys | gmail-assistant/lib/pinecone.ts:84 | after an upsert the index holds exactly the old ids and the batch's ids |
| VectorIndex.UpsertKeepsOthers | gmail-assistant/lib/pinecone.ts:84 | a record whose id is not in the batch is unchanged |
| VectorIndex.UpsertLastWins | gmail-assistant/lib/pinecone.ts:84 | a record is stored as the last batch entry with its id |
| VectorIndex.StatsOf | gmail-assistant/lib/pinecone.ts:146-150 | the record count defaults to 0 and a missing or zero dimension to 1536; namespaces are passed through |
| VectorIndex.Pinecone.InitializePinecone | gmail-assistant/lib/pinecone.ts:18-66 | a cached connection is returned without reconnecting; a missing API key fails before connecting; otherwise a new client is kept even if a later step fails, and it connects, creating the index with a 10 s wait when absent, or fails with "Failed to initialize Pinecone"; succeeds exactly when the connection can be made, and is then connected |
| VectorIndex.Pinecone.UploadInBatches | gmail-assistant/lib/pinecone.ts:80-92 | the slices of 100 are upserted in order up to the first that fails, with progress min(i + 100, n) after each |
| VectorIndex.Pinecone.UpsertEmails | gmail-assistant/lib/pinecone.ts:71-99 | any failure is reported as "Failed to upload emails to Pinecone"; the connection state is what initializePinecone leaves; without a connection nothing is written; otherwise the slices up to the first failure are upserted |
| VectorIndex.Pinecone.DeleteEmails | gmail-assistant/lib/pinecone.ts:160-171 | the connection state is what initializePinecone leaves (a client may be created even on failure); on success it is connected and exactly the given ids are removed; on failure the delete error and the records unchanged |
| VectorIndex.Pinecone.ClearIndex | gmail-assistant/lib/pinecone.ts:176-187 | the connection state is what initializePinecone leaves (a client may be created even on failure); on success it is connected and the index is empty; on failure the clear error and the records unchanged |
| VectorIndex.Pinecone.GetIndexStats | gmail-assistant/lib/pinecone.ts:140-155 | the connection state is what initializePinecone leaves; the defaulted statistics when connected and answered, else "Failed to get index statistics"; records are unchanged |

## Left out

- External services are parameters rather than models:
  - Gemini, Google Sheets, Gmail and OAuth, OpenAI embeddings, Pinecone,
    QStash and Redis;
  - each call's outcome is an argument (a success flag, an answer or an
    oracle function);
  - the stores are maps held by classes.
- QStash signature verification is cryptographic. It is the boolean
  `signatureValid` of `CronRoute.World`.
- `fetchEmailsSince` is imported by the scheduled route but is not defined
  in lib/gmail.ts. It is the oracle `fetch` of `CronRoute.World`, called
  with the window and the limit of 50.
- `JSON.parse` is not modelled:
  - for the model's reply, it is the `parse` function of a run;
  - for the cron request body, the request carries the parsed `userId`;
  - for the schedule request body, it is an optional parsed body.
- Time and dates:
  - `Date.now`, `new Date().toISOString()` and `toLocaleDateString`
    formatting are parameters (`nowMs`, `nowIso`, `fmt`);
  - one `nowIso` serves a whole run;
  - the local calendar date of `fetchTodaysEmails` is a parameter.
- Real time and parallelism:
  - the `setTimeout` pauses are ghost trace events;
  - `Promise.all` in `fetchRecentEmails` is an in-order map.
- Logging (`console.log`, `console.error`) is left out.
- `searchEmails` (lib/pinecone.ts) is not modelled. Its result is a
  similarity ranking computed by the service over floating-point vectors.
  Vectors are opaque sequences here.
- `getOpenAIClient` and `createEmbedding` are left out. The outcome of
  each email's embedding request is the matching entry of `answers`,
  `None` when it throws.
- `getGeminiModel` (lib/gemini.ts) is left out. The reply is an argument.
- Not part of the reconciliation core, so not modelled:
  - `getAuthUrl`, `getTokenFromCode` and `getGmailClient` (lib/gmail.ts);
  - `storeTokens`, `deleteTokens` and `hasTokens` (lib/kv.ts);
  - the UI, the auth, emails and stats routes, and the legacy scripts
    under src/.
- JobClassifier.FromVerdict: a `null` status in the classifier's JSON is
  not represented, because `status` is always a string here. In the match
  test of route.ts:147 a null status behaves as "" does, since decoded
  statuses are never empty. What the Sheets API writes for a null cell is
  not modelled.
- Base.Lower: lower-cases ASCII letters only. JavaScript's `toLowerCase`
  also folds other letters, which would change the title and company match
  only for non-ASCII names.
- Session.CreateUserId: works on the address's bytes. The UTF-8 encoding of
  a JavaScript string into those bytes is not modelled.
- Tokens.TokenStore.GetTokens: the stored value is already-parsed
  credentials. The string-or-object handling and the `null` returned on a
  Redis error are not modelled.
- Settings.SettingsStore.Get: a Redis read never fails here. A failing read
  in a route would reach that route's generic 500.
- Settings.SettingsStore.SetLastProcessed: the Redis write never fails
  here. In the scheduled route a failure would turn a finished run into a
  500.
- Reconcile.LongIdsNeverSkipped: proved only for rosters whose stored ids
  are at most 16 characters, as every row this model writes is.
- Gmail.GetAll: when several gets throw, it reports one of them without
  fixing which one, as `Promise.all` rejects with whichever fails first in
  time.
- Embeddings.EmbedEmails: the 100 ms pause after each success is counted,
  not placed in a trace with the progress reports.
- VectorIndex.Pinecone.UploadInBatches: `failAt` stands for the index of
  the first batch whose upsert throws. A partly applied batch is not
  modelled.
