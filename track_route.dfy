/**
 * The manual trigger (app/api/jobs/track/route.ts, `GET`): the session and
 * stored tokens are checked, today's mail is fetched, the roster is read,
 * and the manual reconciliation loop of module Reconcile runs over the
 * mail; any error escaping the loop turns the whole request into a 500.
 *
 * The handler takes no settings store: it neither reads nor writes the
 * user's schedule settings or `lastProcessed`. Google's and the
 * classifier's answers are arguments, gathered in `World`.
 */
module TrackRoute {
  import opened Base
  import opened Messages
  import opened Sheets
  import opened JobClassifier
  import opened Reconcile
  import opened Gmail
  import opened Tokens
  import opened Session

  const NOT_AUTHENTICATED := "Not Authenticated"
  const NO_CREDENTIALS := "No stored credentials found"
  const TRACK_FAILED := "Failed to track jobs"

  /** The handler's JSON responses; `Tracked` is the "Job tracking completed" summary. */
  datatype Response = Failed(status: nat, error: string) | Tracked(summary: TrackSummary)

  datatype World = World(
    oauth: OAuthEnv,
    today: CalendarDate,
    list: Lister,
    get: string -> Call<GmailMessage>,
    sheetReadOk: bool,
    nowIso: string,
    parse: string -> Option<Verdict>,
    fmt: string -> string,
    answerAt: nat -> Answers)

  /** The manual run over `emails` against the roster as read, frozen. */
  function Outcome(sheet: Sheet, w: World, emails: seq<GmailMessage>): TrackState
  {
    TrackRun(Run(DecodeRows(sheet.rows, w.nowIso), w.parse, w.fmt, w.nowIso), sheet, emails, AnswersFor(w.answerAt, |emails|))
  }

  /** Whether everything before the loop succeeds: the OAuth environment, today's fetch and the roster read. */
  predicate Ready(sheet: SheetStore, w: World)
    reads sheet
  {
    CreateOAuth2Client(w.oauth).Ok? && FetchTodaysEmails(w.today, w.list, w.get).Ok? && Truthy(sheet.sheetId) && w.sheetReadOk
  }

  /**
   * `GET`. No session or no stored tokens is a 401 and no failure before the
   * loop writes anything; otherwise the roster ends as the manual run over
   * today's mail leaves it, and the response is that run's summary, or a 500
   * when an error aborted it.
   */
  method TrackJobs(jar: CookieJar, tokens: TokenStore, sheet: SheetStore, w: World)
    returns (resp: Response, ghost trace: seq<Event>)
    modifies sheet`contents
    ensures jar.GetSession().None? ==> resp == Failed(401, NOT_AUTHENTICATED) && sheet.contents == old(sheet.contents)
    ensures jar.GetSession().Some? && tokens.GetTokens(jar.GetSession().value).None? ==>
              resp == Failed(401, NO_CREDENTIALS) && sheet.contents == old(sheet.contents)
    ensures jar.GetSession().Some? && tokens.GetTokens(jar.GetSession().value).Some? && !old(Ready(sheet, w)) ==>
              resp == Failed(500, TRACK_FAILED) && sheet.contents == old(sheet.contents)
    ensures jar.GetSession().Some? && tokens.GetTokens(jar.GetSession().value).Some? && old(Ready(sheet, w)) ==>
              var emails := FetchTodaysEmails(w.today, w.list, w.get).value;
              var s := Outcome(old(sheet.contents), w, emails);
              && sheet.contents == s.sheet && trace == s.trace
              && (s.aborted ==> resp == Failed(500, TRACK_FAILED))
              && (!s.aborted ==> resp == Tracked(TrackSummary(|s.newJobs|, |s.updatedJobs|, |emails|, s.skipped, |emails| - s.skipped)))
  {
    trace := [];
    var userId := jar.GetSession();
    if userId.None? {
      return Failed(401, NOT_AUTHENTICATED), trace;
    }
    var stored := tokens.GetTokens(userId.value);
    if stored.None? {
      return Failed(401, NO_CREDENTIALS), trace;
    }
    var config := CreateOAuth2Client(w.oauth);
    if config.Err? {
      return Failed(500, TRACK_FAILED), trace;
    }
    var client := new OAuthClient(config.value);
    client.SetCredentials(stored.value);
    var emails := FetchTodaysEmails(w.today, w.list, w.get);
    if emails.Err? {
      return Failed(500, TRACK_FAILED), trace;
    }
    var existingApps := sheet.GetAllApplications(w.sheetReadOk, w.nowIso);
    if existingApps.Err? {
      return Failed(500, TRACK_FAILED), trace;
    }
    var summary;
    summary, trace := TrackLoop(sheet, Run(existingApps.value, w.parse, w.fmt, w.nowIso), emails.value, AnswersFor(w.answerAt, |emails.value|));
    if summary.None? {
      return Failed(500, TRACK_FAILED), trace;
    }
    resp := Tracked(summary.value);
  }
}
