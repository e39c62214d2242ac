/**
 * The scheduled trigger (app/api/cron/process-emails/route.ts, `POST`):
 * the authorisation gate, the user's schedule and tokens, the choice of the
 * fetch window, and then the scheduled reconciliation loop of module
 * Reconcile over the fetched mail, after which `lastProcessed` is set.
 *
 * Everything outside the handler is an argument, gathered in `World`: the
 * outcome of the QStash signature check, the environment, the clock, what
 * Google answers for the token refresh and the mail fetch, whether the
 * roster can be read, and the classifier's answer for each fetched email.
 */
module CronRoute {
  import opened Base
  import opened Messages
  import opened Sheets
  import opened JobClassifier
  import opened Reconcile
  import opened Settings
  import opened Gmail
  import opened Tokens

  const INVALID_SIGNATURE := "Invalid signature"
  const UNAUTHORIZED := "Unauthorized"
  const MISSING_USER_ID := "Missing userId"
  const NO_TOKENS := "No tokens found"
  const TOKEN_REFRESH_FAILED := "Token refresh failed"
  const PROCESSING_FAILED := "Processing failed"

  /** The default fetch window, 24 hours in milliseconds. */
  const DAY_MS := 24 * 60 * 60 * 1000
  /** How many messages one trigger fetches at most. */
  const MAX_EMAILS: nat := 50

  /**
   * A trigger: the `upstash-signature` and `x-cron-secret` headers, and the
   * `userId` of the JSON body: None when the body is not JSON, Some(None)
   * when it has no `userId`.
   */
  datatype Request = Request(signature: Option<string>, cronSecret: Option<string>, userId: Option<Option<string>>)

  /** The handler's JSON responses. */
  datatype Response =
    | Failed(status: nat, error: string)
    | ScheduleInactive
    | NoNewEmails
    | Complete(summary: CronSummary)

  /** Where the fetch window starts: the stored `lastProcessed` timestamp, or a time in milliseconds. */
  datatype Since = SinceIso(iso: string) | SinceMs(ms: int)

  datatype World = World(
    signatureValid: bool,
    cronSecret: Option<string>,
    oauth: OAuthEnv,
    nowMs: int,
    nowIso: string,
    refreshed: Option<Credentials>,
    tokenWriteOk: bool,
    fetch: (Since, nat) -> Result<seq<GmailMessage>>,
    sheetReadOk: bool,
    parse: string -> Option<Verdict>,
    fmt: string -> string,
    answerAt: nat -> Answers)

  // ---------------------------------------------------------------------------
  // The gate
  // ---------------------------------------------------------------------------

  /**
   * A signed request is admitted when its signature verifies; an unsigned one
   * when its `x-cron-secret` header is present and equals CRON_SECRET.
   */
  predicate Authorized(req: Request, signatureValid: bool, envSecret: Option<string>)
  {
    if Truthy(req.signature) then signatureValid
    else req.cronSecret.Some? && req.cronSecret == envSecret
  }

  datatype Gate = Pass(userId: string) | Stop(resp: Response)

  /** The checks before any store is read: authorisation, then a body naming a user. */
  function GateOf(req: Request, signatureValid: bool, envSecret: Option<string>): (g: Gate)
    ensures g.Pass? <==> Authorized(req, signatureValid, envSecret) && req.userId.Some? && Truthy(req.userId.value)
    ensures Truthy(req.signature) && !signatureValid ==> g == Stop(Failed(401, INVALID_SIGNATURE))
    ensures !Truthy(req.signature) && !Authorized(req, signatureValid, envSecret) ==> g == Stop(Failed(401, UNAUTHORIZED))
    ensures Authorized(req, signatureValid, envSecret) && req.userId.None? ==> g == Stop(Failed(500, PROCESSING_FAILED))
    ensures Authorized(req, signatureValid, envSecret) && req.userId.Some? && !Truthy(req.userId.value) ==>
              g == Stop(Failed(400, MISSING_USER_ID))
    ensures g.Pass? ==> g.userId == req.userId.value.value && g.userId != ""
  {
    if Truthy(req.signature) && !signatureValid then Stop(Failed(401, INVALID_SIGNATURE))
    else if !Truthy(req.signature) && !(req.cronSecret.Some? && req.cronSecret == envSecret) then Stop(Failed(401, UNAUTHORIZED))
    else if req.userId.None? then Stop(Failed(500, PROCESSING_FAILED))
    else if !Truthy(req.userId.value) then Stop(Failed(400, MISSING_USER_ID))
    else Pass(req.userId.value.value)
  }

  /**
   * A signed request is judged by its signature alone, whatever secret header
   * it carries; without CRON_SECRET configured, no unsigned request gets in.
   */
  lemma GateProperties(req: Request, signatureValid: bool, envSecret: Option<string>, otherHeader: Option<string>)
    ensures Truthy(req.signature) ==>
              GateOf(req.(cronSecret := otherHeader), signatureValid, envSecret) == GateOf(req, signatureValid, envSecret)
    ensures !Truthy(req.signature) && envSecret.None? ==> GateOf(req, signatureValid, envSecret) == Stop(Failed(401, UNAUTHORIZED))
  {
  }

  // ---------------------------------------------------------------------------
  // Tokens
  // ---------------------------------------------------------------------------

  /** The credentials after `refreshAccessTokenIfNeeded`, or None when the refresh throws. */
  function AfterRefresh(stored: Credentials, nowMs: int, refreshed: Option<Credentials>): (r: Option<Credentials>)
    ensures !NeedsRefresh(stored, nowMs) ==> r == Some(stored)
    ensures NeedsRefresh(stored, nowMs) ==> r == refreshed
  {
    if NeedsRefresh(stored, nowMs) then refreshed else Some(stored)
  }

  /**
   * How the token step ends, given the user's stored credentials: None when
   * it lets the request through, else the response it fails with.
   */
  function TokenFailure(stored: Option<Credentials>, w: World): (f: Option<Response>)
    ensures f.None? <==>
              && stored.Some? && CreateOAuth2Client(w.oauth).Ok?
              && AfterRefresh(stored.value, w.nowMs, w.refreshed).Some?
              && (AfterRefresh(stored.value, w.nowMs, w.refreshed).value.accessToken != stored.value.accessToken ==> w.tokenWriteOk)
    ensures stored.None? ==> f == Some(Failed(401, NO_TOKENS))
    ensures stored.Some? && CreateOAuth2Client(w.oauth).Err? ==> f == Some(Failed(500, PROCESSING_FAILED))
    ensures stored.Some? && CreateOAuth2Client(w.oauth).Ok? && f.Some? ==> f == Some(Failed(401, TOKEN_REFRESH_FAILED))
  {
    if stored.None? then Some(Failed(401, NO_TOKENS))
    else if CreateOAuth2Client(w.oauth).Err? then Some(Failed(500, PROCESSING_FAILED))
    else
      var after := AfterRefresh(stored.value, w.nowMs, w.refreshed);
      if after.None? || (after.value.accessToken != stored.value.accessToken && !w.tokenWriteOk) then Some(Failed(401, TOKEN_REFRESH_FAILED))
      else None
  }

  /**
   * The token store after a token step that let the request through: the
   * user's entry carries the refreshed access token, it is written only when
   * that token changed, and no other entry changes.
   */
  function TokensAfter(store: map<string, Credentials>, userId: string, stored: Credentials, w: World): (m: map<string, Credentials>)
    requires TokenKey(userId) in store && store[TokenKey(userId)] == stored
    requires AfterRefresh(stored, w.nowMs, w.refreshed).Some?
    ensures m.Keys == store.Keys
    ensures forall k :: k in store && k != TokenKey(userId) ==> m[k] == store[k]
    ensures m[TokenKey(userId)].accessToken == AfterRefresh(stored, w.nowMs, w.refreshed).value.accessToken
    ensures AfterRefresh(stored, w.nowMs, w.refreshed).value.accessToken == stored.accessToken ==> m == store
  {
    var after := AfterRefresh(stored, w.nowMs, w.refreshed).value;
    if after.accessToken != stored.accessToken then store[TokenKey(userId) := after] else store
  }

  /**
   * The token step: load the stored tokens, build the OAuth client, refresh
   * if needed, and save the credentials when the access token changed. A
   * failed save is reported like a failed refresh.
   */
  method RefreshTokens(tokens: TokenStore, userId: string, w: World) returns (failure: Option<Response>)
    modifies tokens
    ensures var stored := old(tokens.GetTokens(userId));
            && (stored.None? ==> failure == Some(Failed(401, NO_TOKENS)))
            && (stored.Some? && CreateOAuth2Client(w.oauth).Err? ==> failure == Some(Failed(500, PROCESSING_FAILED)))
            && (stored.Some? && CreateOAuth2Client(w.oauth).Ok? ==>
                  var after := AfterRefresh(stored.value, w.nowMs, w.refreshed);
                  && (after.None? ==> failure == Some(Failed(401, TOKEN_REFRESH_FAILED)))
                  && (after.Some? && after.value.accessToken != stored.value.accessToken ==>
                        failure == (if w.tokenWriteOk then None else Some(Failed(401, TOKEN_REFRESH_FAILED))))
                  && (after.Some? && after.value.accessToken == stored.value.accessToken ==> failure.None?))
    ensures failure == TokenFailure(old(tokens.GetTokens(userId)), w)
    ensures failure.Some? ==> tokens.stored == old(tokens.stored)
    ensures failure.None? ==> tokens.stored == TokensAfter(old(tokens.stored), userId, old(tokens.GetTokens(userId)).value, w)
    ensures failure.None? ==>
              var stored := old(tokens.GetTokens(userId)).value;
              var after := AfterRefresh(stored, w.nowMs, w.refreshed).value;
              tokens.stored == if after.accessToken != stored.accessToken then old(tokens.stored)[TokenKey(userId) := after]
                               else old(tokens.stored)
  {
    var stored := tokens.GetTokens(userId);
    if stored.None? {
      return Some(Failed(401, NO_TOKENS));
    }
    var config := CreateOAuth2Client(w.oauth);
    if config.Err? {
      return Some(Failed(500, PROCESSING_FAILED));
    }
    var client := new OAuthClient(config.value);
    client.SetCredentials(stored.value);
    var refresh := client.RefreshAccessTokenIfNeeded(w.nowMs, w.refreshed);
    if refresh.Err? {
      return Some(Failed(401, TOKEN_REFRESH_FAILED));
    }
    var newCredentials := client.credentials;
    if newCredentials.accessToken != stored.value.accessToken {
      var saved := tokens.UpdateTokens(userId, newCredentials, w.tokenWriteOk);
      if saved.Err? {
        return Some(Failed(401, TOKEN_REFRESH_FAILED));
      }
    }
    failure := None;
  }

  // ---------------------------------------------------------------------------
  // The fetch window and the loop
  // ---------------------------------------------------------------------------

  /** Mail is fetched from `lastProcessed` when it is set, and from 24 hours ago otherwise. */
  function SinceOf(s: UserSettings, nowMs: int): (since: Since)
    ensures since.SinceIso? <==> Truthy(s.lastProcessed)
    ensures since.SinceIso? ==> since.iso == s.lastProcessed.value
    ensures since.SinceMs? ==> since.ms == nowMs - DAY_MS
  {
    if Truthy(s.lastProcessed) then SinceIso(s.lastProcessed.value) else SinceMs(nowMs - DAY_MS)
  }

  /** Once a trigger has set `lastProcessed`, the next trigger fetches from that moment on. */
  lemma NextWindow(s: UserSettings, nowIso: string, laterMs: int)
    requires nowIso != ""
    ensures SinceOf(s.(lastProcessed := Some(nowIso)), laterMs) == SinceIso(nowIso)
  {
  }

  /** The run the loop sees: the roster as read, frozen, and this trigger's classifier and clock. */
  function RunOf(sheet: Sheet, w: World): Run
  {
    Run(DecodeRows(sheet.rows, w.nowIso), w.parse, w.fmt, w.nowIso)
  }

  /** The run's outcome on the roster: the scheduled loop over the fetched emails. */
  function Outcome(sheet: Sheet, w: World, emails: seq<GmailMessage>): CronState
  {
    CronRun(RunOf(sheet, w), sheet, emails, AnswersFor(w.answerAt, |emails|))
  }

  /** What follows the token step: fetch, read the roster, run the loop, set `lastProcessed`. */
  method FetchAndProcess(settings: SettingsStore, sheet: SheetStore, userId: string, since: Since, w: World)
    returns (resp: Response, ghost trace: seq<Event>)
    modifies settings, sheet`contents
    ensures w.fetch(since, MAX_EMAILS).Err? ==>
              resp == Failed(500, PROCESSING_FAILED) && settings.stored == old(settings.stored)
              && sheet.contents == old(sheet.contents)
    ensures w.fetch(since, MAX_EMAILS) == Ok([]) ==>
              resp == NoNewEmails && sheet.contents == old(sheet.contents)
              && settings.stored == old(settings.stored)[SettingsKey(userId) := old(settings.Get(userId)).(lastProcessed := Some(w.nowIso))]
    ensures w.fetch(since, MAX_EMAILS).Ok? && w.fetch(since, MAX_EMAILS).value != [] && !(Truthy(sheet.sheetId) && w.sheetReadOk) ==>
              resp == Failed(500, PROCESSING_FAILED) && settings.stored == old(settings.stored)
              && sheet.contents == old(sheet.contents)
    ensures w.fetch(since, MAX_EMAILS).Ok? && w.fetch(since, MAX_EMAILS).value != [] && Truthy(sheet.sheetId) && w.sheetReadOk ==>
              var emails := w.fetch(since, MAX_EMAILS).value;
              var s := Outcome(old(sheet.contents), w, emails);
              && resp == Complete(CronSummary(s.newJobs, s.updatedJobs, |emails|, s.skipped, s.geminiCalls))
              && sheet.contents == s.sheet && trace == s.trace
              && settings.stored == old(settings.stored)[SettingsKey(userId) := old(settings.Get(userId)).(lastProcessed := Some(w.nowIso))]
  {
    trace := [];
    var fetched := w.fetch(since, MAX_EMAILS);
    if fetched.Err? {
      return Failed(500, PROCESSING_FAILED), trace;
    }
    var emails := fetched.value;
    if |emails| == 0 {
      settings.SetLastProcessed(userId, w.nowIso);
      return NoNewEmails, trace;
    }
    var existingApps := sheet.GetAllApplications(w.sheetReadOk, w.nowIso);
    if existingApps.Err? {
      return Failed(500, PROCESSING_FAILED), trace;
    }
    var summary;
    summary, trace := CronLoop(sheet, Run(existingApps.value, w.parse, w.fmt, w.nowIso), emails, AnswersFor(w.answerAt, |emails|));
    settings.SetLastProcessed(userId, w.nowIso);
    resp := Complete(summary);
  }

  // ---------------------------------------------------------------------------
  // The handler
  // ---------------------------------------------------------------------------

  /**
   * `POST`. A refused or inactive trigger touches nothing; every failure
   * leaves the roster and the settings as they were (a refreshed token may
   * already be saved); a trigger that fetched mail and processed it sets the
   * user's `lastProcessed`, and its summary and roster are the scheduled
   * run's over the mail of the window `SinceOf` chooses.
   */
  method ProcessEmails(req: Request, w: World, settings: SettingsStore, tokens: TokenStore, sheet: SheetStore)
    returns (resp: Response, ghost trace: seq<Event>)
    modifies settings, tokens, sheet`contents
    ensures var g := GateOf(req, w.signatureValid, w.cronSecret);
            g.Stop? ==> resp == g.resp && settings.stored == old(settings.stored) && tokens.stored == old(tokens.stored)
                        && sheet.contents == old(sheet.contents)
    ensures var g := GateOf(req, w.signatureValid, w.cronSecret);
            g.Pass? && !old(settings.Get(g.userId)).isActive ==>
              resp == ScheduleInactive && settings.stored == old(settings.stored) && tokens.stored == old(tokens.stored)
              && sheet.contents == old(sheet.contents)
    ensures var g := GateOf(req, w.signatureValid, w.cronSecret);
            g.Pass? && old(settings.Get(g.userId)).isActive && old(tokens.GetTokens(g.userId)).None? ==>
              resp == Failed(401, NO_TOKENS) && tokens.stored == old(tokens.stored)
    ensures var g := GateOf(req, w.signatureValid, w.cronSecret);
            g.Pass? && old(settings.Get(g.userId)).isActive ==>
              var stored := old(tokens.GetTokens(g.userId));
              var f := TokenFailure(stored, w);
              && (f.Some? ==> resp == f.value && tokens.stored == old(tokens.stored))
              && (f.None? ==> tokens.stored == TokensAfter(old(tokens.stored), g.userId, stored.value, w))
    ensures var g := GateOf(req, w.signatureValid, w.cronSecret);
            g.Pass? && old(settings.Get(g.userId)).isActive && TokenFailure(old(tokens.GetTokens(g.userId)), w).None? ==>
              var fetched := w.fetch(SinceOf(old(settings.Get(g.userId)), w.nowMs), MAX_EMAILS);
              && (fetched.Err? ==> resp == Failed(500, PROCESSING_FAILED))
              && (fetched == Ok([]) ==> resp == NoNewEmails)
              && (fetched.Ok? && fetched.value != [] && !(Truthy(old(sheet.sheetId)) && w.sheetReadOk) ==>
                    resp == Failed(500, PROCESSING_FAILED))
              && (fetched.Ok? && fetched.value != [] && Truthy(old(sheet.sheetId)) && w.sheetReadOk ==> resp.Complete?)
    ensures resp.Failed? ==> settings.stored == old(settings.stored) && sheet.contents == old(sheet.contents)
    ensures resp.NoNewEmails? || resp.Complete? ==>
              var g := GateOf(req, w.signatureValid, w.cronSecret);
              && g.Pass? && old(settings.Get(g.userId)).isActive && TokenFailure(old(tokens.GetTokens(g.userId)), w).None?
              && settings.stored == old(settings.stored)[SettingsKey(g.userId) := old(settings.Get(g.userId)).(lastProcessed := Some(w.nowIso))]
              && var fetched := w.fetch(SinceOf(old(settings.Get(g.userId)), w.nowMs), MAX_EMAILS);
                 && fetched.Ok?
                 && (resp.NoNewEmails? <==> fetched.value == [])
                 && (resp.NoNewEmails? ==> sheet.contents == old(sheet.contents))
                 && (resp.Complete? ==>
                       var s := Outcome(old(sheet.contents), w, fetched.value);
                       resp.summary == CronSummary(s.newJobs, s.updatedJobs, |fetched.value|, s.skipped, s.geminiCalls)
                       && sheet.contents == s.sheet && trace == s.trace)
  {
    trace := [];
    var g := GateOf(req, w.signatureValid, w.cronSecret);
    if g.Stop? {
      return g.resp, trace;
    }
    var userId := g.userId;
    var current := settings.Get(userId);
    if !current.isActive {
      return ScheduleInactive, trace;
    }
    var failure := RefreshTokens(tokens, userId, w);
    if failure.Some? {
      return failure.value, trace;
    }
    resp, trace := FetchAndProcess(settings, sheet, userId, SinceOf(current, w.nowMs), w);
  }
}
