/**
 * The Gmail and OAuth helpers (lib/gmail.ts): the environment check behind
 * `createOAuth2Client`, the credential tests, the refresh of a client's
 * credentials, the `after:YYYY/MM/DD` query for today's mail, and the
 * fetch of a message list followed by each message. Google's APIs are
 * outside the model: what each request answers, or the error it fails
 * with, is an argument.
 */
module Gmail {
  import opened Base
  import opened Messages

  // ---------------------------------------------------------------------------
  // OAuth client and credentials
  // ---------------------------------------------------------------------------

  datatype OAuthEnv = OAuthEnv(clientId: Option<string>, clientSecret: Option<string>, redirectUri: Option<string>)
  datatype OAuthConfig = OAuthConfig(clientId: string, clientSecret: string, redirectUri: string)

  const MISSING_OAUTH_ENV := "Missing required Google OAuth environment variables"

  /** `createOAuth2Client`: fails unless all three variables are set and non-empty. */
  function CreateOAuth2Client(env: OAuthEnv): (r: Result<OAuthConfig>)
    ensures r.Ok? <==> Truthy(env.clientId) && Truthy(env.clientSecret) && Truthy(env.redirectUri)
    ensures r.Err? ==> r.msg == MISSING_OAUTH_ENV
    ensures r.Ok? ==> r.value.clientId != "" && r.value.clientSecret != "" && r.value.redirectUri != ""
  {
    if !Truthy(env.clientId) || !Truthy(env.clientSecret) || !Truthy(env.redirectUri) then Err(MISSING_OAUTH_ENV)
    else Ok(OAuthConfig(env.clientId.value, env.clientSecret.value, env.redirectUri.value))
  }

  /** The OAuth token set; `expiryDate` is in milliseconds since the epoch. */
  datatype Credentials = Credentials(accessToken: Option<string>, refreshToken: Option<string>, expiryDate: Option<int>)

  /** JavaScript truthiness of `expiry_date`: present and not 0. */
  predicate HasExpiry(c: Credentials)
  {
    c.expiryDate.Some? && c.expiryDate.value != 0
  }

  /** `hasValidCredentials` at time `now`. */
  predicate HasValidCredentials(c: Credentials, now: int)
  {
    Truthy(c.accessToken) && !(HasExpiry(c) && c.expiryDate.value < now)
  }

  /** Five minutes, in milliseconds. */
  const REFRESH_MARGIN := 5 * 60 * 1000

  /** The test of `refreshAccessTokenIfNeeded`: an expiry that has passed or falls within the margin. */
  predicate NeedsRefresh(c: Credentials, now: int)
  {
    HasExpiry(c) && c.expiryDate.value < now + REFRESH_MARGIN
  }

  /**
   * Validity and refresh agree: credentials without an access token are
   * never valid, expired ones are always due for refresh, and ones not due
   * for refresh are valid exactly when they carry an access token; a token
   * valid at some time was valid at every earlier time.
   */
  lemma CredentialTests(c: Credentials, now: int, earlier: int)
    requires earlier <= now
    ensures !Truthy(c.accessToken) ==> !HasValidCredentials(c, now)
    ensures Truthy(c.accessToken) && !HasValidCredentials(c, now) ==> NeedsRefresh(c, now)
    ensures !NeedsRefresh(c, now) ==> (HasValidCredentials(c, now) <==> Truthy(c.accessToken))
    ensures HasValidCredentials(c, now) ==> HasValidCredentials(c, earlier)
  {
  }

  const REFRESH_FAILED := "Failed to refresh access token"

  /** An `OAuth2Client`: its configuration and the credentials it holds. */
  class OAuthClient {
    const config: OAuthConfig
    var credentials: Credentials

    constructor (config: OAuthConfig)
      ensures this.config == config && credentials == Credentials(None, None, None)
    {
      this.config := config;
      credentials := Credentials(None, None, None);
    }

    /** `setCredentials` */
    method SetCredentials(c: Credentials)
      modifies this
      ensures credentials == c
    {
      credentials := c;
    }

    /**
     * `refreshAccessTokenIfNeeded` at time `now`; `refreshed` is what
     * Google's token endpoint answers, or None when the refresh throws.
     */
    method RefreshAccessTokenIfNeeded(now: int, refreshed: Option<Credentials>) returns (r: Result<()>)
      modifies this
      ensures !NeedsRefresh(old(credentials), now) ==> r == Ok(()) && credentials == old(credentials)
      ensures NeedsRefresh(old(credentials), now) && refreshed.Some? ==> r == Ok(()) && credentials == refreshed.value
      ensures NeedsRefresh(old(credentials), now) && refreshed.None? ==>
                r == Err(REFRESH_FAILED) && credentials == old(credentials)
    {
      if !HasExpiry(credentials) {
        return Ok(());
      }
      var expiryThreshold := now + REFRESH_MARGIN;
      if credentials.expiryDate.value < expiryThreshold {
        if refreshed.None? {
          return Err(REFRESH_FAILED);
        }
        SetCredentials(refreshed.value);
      }
      r := Ok(());
    }
  }

  // ---------------------------------------------------------------------------
  // The query for today's mail
  // ---------------------------------------------------------------------------

  /** A local calendar date as `getFullYear`, `getMonth` (0 to 11) and `getDate` give it. */
  datatype CalendarDate = CalendarDate(year: nat, month0: nat, day: nat)

  predicate IsDigit(c: char)
  {
    '0' <= c <= '9'
  }

  function DigitChar(d: nat): (c: char)
    requires d < 10
    ensures IsDigit(c)
  {
    ('0' as int + d) as char
  }

  /** `String(n)` for a natural number: decimal, without leading zeros. */
  function Decimal(n: nat): (s: string)
    ensures s != [] && forall i :: 0 <= i < |s| ==> IsDigit(s[i])
  {
    if n < 10 then [DigitChar(n)] else Decimal(n / 10) + [DigitChar(n % 10)]
  }

  /** `padStart(2, '0')` */
  function PadStart2(s: string): (r: string)
    ensures |s| <= 2 ==> |r| == 2
    ensures |s| >= 2 ==> r == s
  {
    if |s| >= 2 then s else seq(2 - |s|, _ => '0') + s
  }

  /** `after:${year}/${month}/${day}`, the month counted from 1, month and day zero-padded. */
  function DateQuery(d: CalendarDate): string
  {
    "after:" + Decimal(d.year) + "/" + PadStart2(Decimal(d.month0 + 1)) + "/" + PadStart2(Decimal(d.day))
  }

  /** The number a string of decimal digits denotes. */
  function DecimalValue(s: string): nat
    requires forall i :: 0 <= i < |s| ==> IsDigit(s[i])
  {
    if s == [] then 0
    else
      assert IsDigit(s[|s| - 1]);
      DecimalValue(s[..|s| - 1]) * 10 + (s[|s| - 1] as int - '0' as int)
  }

  lemma {:induction false} DecimalRoundTrip(n: nat)
    ensures DecimalValue(Decimal(n)) == n
  {
    if n >= 10 {
      DecimalRoundTrip(n / 10);
      var s := Decimal(n);
      assert s[..|s| - 1] == Decimal(n / 10);
    }
  }

  /** Zero-padding a number below 100 keeps its value. */
  lemma PaddedValue(n: nat)
    requires n < 100
    ensures |PadStart2(Decimal(n))| == 2
    ensures forall i :: 0 <= i < 2 ==> IsDigit(PadStart2(Decimal(n))[i])
    ensures DecimalValue(PadStart2(Decimal(n))) == n
  {
    DecimalRoundTrip(n);
    if n < 10 {
      var p := PadStart2(Decimal(n));
      assert p == ['0', DigitChar(n)];
      assert p[..1] == ['0'];
      assert p[..1][..0] == [];
    } else {
      assert n / 10 < 10;
    }
  }

  /** The date parts of a query of the form `after:Y/MM/DD`, read back from the text. */
  function ParseDateQuery(q: string): Option<(nat, nat, nat)>
  {
    if |q| < 13 || q[..6] != "after:" || q[|q| - 6] != '/' || q[|q| - 3] != '/' then None
    else
      var y, m, d := q[6..|q| - 6], q[|q| - 5..|q| - 3], q[|q| - 2..];
      if (forall i :: 0 <= i < |y| ==> IsDigit(y[i])) && (forall i :: 0 <= i < 2 ==> IsDigit(m[i]) && IsDigit(d[i]))
      then Some((DecimalValue(y), DecimalValue(m), DecimalValue(d)))
      else None
  }

  /** The query for a date names that date's year, its month counted from 1, and its day. */
  lemma DateQueryRoundTrip(d: CalendarDate)
    requires d.month0 < 12 && 1 <= d.day <= 31
    ensures ParseDateQuery(DateQuery(d)) == Some((d.year, d.month0 + 1, d.day))
  {
    var y, m, dd := Decimal(d.year), PadStart2(Decimal(d.month0 + 1)), PadStart2(Decimal(d.day));
    PaddedValue(d.month0 + 1);
    PaddedValue(d.day);
    DecimalRoundTrip(d.year);
    var q := DateQuery(d);
    assert q == "after:" + y + "/" + m + "/" + dd;
    assert |q| == 6 + |y| + 6;
    assert q[..6] == "after:";
    assert q[6..|q| - 6] == y;
    assert q[|q| - 5..|q| - 3] == m;
    assert q[|q| - 2..] == dd;
  }

  // ---------------------------------------------------------------------------
  // Fetching messages
  // ---------------------------------------------------------------------------

  /** An error thrown by the Gmail client, with its HTTP status code when it has one. */
  datatype ApiError = ApiError(code: Option<int>)

  /** A request to Google: its answer, or the error it fails with. */
  datatype Call<T> = Answered(value: T) | Threw(error: ApiError)

  const AUTH_EXPIRED := "Authentication expired. Please re-authenticate."
  const FETCH_FAILED := "Failed to fetch emails from Gmail"

  /** The error `fetchRecentEmails` rethrows: re-authenticate on a 401, a generic failure otherwise. */
  function FetchError(e: ApiError): (msg: string)
    ensures msg == AUTH_EXPIRED <==> e.code == Some(401)
    ensures msg == AUTH_EXPIRED || msg == FETCH_FAILED
  {
    if e.code == Some(401) then AUTH_EXPIRED else FETCH_FAILED
  }

  /**
   * `Promise.all(ids.map(get))`, taken in list order: every message, in the
   * order of the ids, or the first failure.
   */
  function GetAll(ids: seq<string>, get: string -> Call<GmailMessage>): (r: Call<seq<GmailMessage>>)
    ensures r.Answered? <==> forall i :: 0 <= i < |ids| ==> get(ids[i]).Answered?
    ensures r.Answered? ==> |r.value| == |ids| && forall i :: 0 <= i < |ids| ==> r.value[i] == get(ids[i]).value
    ensures r.Threw? ==> exists i :: 0 <= i < |ids| && get(ids[i]) == Threw(r.error)
    decreases |ids|
  {
    if ids == [] then Answered([])
    else
      match get(ids[0])
      case Threw(e) => Threw(e)
      case Answered(m) =>
        match GetAll(ids[1..], get)
        case Threw(e) =>
          assert exists i :: 0 <= i < |ids[1..]| && get(ids[1..][i]) == Threw(e);
          var i :| 0 <= i < |ids[1..]| && get(ids[1..][i]) == Threw(e);
          assert get(ids[i + 1]) == Threw(e);
          Threw(e)
        case Answered(ms) => Answered([m] + ms)
  }

  /** The message list `list(maxResults, query)` answers: the ids, or nothing when `messages` is absent. */
  type Lister = (nat, string) -> Call<Option<seq<string>>>

  /** `fetchRecentEmails(client, maxResults, query)` */
  function FetchRecentEmails(maxResults: nat, query: string, list: Lister, get: string -> Call<GmailMessage>)
    : (r: Result<seq<GmailMessage>>)
    ensures list(maxResults, query).Threw? ==> r == Err(FetchError(list(maxResults, query).error))
    ensures list(maxResults, query) == Answered(None) || list(maxResults, query) == Answered(Some([])) ==> r == Ok([])
    ensures list(maxResults, query).Answered? && list(maxResults, query).value.Some? ==>
              var ids := list(maxResults, query).value.value;
              && (r.Ok? <==> forall i :: 0 <= i < |ids| ==> get(ids[i]).Answered?)
              && (r.Ok? ==> |r.value| == |ids| && forall i :: 0 <= i < |ids| ==> r.value[i] == get(ids[i]).value)
              && (r.Err? ==> exists i :: 0 <= i < |ids| && get(ids[i]).Threw? && r.msg == FetchError(get(ids[i]).error))
  {
    match list(maxResults, query)
    case Threw(e) => Err(FetchError(e))
    case Answered(messages) =>
      if messages.None? || messages.value == [] then Ok([])
      else
        match GetAll(messages.value, get)
        case Threw(e) => Err(FetchError(e))
        case Answered(ms) => Ok(ms)
  }

  /** `fetchTodaysEmails(client)`: at most 50 messages received after the start of today. */
  function FetchTodaysEmails(today: CalendarDate, list: Lister, get: string -> Call<GmailMessage>): Result<seq<GmailMessage>>
  {
    FetchRecentEmails(50, DateQuery(today), list, get)
  }
}
