/**
 * `classifyJobEmail` (lib/jobClassifier.ts): the message is summarised, the
 * Gemini model answers with text, code fences are stripped, the text is parsed
 * as JSON and the verdict is turned into a `JobApplication` or null. The model's
 * answer and `JSON.parse` are outside the model: the answer is an argument and
 * the parser a function argument that yields a verdict or fails.
 */
module JobClassifier {
  import opened Base
  import opened Messages
  import opened Sheets

  const UNKNOWN := "Unknown"
  const JSON_FENCE := "```json"
  const BARE_FENCE := "```"

  /** The parsed JSON object, with `isJobRelated` already read for its truthiness. */
  datatype Verdict = Verdict(isJobRelated: bool, jobTitle: Option<string>, companyName: Option<string>,
                             status: string, notes: Option<string>)

  /** What `model.generateContent(prompt)` did: it threw, or it answered with text. */
  datatype GeminiReply = GenerateFailed | Responded(text: string)

  const GENERATE_FAILED := "Gemini request failed"
  const PARSE_FAILED := "Gemini response is not valid JSON"

  /**
   * `text.replace(new RegExp(fence + '\n?', 'g'), '')`: every occurrence of the
   * fence, with at most one following newline, is removed, scanning left to
   * right without overlaps.
   */
  function RemoveFences(text: string, fence: string): (r: string)
    requires fence != []
    ensures |r| <= |text|
    decreases |text|
  {
    if |fence| <= |text| && text[..|fence|] == fence then
      var rest := text[|fence|..];
      RemoveFences(if rest != [] && rest[0] == '\n' then rest[1..] else rest, fence)
    else if text == [] then []
    else [text[0]] + RemoveFences(text[1..], fence)
  }

  /** The cleaning on lib/jobClassifier.ts line 59: both fence kinds removed, then `trim()`. */
  function CleanResponse(text: string): string
  {
    Trim(RemoveFences(RemoveFences(text, JSON_FENCE), BARE_FENCE))
  }

  /** The result of `classifyJobEmail`: a thrown error, null, or the application it builds. */
  function ClassifyJobEmail(email: GmailMessage, reply: GeminiReply, parse: string -> Option<Verdict>,
                            nowIso: string): (r: Result<Option<JobApplication>>)
    ensures r.Ok? && r.value.Some? ==> r.value.value.emailId == email.id && r.value.value.sheetRowId.None?
  {
    match reply
    case GenerateFailed => Err(GENERATE_FAILED)
    case Responded(text) => FromVerdict(email, parse(CleanResponse(text)), nowIso)
  }

  /** The part of `classifyJobEmail` after `JSON.parse`: a parse failure throws, a verdict becomes null or a job. */
  function FromVerdict(email: GmailMessage, parsed: Option<Verdict>, nowIso: string): (r: Result<Option<JobApplication>>)
    ensures r.Ok? && r.value.Some? ==> r.value.value.emailId == email.id && r.value.value.sheetRowId.None?
  {
    match parsed
    case None => Err(PARSE_FAILED)
    case Some(v) =>
      if !v.isJobRelated then Ok(None)
      else Ok(Some(JobApplication(
        OrElse(v.jobTitle, UNKNOWN),
        OrElse(v.companyName, UNKNOWN),
        Some(Summarize(email, nowIso).date),
        v.status,
        nowIso,
        email.id,
        NonEmpty(v.notes),
        None)))
  }

  /**
   * What `classifyJobEmail` promises: a failed model call or unparsable text is
   * an error, a verdict that is not job-related is null, and a job takes the
   * verdict's fields with "Unknown" for a missing title or company, the
   * message's Date header (or now) as the application date, now as the last
   * update, the message id, and no row id.
   */
  lemma ClassifyOutcome(email: GmailMessage, reply: GeminiReply, parse: string -> Option<Verdict>, nowIso: string)
    ensures var r := ClassifyJobEmail(email, reply, parse, nowIso);
            && (reply.GenerateFailed? ==> r == Err(GENERATE_FAILED))
            && (reply.Responded? ==>
                  (parse(CleanResponse(reply.text)).None? <==> r.Err?)
                  && (r.Ok? ==> (r.value.Some? <==> parse(CleanResponse(reply.text)).value.isJobRelated)))
            && (r.Ok? && r.value.Some? ==>
                  var job := r.value.value;
                  var v := parse(CleanResponse(reply.text)).value;
                  && job.emailId == email.id
                  && job.dateApplied == Some(Summarize(email, nowIso).date)
                  && job.lastUpdated == nowIso
                  && job.status == v.status
                  && job.jobTitle == (if Truthy(v.jobTitle) then v.jobTitle.value else UNKNOWN)
                  && job.companyName == (if Truthy(v.companyName) then v.companyName.value else UNKNOWN)
                  && job.notes == NonEmpty(v.notes)
                  && job.sheetRowId.None?)
  {
  }

  /** A job built by the classifier always has a non-empty title and company. */
  lemma JobHasIdentity(email: GmailMessage, reply: GeminiReply, parse: string -> Option<Verdict>, nowIso: string)
    requires ClassifyJobEmail(email, reply, parse, nowIso).Ok?
    requires ClassifyJobEmail(email, reply, parse, nowIso).value.Some?
    ensures ClassifyJobEmail(email, reply, parse, nowIso).value.value.jobTitle != ""
    ensures ClassifyJobEmail(email, reply, parse, nowIso).value.value.companyName != ""
  {
    if reply.Responded? {
      var parsed := parse(CleanResponse(reply.text));
      assert ClassifyJobEmail(email, reply, parse, nowIso) == FromVerdict(email, parsed, nowIso);
      var job := FromVerdict(email, parsed, nowIso).value.value;
      assert job.jobTitle == OrElse(parsed.value.jobTitle, UNKNOWN);
      assert job.companyName == OrElse(parsed.value.companyName, UNKNOWN);
    }
  }

  /** Text without a backtick contains no fence: removal leaves it as it is. */
  lemma {:induction false} NoFenceNoChange(text: string, fence: string)
    requires fence != [] && fence[0] == '`'
    requires forall i :: 0 <= i < |text| ==> text[i] != '`'
    ensures RemoveFences(text, fence) == text
    decreases |text|
  {
    if text != [] {
      if |fence| <= |text| {
        assert text[..|fence|][0] == text[0] != fence[0];
      }
      NoFenceNoChange(text[1..], fence);
    }
  }

  /** A prefix without backticks passes through fence removal unchanged. */
  lemma {:induction false} PlainPrefix(p: string, rest: string, fence: string)
    requires fence != [] && fence[0] == '`'
    requires forall i :: 0 <= i < |p| ==> p[i] != '`'
    ensures RemoveFences(p + rest, fence) == p + RemoveFences(rest, fence)
    decreases |p|
  {
    if p != [] {
      var t := p + rest;
      if |fence| <= |t| {
        assert t[..|fence|][0] == p[0] != fence[0];
      }
      assert t[1..] == p[1..] + rest;
      assert RemoveFences(t, fence) == [p[0]] + RemoveFences(t[1..], fence);
      PlainPrefix(p[1..], rest, fence);
      assert [p[0]] + (p[1..] + RemoveFences(rest, fence)) == p + RemoveFences(rest, fence);
    } else {
      assert p + rest == rest;
    }
  }

  /** Text that contains no backtick is only trimmed. */
  lemma NoBackticksOnlyTrimmed(text: string)
    requires forall i :: 0 <= i < |text| ==> text[i] != '`'
    ensures CleanResponse(text) == Trim(text)
  {
    NoFenceNoChange(text, JSON_FENCE);
    NoFenceNoChange(text, BARE_FENCE);
  }

  /** The usual shape of a fenced answer, "```json\n" + payload + "```", cleans to the trimmed payload. */
  lemma FencedPayload(payload: string)
    requires forall i :: 0 <= i < |payload| ==> payload[i] != '`'
    ensures CleanResponse(JSON_FENCE + "\n" + payload + BARE_FENCE) == Trim(payload)
  {
    var text := JSON_FENCE + "\n" + payload + BARE_FENCE;
    assert text[..|JSON_FENCE|] == JSON_FENCE;
    assert text[|JSON_FENCE|..][1..] == payload + BARE_FENCE;
    PlainPrefix(payload, BARE_FENCE, JSON_FENCE);
    assert RemoveFences(BARE_FENCE, JSON_FENCE) == BARE_FENCE;
    assert RemoveFences(text, JSON_FENCE) == payload + BARE_FENCE;
    PlainPrefix(payload, BARE_FENCE, BARE_FENCE);
    assert BARE_FENCE[..|BARE_FENCE|] == BARE_FENCE;
    assert RemoveFences(BARE_FENCE, BARE_FENCE) == [];
    assert payload + [] == payload;
  }
}
