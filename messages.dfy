/**
 * A Gmail message as the source receives it from the Gmail API (`GmailMessage`
 * in lib/types.ts), and the header extraction that the job classifier and the
 * embedding preparation both perform before using a message.
 */
module Messages {
  import opened Base

  datatype Header = Header(name: string, value: string)

  /** `payload` is optional in the API's answer, and so is `snippet`. */
  datatype GmailMessage = GmailMessage(id: string, snippet: Option<string>, payload: Option<seq<Header>>)

  /** The fields a message is summarised into, after defaults are applied. */
  datatype Summary = Summary(subject: string, from: string, date: string, snippet: string)

  const NO_SUBJECT := "No Subject"
  const UNKNOWN_SENDER := "Unknown"

  /** `payload?.headers || []` */
  function Headers(m: GmailMessage): seq<Header>
  {
    if m.payload.Some? then m.payload.value else []
  }

  /** `headers.find(h => h.name === name)?.value`: the value of the FIRST header with exactly that name. */
  function FindHeader(hs: seq<Header>, name: string): (r: Option<string>)
    ensures r.None? <==> forall k :: 0 <= k < |hs| ==> hs[k].name != name
    ensures r.Some? ==> exists k :: 0 <= k < |hs| && hs[k].name == name && hs[k].value == r.value
                                    && forall j :: 0 <= j < k ==> hs[j].name != name
  {
    if hs == [] then None
    else if hs[0].name == name then Some(hs[0].value)
    else
      var r := FindHeader(hs[1..], name);
      if r.Some? then
        ghost var k :| 0 <= k < |hs[1..]| && hs[1..][k].name == name && hs[1..][k].value == r.value
                       && forall j :: 0 <= j < k ==> hs[1..][j].name != name;
        assert hs[k + 1].name == name;
        r
      else r
  }

  /**
   * Subject, From and Date, each `|| default`, and `snippet || ''`. The date
   * default is "now", given as an ISO string because clocks are outside the model.
   */
  function Summarize(m: GmailMessage, nowIso: string): (s: Summary)
    ensures s.subject != "" && s.from != ""
  {
    var hs := Headers(m);
    Summary(OrElse(FindHeader(hs, "Subject"), NO_SUBJECT),
            OrElse(FindHeader(hs, "From"), UNKNOWN_SENDER),
            OrElse(FindHeader(hs, "Date"), nowIso),
            OrElse(m.snippet, ""))
  }

  /**
   * The summary takes the first Subject, From and Date headers when they are
   * non-empty and the defaults otherwise, and the snippet or "".
   */
  lemma SummaryFields(m: GmailMessage, nowIso: string)
    ensures var s := Summarize(m, nowIso);
            && s.date == OrElse(FindHeader(Headers(m), "Date"), nowIso)
            && (Truthy(FindHeader(Headers(m), "Subject")) ==> s.subject == FindHeader(Headers(m), "Subject").value)
            && (!Truthy(FindHeader(Headers(m), "Subject")) ==> s.subject == NO_SUBJECT)
            && (Truthy(FindHeader(Headers(m), "From")) ==> s.from == FindHeader(Headers(m), "From").value)
            && (!Truthy(FindHeader(Headers(m), "From")) ==> s.from == UNKNOWN_SENDER)
            && s.snippet == if m.snippet.Some? then m.snippet.value else ""
  {
  }

  /** A later header never overrides an earlier one with the same name, even when the earlier one is empty. */
  lemma FirstHeaderWins(hs: seq<Header>, name: string, k: nat)
    requires k < |hs| && hs[k].name == name
    requires forall j :: 0 <= j < k ==> hs[j].name != name
    ensures FindHeader(hs, name) == Some(hs[k].value)
  {
  }
}
