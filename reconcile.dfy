/**
 * The job-tracking reconciliation loop, in its two variants:
 *  - the scheduled run (app/api/cron/process-emails/route.ts), which swallows
 *    classifier and sheet-write errors email by email, and
 *  - the manual run (app/api/jobs/track/route.ts), where the first error
 *    aborts the whole run.
 * Both read the roster once, build the set of stored email ids once, and then,
 * per email: skip a stored id, otherwise classify (waiting 200 ms before a call
 * when an earlier call of the run succeeded), and for a job either append a row,
 * overwrite the matching row when the status changed, or write nothing. The
 * snapshot read at the start is never extended during the loop.
 *
 * Each variant is specified by a function over the emails seen so far
 * (`CronRun`, `TrackRun`) and implemented by a loop method proved equal to it;
 * the properties of the runs are lemmas about those functions.
 */
module Reconcile {
  import opened Base
  import opened Messages
  import opened Sheets
  import opened JobClassifier

  /** Pause before a classifier call, in milliseconds. */
  const PACING_MS: nat := 200

  /** Steps of a run other than sheet writes, in the order they happen. */
  datatype Event = Wait(ms: nat) | Classify(emailId: string, ok: bool)

  /** The outside world's answers for one email: Gemini's reply and whether the Sheets API accepts a write. */
  datatype Answers = Answers(reply: GeminiReply, writeOk: bool)

  /**
   * What stays fixed during a run: the roster snapshot read before the loop,
   * the JSON parser, the date formatter and the time of the run.
   */
  datatype Run = Run(snapshot: seq<JobApplication>, parse: string -> Option<Verdict>, fmt: string -> string, nowIso: string)

  // ---------------------------------------------------------------------------
  // Matching and the create/update decision
  // ---------------------------------------------------------------------------

  /** Case-insensitive equality of title and company. */
  predicate SameJob(a: JobApplication, b: JobApplication)
  {
    Lower(a.jobTitle) == Lower(b.jobTitle) && Lower(a.companyName) == Lower(b.companyName)
  }

  /** `m` is the first roster entry that is the same job. */
  predicate FirstMatch(apps: seq<JobApplication>, job: JobApplication, m: nat)
  {
    m < |apps| && SameJob(apps[m], job) && forall k :: 0 <= k < m ==> !SameJob(apps[k], job)
  }

  /** `existingApps.find(...)`, as the index of the entry it returns. */
  function FindExisting(apps: seq<JobApplication>, job: JobApplication): (r: Option<nat>)
    ensures r.Some? ==> FirstMatch(apps, job, r.value)
    ensures r.None? <==> forall k :: 0 <= k < |apps| ==> !SameJob(apps[k], job)
  {
    if apps == [] then None
    else if SameJob(apps[0], job) then Some(0)
    else
      match FindExisting(apps[1..], job)
      case None => None
      case Some(k) =>
        assert forall j :: 0 < j <= k + 1 ==> apps[j] == apps[1..][j - 1];
        Some(k + 1)
  }

  /** Two indices that are both the first match of a job are the same index. */
  lemma FirstMatchUnique(apps: seq<JobApplication>, job: JobApplication, m: nat, n: nat)
    requires FirstMatch(apps, job, m) && FirstMatch(apps, job, n)
    ensures m == n
  {
  }

  /** `new Set(existingApps.map(app => app.emailId))` */
  function ProcessedIds(snapshot: seq<JobApplication>): (ids: set<string>)
    ensures forall id :: id in ids <==> exists k :: 0 <= k < |snapshot| && snapshot[k].emailId == id
  {
    set k | 0 <= k < |snapshot| :: snapshot[k].emailId
  }

  /**
   * The skip test compares full ids with stored ones, which the sheet keeps
   * cut to 16 characters: an email whose id is longer is never skipped by a
   * roster read from rows this model writes, even when its own row is there.
   */
  lemma LongIdsNeverSkipped(run: Run, email: GmailMessage, reply: GeminiReply)
    requires forall k :: 0 <= k < |run.snapshot| ==> |run.snapshot[k].emailId| <= EMAIL_ID_CELL_LEN
    requires |email.id| > EMAIL_ID_CELL_LEN
    ensures !ActionOf(run, email, reply).Skip?
  {
  }

  // ---------------------------------------------------------------------------
  // The trace of waits and classifier calls
  // ---------------------------------------------------------------------------

  /** Number of classifier calls in a trace. */
  function Calls(t: seq<Event>): nat
  {
    if t == [] then 0 else Calls(t[..|t| - 1]) + (if t[|t| - 1].Classify? then 1 else 0)
  }

  /** Number of classifier calls in a trace that returned without throwing. */
  function Successes(t: seq<Event>): nat
  {
    if t == [] then 0 else Successes(t[..|t| - 1]) + (if t[|t| - 1].Classify? && t[|t| - 1].ok then 1 else 0)
  }

  /** Every wait lasts 200 ms and is followed directly by a classifier call. */
  predicate WaitsPrecedeCalls(t: seq<Event>)
  {
    forall k :: 0 <= k < |t| && t[k].Wait? ==> t[k].ms == PACING_MS && k + 1 < |t| && t[k + 1].Classify?
  }

  /** Scheduled run: a call is preceded by a wait exactly when an earlier call of the run succeeded. */
  predicate PacedAfterSuccess(t: seq<Event>)
  {
    && WaitsPrecedeCalls(t)
    && forall k :: 0 <= k < |t| && t[k].Classify? ==> ((k > 0 && t[k - 1].Wait?) <==> Successes(t[..k]) > 0)
  }

  /** Manual run: every call but the first is preceded by a wait. */
  predicate PacedAfterFirst(t: seq<Event>)
  {
    && WaitsPrecedeCalls(t)
    && forall k :: 0 <= k < |t| && t[k].Classify? ==> ((k > 0 && t[k - 1].Wait?) <==> Calls(t[..k]) > 0)
  }

  /** The wait that precedes a classifier call, given how many earlier calls gate it. */
  function Pacing(gate: nat): (p: seq<Event>)
    ensures p == [] <==> gate == 0
  {
    if gate > 0 then [Wait(PACING_MS)] else []
  }

  /** The trace after one more classifier call, paced by `gate`. */
  function Traced(t: seq<Event>, gate: nat, id: string, ok: bool): seq<Event>
  {
    t + Pacing(gate) + [Classify(id, ok)]
  }

  lemma CountsOfAppend(t: seq<Event>, e: Event)
    ensures (t + [e])[..|t|] == t
    ensures Calls(t + [e]) == Calls(t) + (if e.Classify? then 1 else 0)
    ensures Successes(t + [e]) == Successes(t) + (if e.Classify? && e.ok then 1 else 0)
  {
    assert (t + [e])[..|t|] == t;
  }

  /** One more call adds one to `Calls`, and one to `Successes` when it succeeded; the wait adds nothing. */
  lemma TracedCounts(t: seq<Event>, gate: nat, id: string, ok: bool)
    ensures Calls(t + Pacing(gate)) == Calls(t) && Successes(t + Pacing(gate)) == Successes(t)
    ensures Calls(Traced(t, gate, id, ok)) == Calls(t) + 1
    ensures Successes(Traced(t, gate, id, ok)) == Successes(t) + (if ok then 1 else 0)
  {
    if gate > 0 {
      CountsOfAppend(t, Wait(PACING_MS));
    } else {
      assert t + Pacing(gate) == t;
    }
    CountsOfAppend(t + Pacing(gate), Classify(id, ok));
  }

  lemma WaitsStep(t: seq<Event>, gate: nat, id: string, ok: bool)
    requires WaitsPrecedeCalls(t)
    ensures WaitsPrecedeCalls(Traced(t, gate, id, ok))
  {
    var t' := Traced(t, gate, id, ok);
    forall k | 0 <= k < |t'| && t'[k].Wait?
      ensures t'[k].ms == PACING_MS && k + 1 < |t'| && t'[k + 1].Classify?
    {
      if k < |t| {
        assert t'[k] == t[k] && t'[k + 1] == t[k + 1];
      }
    }
  }

  /** In a trace whose waits precede calls, the last event is not a wait. */
  lemma LastIsNoWait(t: seq<Event>)
    requires WaitsPrecedeCalls(t) && t != []
    ensures !t[|t| - 1].Wait?
  {
  }

  /** A non-empty trace whose waits precede calls holds a call. */
  lemma CallsPositive(t: seq<Event>)
    requires WaitsPrecedeCalls(t) && t != []
    ensures Calls(t) > 0
  {
    LastIsNoWait(t);
  }

  /**
   * Positions in the extended trace: earlier events keep their prefixes and
   * predecessors, and the new call's prefix is the old trace plus the wait.
   */
  lemma TracedPrefixes(t: seq<Event>, gate: nat, id: string, ok: bool, k: nat)
    requires k < |Traced(t, gate, id, ok)|
    ensures var t' := Traced(t, gate, id, ok);
            && (k < |t| ==> t'[..k] == t[..k] && t'[k] == t[k] && (k > 0 ==> t'[k - 1] == t[k - 1]))
            && (k >= |t| && t'[k].Classify? ==> k == |t'| - 1 && t'[..k] == t + Pacing(gate))
  {
    var t' := Traced(t, gate, id, ok);
    if k < |t| {
      assert t'[..k] == t[..k];
    } else if t'[k].Classify? {
      assert t'[..|t'| - 1] == t + Pacing(gate);
    }
  }

  /** The scheduled run's pacing survives one more call gated by the number of successes so far. */
  lemma PacingStepSuccess(t: seq<Event>, gate: nat, id: string, ok: bool)
    requires PacedAfterSuccess(t) && gate == Successes(t)
    ensures PacedAfterSuccess(Traced(t, gate, id, ok))
  {
    var t' := Traced(t, gate, id, ok);
    WaitsStep(t, gate, id, ok);
    forall k | 0 <= k < |t'| && t'[k].Classify?
      ensures (k > 0 && t'[k - 1].Wait?) <==> Successes(t'[..k]) > 0
    {
      SuccessGateAt(t, gate, id, ok, k);
    }
  }

  lemma SuccessGateAt(t: seq<Event>, gate: nat, id: string, ok: bool, k: nat)
    requires PacedAfterSuccess(t) && gate == Successes(t)
    requires k < |Traced(t, gate, id, ok)| && Traced(t, gate, id, ok)[k].Classify?
    ensures var t' := Traced(t, gate, id, ok);
            (k > 0 && t'[k - 1].Wait?) <==> Successes(t'[..k]) > 0
  {
    var t' := Traced(t, gate, id, ok);
    TracedPrefixes(t, gate, id, ok, k);
    if k < |t| {
      assert t[k].Classify?;
    } else {
      TracedCounts(t, gate, id, ok);
      assert Successes(t'[..k]) == gate;
      if gate > 0 {
        assert t'[k - 1] == Wait(PACING_MS);
      } else if k > 0 {
        assert t'[k - 1] == t[|t| - 1];
        LastIsNoWait(t);
      }
    }
  }

  /** The manual run's pacing survives one more call gated by the number of calls so far. */
  lemma PacingStepFirst(t: seq<Event>, gate: nat, id: string, ok: bool)
    requires PacedAfterFirst(t) && gate == Calls(t)
    ensures PacedAfterFirst(Traced(t, gate, id, ok))
  {
    var t' := Traced(t, gate, id, ok);
    WaitsStep(t, gate, id, ok);
    forall k | 0 <= k < |t'| && t'[k].Classify?
      ensures (k > 0 && t'[k - 1].Wait?) <==> Calls(t'[..k]) > 0
    {
      CallGateAt(t, gate, id, ok, k);
    }
  }

  lemma CallGateAt(t: seq<Event>, gate: nat, id: string, ok: bool, k: nat)
    requires PacedAfterFirst(t) && gate == Calls(t)
    requires k < |Traced(t, gate, id, ok)| && Traced(t, gate, id, ok)[k].Classify?
    ensures var t' := Traced(t, gate, id, ok);
            (k > 0 && t'[k - 1].Wait?) <==> Calls(t'[..k]) > 0
  {
    var t' := Traced(t, gate, id, ok);
    TracedPrefixes(t, gate, id, ok, k);
    if k < |t| {
      assert t[k].Classify?;
    } else {
      TracedCounts(t, gate, id, ok);
      assert Calls(t'[..k]) == gate;
      if gate > 0 {
        assert t'[k - 1] == Wait(PACING_MS);
      } else if k > 0 {
        CallsPositive(t);
      }
    }
  }

  // ---------------------------------------------------------------------------
  // What one email leads to
  // ---------------------------------------------------------------------------

  /**
   * The outcome of one email before any write is attempted. It depends only on
   * the frozen snapshot and the classifier's answer, never on what the run has
   * written so far.
   */
  datatype Action = Skip | ClassifyFailed | NotJob | Unchanged | AppendRow(job: JobApplication) | OverwriteRow(job: JobApplication)

  /** What a job result leads to against the snapshot: append, overwrite the first match's row, or nothing. */
  function JobAction(snapshot: seq<JobApplication>, job: JobApplication): (act: Action)
    ensures act.AppendRow? || act.OverwriteRow? || act.Unchanged?
  {
    match FindExisting(snapshot, job)
    case None => AppendRow(job)
    case Some(m) =>
      if snapshot[m].status == job.status then Unchanged
      else OverwriteRow(job.(sheetRowId := snapshot[m].sheetRowId))
  }

  /** The action for an email that is not yet on the roster, given what classifying it returned. */
  function ClassifiedAction(snapshot: seq<JobApplication>, r: Result<Option<JobApplication>>): (act: Action)
    ensures !act.Skip?
    ensures act.ClassifyFailed? <==> r.Err?
    ensures act.NotJob? <==> r == Ok(None)
  {
    match r
    case Err(_) => ClassifyFailed
    case Ok(None) => NotJob
    case Ok(Some(job)) => JobAction(snapshot, job)
  }

  /** The action for one email of a run: a stored id is skipped, any other is classified. */
  function ActionOf(run: Run, email: GmailMessage, reply: GeminiReply): (act: Action)
    ensures act.Skip? <==> email.id in ProcessedIds(run.snapshot)
  {
    if email.id in ProcessedIds(run.snapshot) then Skip
    else ClassifiedAction(run.snapshot, ClassifyJobEmail(email, reply, run.parse, run.nowIso))
  }

  /**
   * A job with no roster entry of the same title at the same company is
   * appended; otherwise the first such entry decides: the same status writes
   * nothing, another status overwrites that entry's row with the new job.
   */
  lemma JobActionMeaning(snapshot: seq<JobApplication>, job: JobApplication)
    ensures var act := JobAction(snapshot, job);
            && (act == AppendRow(job) <==> forall k :: 0 <= k < |snapshot| ==> !SameJob(snapshot[k], job))
            && forall m: nat :: FirstMatch(snapshot, job, m) ==>
                 act == if snapshot[m].status == job.status then Unchanged
                        else OverwriteRow(job.(sheetRowId := snapshot[m].sheetRowId))
  {
    var f := FindExisting(snapshot, job);
    if f.Some? {
      forall m: nat | FirstMatch(snapshot, job, m)
        ensures m == f.value
      {
        FirstMatchUnique(snapshot, job, m, f.value);
      }
    }
  }

  /**
   * The meaning of an action: a stored id is skipped, a thrown classification
   * fails, a null verdict is not a job, and a job goes to `JobAction`.
   */
  lemma ActionMeaning(run: Run, email: GmailMessage, reply: GeminiReply)
    ensures var act := ActionOf(run, email, reply);
            var r := ClassifyJobEmail(email, reply, run.parse, run.nowIso);
            && (act.Skip? <==> email.id in ProcessedIds(run.snapshot))
            && (act.ClassifyFailed? <==> email.id !in ProcessedIds(run.snapshot) && r.Err?)
            && (act.NotJob? <==> email.id !in ProcessedIds(run.snapshot) && r == Ok(None))
            && (email.id !in ProcessedIds(run.snapshot) && r.Ok? && r.value.Some? ==> act == JobAction(run.snapshot, r.value.value))
  {
  }

  /** An overwrite targets a data row of a sheet with `n` data rows. */
  predicate ActionWithin(act: Action, n: nat)
  {
    act.OverwriteRow? ==>
      act.job.sheetRowId.Some? && FIRST_DATA_ROW <= act.job.sheetRowId.value < n + FIRST_DATA_ROW
  }

  /** The snapshot's row ids all point into the data rows of a sheet with `n` data rows. */
  predicate RowIdsWithin(snapshot: seq<JobApplication>, n: nat)
  {
    forall k :: 0 <= k < |snapshot| ==>
      snapshot[k].sheetRowId.Some? && FIRST_DATA_ROW <= snapshot[k].sheetRowId.value < n + FIRST_DATA_ROW
  }

  /** A snapshot read from a sheet meets `RowIdsWithin` for that sheet. */
  lemma DecodedRowIdsWithin(rows: seq<Row>, nowIso: string)
    ensures RowIdsWithin(DecodeRows(rows, nowIso), |rows|)
  {
  }

  /** Overwrites take their row id from the snapshot, so they stay inside the sheet the snapshot was read from. */
  lemma ActionOfWithin(run: Run, email: GmailMessage, reply: GeminiReply, n: nat)
    requires RowIdsWithin(run.snapshot, n)
    ensures ActionWithin(ActionOf(run, email, reply), n)
  {
    var act := ActionOf(run, email, reply);
    if act.OverwriteRow? {
      var r := ClassifyJobEmail(email, reply, run.parse, run.nowIso);
      assert r.Ok? && r.value.Some?;
      var f := FindExisting(run.snapshot, r.value.value);
      assert f.Some?;
      assert act.job.sheetRowId == run.snapshot[f.value].sheetRowId;
    }
  }

  // ---------------------------------------------------------------------------
  // A run as a fold over its emails
  // ---------------------------------------------------------------------------

  /** The outside world's answers for the first `n` emails, the i-th email getting `answerAt(i)`. */
  function AnswersFor(answerAt: nat -> Answers, n: nat): (answers: seq<Answers>)
    ensures |answers| == n
    ensures forall i :: 0 <= i < n ==> answers[i] == answerAt(i)
  {
    seq(n, i requires 0 <= i => answerAt(i))
  }

  /** One email's part in a run: its id, its action, and whether the Sheets API accepts its write. */
  datatype Input = Input(id: string, act: Action, writeOk: bool)

  /** The inputs of a run over the fetched emails and the outside world's answers for them. */
  function Inputs(run: Run, emails: seq<GmailMessage>, answers: seq<Answers>): (ins: seq<Input>)
    requires |answers| == |emails|
    ensures |ins| == |emails|
    ensures forall i :: 0 <= i < |emails| ==>
              ins[i] == Input(emails[i].id, ActionOf(run, emails[i], answers[i].reply), answers[i].writeOk)
  {
    seq(|emails|, i requires 0 <= i < |emails| => Input(emails[i].id, ActionOf(run, emails[i], answers[i].reply), answers[i].writeOk))
  }

  /** The overwrites of a run's inputs all target data rows of a sheet with `n` data rows. */
  predicate InputsWithin(ins: seq<Input>, n: nat)
  {
    forall i :: 0 <= i < |ins| ==> ActionWithin(ins[i].act, n)
  }

  /** Inputs computed against a snapshot read from the sheet stay inside that sheet. */
  lemma InputsOfRunWithin(run: Run, emails: seq<GmailMessage>, answers: seq<Answers>, n: nat)
    requires |answers| == |emails|
    requires RowIdsWithin(run.snapshot, n)
    ensures InputsWithin(Inputs(run, emails, answers), n)
  {
    forall i | 0 <= i < |emails|
      ensures ActionWithin(Inputs(run, emails, answers)[i].act, n)
    {
      ActionOfWithin(run, emails[i], answers[i].reply, n);
    }
  }

  // ---------------------------------------------------------------------------
  // The scheduled run (cron/process-emails)
  // ---------------------------------------------------------------------------

  datatype CronState = CronState(sheet: Sheet, newJobs: nat, updatedJobs: nat, skipped: nat, geminiCalls: nat, trace: seq<Event>)

  /** The counters the scheduled run returns. */
  datatype CronSummary = CronSummary(newJobs: nat, updatedJobs: nat, processed: nat, skipped: nat, geminiCalls: nat)

  /**
   * One iteration of the scheduled loop. A thrown classification or write is
   * swallowed: the call that threw is traced but not counted, the write that
   * threw leaves the sheet and its counter as they were.
   */
  function CronStep(fmt: string -> string, s: CronState, id: string, act: Action, writeOk: bool): CronState
  {
    match act
    case Skip => s.(skipped := s.skipped + 1)
    case ClassifyFailed => s.(trace := Traced(s.trace, s.geminiCalls, id, false))
    case _ =>
      CronWrite(fmt, s.(geminiCalls := s.geminiCalls + 1, trace := Traced(s.trace, s.geminiCalls, id, true)),
                act, writeOk)
  }

  /** The write that follows a successful classification, and its counter. */
  function CronWrite(fmt: string -> string, s: CronState, act: Action, writeOk: bool): CronState
  {
    match act
    case AppendRow(job) =>
      if writeOk then s.(sheet := Appended(s.sheet, EncodeRow(job, fmt)), newJobs := s.newJobs + 1) else s
    case OverwriteRow(job) =>
      if writeOk && UpdatedSheet(s.sheet, job, fmt).Ok?
      then s.(sheet := UpdatedSheet(s.sheet, job, fmt).value, updatedJobs := s.updatedJobs + 1)
      else s
    case _ => s
  }

  /** The scheduled run's state after the given inputs, starting from the sheet as it was read. */
  function CronFold(fmt: string -> string, sheet0: Sheet, ins: seq<Input>): CronState
    decreases |ins|
  {
    if ins == [] then CronState(sheet0, 0, 0, 0, 0, [])
    else
      var n := |ins| - 1;
      CronStep(fmt, CronFold(fmt, sheet0, ins[..n]), ins[n].id, ins[n].act, ins[n].writeOk)
  }

  function CronRun(run: Run, sheet0: Sheet, emails: seq<GmailMessage>, answers: seq<Answers>): CronState
    requires |answers| == |emails|
  {
    CronFold(run.fmt, sheet0, Inputs(run, emails, answers))
  }

  /** `CronFold` over the first `i + 1` inputs is one more step after the first `i`. */
  lemma CronFoldUnfold(fmt: string -> string, sheet0: Sheet, ins: seq<Input>, i: nat)
    requires i < |ins|
    ensures CronFold(fmt, sheet0, ins[..i + 1]) == CronStep(fmt, CronFold(fmt, sheet0, ins[..i]), ins[i].id, ins[i].act, ins[i].writeOk)
  {
    assert ins[..i + 1][..i] == ins[..i];
  }

  lemma CronStepCounters(fmt: string -> string, s: CronState, id: string, act: Action, writeOk: bool)
    requires ActionWithin(act, |s.sheet.rows|)
    ensures var t := CronStep(fmt, s, id, act, writeOk);
            && t.skipped + t.geminiCalls <= s.skipped + s.geminiCalls + 1
            && t.newJobs + t.updatedJobs + s.geminiCalls <= s.newJobs + s.updatedJobs + t.geminiCalls
            && t.newJobs >= s.newJobs
            && t.sheet.header == s.sheet.header
            && |t.sheet.rows| + s.newJobs == |s.sheet.rows| + t.newJobs
  {
  }

  /**
   * Counter bounds of the scheduled run: every email is skipped or classified
   * at most once, every create or update follows a successful call, the rows
   * grow by exactly the new jobs and the header is never touched.
   */
  lemma {:induction false} CronCounters(fmt: string -> string, sheet0: Sheet, ins: seq<Input>)
    requires InputsWithin(ins, |sheet0.rows|)
    ensures var s := CronFold(fmt, sheet0, ins);
            && s.skipped + s.geminiCalls <= |ins|
            && s.newJobs + s.updatedJobs <= s.geminiCalls
            && s.sheet.header == sheet0.header
            && |s.sheet.rows| == |sheet0.rows| + s.newJobs
    decreases |ins|
  {
    if ins != [] {
      var n := |ins| - 1;
      CronCounters(fmt, sheet0, ins[..n]);
      CronStepCounters(fmt, CronFold(fmt, sheet0, ins[..n]), ins[n].id, ins[n].act, ins[n].writeOk);
    }
  }

  /** The counter bounds for a run over fetched emails whose snapshot was read from the sheet. */
  lemma CronRunCounters(run: Run, sheet0: Sheet, emails: seq<GmailMessage>, answers: seq<Answers>)
    requires |answers| == |emails|
    requires RowIdsWithin(run.snapshot, |sheet0.rows|)
    ensures var s := CronRun(run, sheet0, emails, answers);
            && s.skipped + s.geminiCalls <= |emails|
            && s.newJobs + s.updatedJobs <= s.geminiCalls
            && s.sheet.header == sheet0.header
            && |s.sheet.rows| == |sheet0.rows| + s.newJobs
  {
    InputsOfRunWithin(run, emails, answers, |sheet0.rows|);
    CronCounters(run.fmt, sheet0, Inputs(run, emails, answers));
  }

  lemma CronStepPacing(fmt: string -> string, s: CronState, id: string, act: Action, writeOk: bool)
    requires PacedAfterSuccess(s.trace) && s.geminiCalls == Successes(s.trace)
    ensures var t := CronStep(fmt, s, id, act, writeOk);
            PacedAfterSuccess(t.trace) && t.geminiCalls == Successes(t.trace)
  {
    if !act.Skip? {
      PacingStepSuccess(s.trace, s.geminiCalls, id, !act.ClassifyFailed?);
      TracedCounts(s.trace, s.geminiCalls, id, !act.ClassifyFailed?);
    }
  }

  /**
   * Pacing of the scheduled run: a wait precedes a classifier call exactly when
   * an earlier call succeeded, and `geminiCalls` counts the successful calls.
   */
  lemma {:induction false} CronPacing(fmt: string -> string, sheet0: Sheet, ins: seq<Input>)
    ensures var s := CronFold(fmt, sheet0, ins);
            PacedAfterSuccess(s.trace) && s.geminiCalls == Successes(s.trace)
    decreases |ins|
  {
    if ins != [] {
      var n := |ins| - 1;
      CronPacing(fmt, sheet0, ins[..n]);
      CronStepPacing(fmt, CronFold(fmt, sheet0, ins[..n]), ins[n].id, ins[n].act, ins[n].writeOk);
    }
  }

  lemma {:induction false} AllSkipped(fmt: string -> string, sheet0: Sheet, ins: seq<Input>)
    requires forall i :: 0 <= i < |ins| ==> ins[i].act.Skip?
    ensures CronFold(fmt, sheet0, ins) == CronState(sheet0, 0, 0, |ins|, 0, [])
    decreases |ins|
  {
    if ins != [] {
      AllSkipped(fmt, sheet0, ins[..|ins| - 1]);
    }
  }

  /** When every email's id is already on the roster, the run skips them all and changes nothing. */
  lemma CronAllKnown(run: Run, sheet0: Sheet, emails: seq<GmailMessage>, answers: seq<Answers>)
    requires |answers| == |emails|
    requires forall i :: 0 <= i < |emails| ==> emails[i].id in ProcessedIds(run.snapshot)
    ensures CronRun(run, sheet0, emails, answers) == CronState(sheet0, 0, 0, |emails|, 0, [])
  {
    AllSkipped(run.fmt, sheet0, Inputs(run, emails, answers));
  }

  /** A job that is on no roster row is appended. */
  lemma NewJobAppends(run: Run, email: GmailMessage, reply: GeminiReply, job: JobApplication)
    requires email.id !in ProcessedIds(run.snapshot)
    requires ClassifyJobEmail(email, reply, run.parse, run.nowIso) == Ok(Some(job))
    requires forall k :: 0 <= k < |run.snapshot| ==> !SameJob(run.snapshot[k], job)
    ensures ActionOf(run, email, reply) == AppendRow(job)
  {
    JobActionMeaning(run.snapshot, job);
  }

  /**
   * The snapshot is frozen: two emails of one run that classify to the same
   * job, absent from the snapshot, append two rows, not one row and one update.
   */
  lemma SameNewJobTwice(run: Run, s: CronState, e1: GmailMessage, a1: Answers, e2: GmailMessage, a2: Answers,
                        j1: JobApplication, j2: JobApplication)
    requires e1.id !in ProcessedIds(run.snapshot) && e2.id !in ProcessedIds(run.snapshot)
    requires a1.writeOk && a2.writeOk
    requires ClassifyJobEmail(e1, a1.reply, run.parse, run.nowIso) == Ok(Some(j1))
    requires ClassifyJobEmail(e2, a2.reply, run.parse, run.nowIso) == Ok(Some(j2))
    requires SameJob(j1, j2)
    requires forall k :: 0 <= k < |run.snapshot| ==> !SameJob(run.snapshot[k], j1)
    ensures var s1 := CronStep(run.fmt, s, e1.id, ActionOf(run, e1, a1.reply), a1.writeOk);
            var s2 := CronStep(run.fmt, s1, e2.id, ActionOf(run, e2, a2.reply), a2.writeOk);
            && s2.newJobs == s.newJobs + 2
            && s2.updatedJobs == s.updatedJobs
            && s2.sheet.rows == s.sheet.rows + [EncodeRow(j1, run.fmt)] + [EncodeRow(j2, run.fmt)]
  {
    forall k | 0 <= k < |run.snapshot|
      ensures !SameJob(run.snapshot[k], j2)
    {
      assert !SameJob(run.snapshot[k], j1);
    }
    NewJobAppends(run, e1, a1.reply, j1);
    NewJobAppends(run, e2, a2.reply, j2);
    AppendStep(run.fmt, s, e1.id, j1);
    AppendStep(run.fmt, CronStep(run.fmt, s, e1.id, AppendRow(j1), true), e2.id, j2);
  }

  /** An accepted append adds one row at the end and counts one new job. */
  lemma AppendStep(fmt: string -> string, s: CronState, id: string, job: JobApplication)
    ensures var t := CronStep(fmt, s, id, AppendRow(job), true);
            t.newJobs == s.newJobs + 1 && t.updatedJobs == s.updatedJobs && t.sheet.rows == s.sheet.rows + [EncodeRow(job, fmt)]
  {
  }

  /**
   * The job part of the scheduled loop's body: look the job up in the
   * snapshot, then overwrite on a status change or append when it is new; a
   * rejected write leaves its counter unchanged.
   */
  method CronJob(store: SheetStore, run: Run, job: JobApplication, writeOk: bool,
                 newJobs: nat, updatedJobs: nat, ghost s: CronState)
    returns (newJobs': nat, updatedJobs': nat)
    requires Truthy(store.sheetId)
    requires s.sheet == store.contents && s.newJobs == newJobs && s.updatedJobs == updatedJobs
    modifies store`contents
    ensures var t := CronWrite(run.fmt, s, JobAction(run.snapshot, job), writeOk);
            store.contents == t.sheet && newJobs' == t.newJobs && updatedJobs' == t.updatedJobs
  {
    newJobs', updatedJobs' := newJobs, updatedJobs;
    var existingJob := FindExisting(run.snapshot, job);
    if existingJob.Some? {
      var m := existingJob.value;
      if run.snapshot[m].status != job.status {
        var w := store.UpdateApplication(job.(sheetRowId := run.snapshot[m].sheetRowId), run.fmt, writeOk);
        if w.Ok? {
          updatedJobs' := updatedJobs' + 1;
        }
      }
    } else {
      var w := store.AddApplication(job, run.fmt, writeOk);
      if w.Ok? {
        newJobs' := newJobs' + 1;
      }
    }
  }

  /**
   * The scheduled loop's body after the skip test: pace, then the job part
   * for a classified email, with any thrown error caught.
   */
  method CronClassified(store: SheetStore, run: Run, id: string, jobData: Result<Option<JobApplication>>, writeOk: bool,
                        s: CronSummary, ghost trace: seq<Event>)
    returns (s': CronSummary, ghost trace': seq<Event>)
    requires Truthy(store.sheetId)
    modifies store`contents
    ensures var t := CronStep(run.fmt, CronState(old(store.contents), s.newJobs, s.updatedJobs, s.skipped, s.geminiCalls, trace),
                              id, ClassifiedAction(run.snapshot, jobData), writeOk);
            && store.contents == t.sheet && trace' == t.trace
            && s'.newJobs == t.newJobs && s'.updatedJobs == t.updatedJobs
            && s'.skipped == t.skipped && s'.geminiCalls == t.geminiCalls && s'.processed == s.processed
  {
    s', trace' := s, trace;
    if jobData.Err? {
      trace' := Traced(trace', s'.geminiCalls, id, false);
      return;
    }
    trace' := Traced(trace', s'.geminiCalls, id, true);
    s' := s'.(geminiCalls := s'.geminiCalls + 1);
    if jobData.value.None? {
      return;
    }
    var job := jobData.value.value;
    ghost var t1 := CronState(store.contents, s'.newJobs, s'.updatedJobs, s'.skipped, s'.geminiCalls, trace');
    var newJobs, updatedJobs := CronJob(store, run, job, writeOk, s'.newJobs, s'.updatedJobs, t1);
    s' := s'.(newJobs := newJobs, updatedJobs := updatedJobs);
  }

  /**
   * The body of the scheduled loop for one email: skip an email whose id is
   * on the roster, otherwise classify it and go on. The counters come in and
   * go out as the loop holds them.
   */
  method CronVisit(store: SheetStore, run: Run, processedEmailIds: set<string>, email: GmailMessage, a: Answers,
                   s: CronSummary, ghost trace: seq<Event>)
    returns (s': CronSummary, ghost trace': seq<Event>)
    requires processedEmailIds == ProcessedIds(run.snapshot)
    requires Truthy(store.sheetId)
    modifies store`contents
    ensures var t := CronStep(run.fmt, CronState(old(store.contents), s.newJobs, s.updatedJobs, s.skipped, s.geminiCalls, trace),
                              email.id, ActionOf(run, email, a.reply), a.writeOk);
            && store.contents == t.sheet && trace' == t.trace
            && s'.newJobs == t.newJobs && s'.updatedJobs == t.updatedJobs
            && s'.skipped == t.skipped && s'.geminiCalls == t.geminiCalls && s'.processed == s.processed
  {
    if email.id in processedEmailIds {
      s', trace' := s.(skipped := s.skipped + 1), trace;
      return;
    }
    var jobData := ClassifyJobEmail(email, a.reply, run.parse, run.nowIso);
    assert ActionOf(run, email, a.reply) == ClassifiedAction(run.snapshot, jobData);
    s', trace' := CronClassified(store, run, email.id, jobData, a.writeOk, s, trace);
  }

  /** The scheduled loop: `for (const email of emails)` with its four counters, errors swallowed inside. */
  method CronLoop(store: SheetStore, run: Run, emails: seq<GmailMessage>, answers: seq<Answers>)
    returns (summary: CronSummary, ghost trace: seq<Event>)
    requires |answers| == |emails|
    requires Truthy(store.sheetId)
    modifies store`contents
    ensures var s := CronRun(run, old(store.contents), emails, answers);
            && store.contents == s.sheet
            && trace == s.trace
            && summary == CronSummary(s.newJobs, s.updatedJobs, |emails|, s.skipped, s.geminiCalls)
  {
    ghost var sheet0 := store.contents;
    ghost var ins := Inputs(run, emails, answers);
    var processedEmailIds := ProcessedIds(run.snapshot);
    summary := CronSummary(0, 0, |emails|, 0, 0);
    trace := [];
    for i := 0 to |emails|
      invariant summary.processed == |emails|
      invariant CronFold(run.fmt, sheet0, ins[..i])
                == CronState(store.contents, summary.newJobs, summary.updatedJobs, summary.skipped, summary.geminiCalls, trace)
    {
      CronFoldUnfold(run.fmt, sheet0, ins, i);
      assert ins[i] == Input(emails[i].id, ActionOf(run, emails[i], answers[i].reply), answers[i].writeOk);
      summary, trace := CronVisit(store, run, processedEmailIds, emails[i], answers[i], summary, trace);
    }
    assert ins[..|emails|] == ins;
  }

  // ---------------------------------------------------------------------------
  // The manual run (jobs/track)
  // ---------------------------------------------------------------------------

  /** `aborted` records that an error escaped the loop; nothing happens after it. */
  datatype TrackState = TrackState(sheet: Sheet, newJobs: seq<string>, updatedJobs: seq<string>, skipped: nat,
                                   geminiCallCount: nat, trace: seq<Event>, aborted: bool)

  /** The summary of a manual run that completed; `geminiCalls` is reported as `emails.length - skipped`. */
  datatype TrackSummary = TrackSummary(newJobs: nat, updatedJobs: nat, processed: nat, skipped: nat, geminiCalls: int)

  /** The entry `updatedJobs` receives for an overwrite: "{title} at {company}". */
  function UpdateLabel(job: JobApplication): string
  {
    job.jobTitle + " at " + job.companyName
  }

  /** One iteration of the manual loop; a thrown classification or write aborts the run. */
  function TrackStep(fmt: string -> string, s: TrackState, id: string, act: Action, writeOk: bool): TrackState
  {
    if s.aborted then s
    else
      match act
      case Skip => s.(skipped := s.skipped + 1)
      case ClassifyFailed => s.(trace := Traced(s.trace, s.geminiCallCount, id, false), aborted := true)
      case _ =>
        TrackWrite(fmt, s.(geminiCallCount := s.geminiCallCount + 1,
                           trace := Traced(s.trace, s.geminiCallCount, id, true)),
                   act, writeOk)
  }

  /** The write that follows a successful classification; a rejected write aborts. */
  function TrackWrite(fmt: string -> string, s: TrackState, act: Action, writeOk: bool): TrackState
  {
    match act
    case AppendRow(job) =>
      if writeOk then s.(sheet := Appended(s.sheet, EncodeRow(job, fmt)), newJobs := s.newJobs + [job.jobTitle])
      else s.(aborted := true)
    case OverwriteRow(job) =>
      if writeOk && UpdatedSheet(s.sheet, job, fmt).Ok?
      then s.(sheet := UpdatedSheet(s.sheet, job, fmt).value, updatedJobs := s.updatedJobs + [UpdateLabel(job)])
      else s.(aborted := true)
    case _ => s
  }

  /** The manual run's state after the given inputs, starting from the sheet as it was read. */
  function TrackFold(fmt: string -> string, sheet0: Sheet, ins: seq<Input>): TrackState
    decreases |ins|
  {
    if ins == [] then TrackState(sheet0, [], [], 0, 0, [], false)
    else
      var n := |ins| - 1;
      TrackStep(fmt, TrackFold(fmt, sheet0, ins[..n]), ins[n].id, ins[n].act, ins[n].writeOk)
  }

  function TrackRun(run: Run, sheet0: Sheet, emails: seq<GmailMessage>, answers: seq<Answers>): TrackState
    requires |answers| == |emails|
  {
    TrackFold(run.fmt, sheet0, Inputs(run, emails, answers))
  }

  /** `TrackFold` over the first `i + 1` inputs is one more step after the first `i`. */
  lemma TrackFoldUnfold(fmt: string -> string, sheet0: Sheet, ins: seq<Input>, i: nat)
    requires i < |ins|
    ensures TrackFold(fmt, sheet0, ins[..i + 1]) == TrackStep(fmt, TrackFold(fmt, sheet0, ins[..i]), ins[i].id, ins[i].act, ins[i].writeOk)
  {
    assert ins[..i + 1][..i] == ins[..i];
  }

  lemma TrackStepCounters(fmt: string -> string, s: TrackState, id: string, act: Action, writeOk: bool)
    requires ActionWithin(act, |s.sheet.rows|)
    ensures var t := TrackStep(fmt, s, id, act, writeOk);
            && t.skipped + t.geminiCallCount <= s.skipped + s.geminiCallCount + 1
            && (!t.aborted ==> !s.aborted && t.skipped + t.geminiCallCount == s.skipped + s.geminiCallCount + 1)
            && |t.newJobs| + |t.updatedJobs| + s.geminiCallCount <= |s.newJobs| + |s.updatedJobs| + t.geminiCallCount
            && |t.newJobs| >= |s.newJobs|
            && t.sheet.header == s.sheet.header
            && |t.sheet.rows| + |s.newJobs| == |s.sheet.rows| + |t.newJobs|
  {
  }

  /**
   * Counts of the manual run. Without an abort every email is skipped or
   * classified, so the reported `emails.length - skipped` is the number of
   * classifier calls made; rows grow by exactly the new jobs, even on an abort.
   */
  lemma {:induction false} TrackCounters(fmt: string -> string, sheet0: Sheet, ins: seq<Input>)
    requires InputsWithin(ins, |sheet0.rows|)
    ensures var s := TrackFold(fmt, sheet0, ins);
            && s.skipped + s.geminiCallCount <= |ins|
            && (!s.aborted ==> |ins| - s.skipped == s.geminiCallCount)
            && |s.newJobs| + |s.updatedJobs| <= s.geminiCallCount
            && s.sheet.header == sheet0.header
            && |s.sheet.rows| == |sheet0.rows| + |s.newJobs|
    decreases |ins|
  {
    if ins != [] {
      var n := |ins| - 1;
      TrackCounters(fmt, sheet0, ins[..n]);
      TrackStepCounters(fmt, TrackFold(fmt, sheet0, ins[..n]), ins[n].id, ins[n].act, ins[n].writeOk);
    }
  }

  /** The counts for a manual run over fetched emails whose snapshot was read from the sheet. */
  lemma TrackRunCounters(run: Run, sheet0: Sheet, emails: seq<GmailMessage>, answers: seq<Answers>)
    requires |answers| == |emails|
    requires RowIdsWithin(run.snapshot, |sheet0.rows|)
    ensures var s := TrackRun(run, sheet0, emails, answers);
            && s.skipped + s.geminiCallCount <= |emails|
            && (!s.aborted ==> |emails| - s.skipped == s.geminiCallCount)
            && |s.newJobs| + |s.updatedJobs| <= s.geminiCallCount
            && s.sheet.header == sheet0.header
            && |s.sheet.rows| == |sheet0.rows| + |s.newJobs|
  {
    InputsOfRunWithin(run, emails, answers, |sheet0.rows|);
    TrackCounters(run.fmt, sheet0, Inputs(run, emails, answers));
  }

  lemma TrackStepPacing(fmt: string -> string, s: TrackState, id: string, act: Action, writeOk: bool)
    requires PacedAfterFirst(s.trace) && (!s.aborted ==> s.geminiCallCount == Calls(s.trace))
    ensures var t := TrackStep(fmt, s, id, act, writeOk);
            PacedAfterFirst(t.trace) && (!t.aborted ==> t.geminiCallCount == Calls(t.trace))
  {
    if !s.aborted && !act.Skip? {
      PacingStepFirst(s.trace, s.geminiCallCount, id, !act.ClassifyFailed?);
      TracedCounts(s.trace, s.geminiCallCount, id, !act.ClassifyFailed?);
    }
  }

  /**
   * Pacing of the manual run: every classifier call except the first is
   * preceded by a 200 ms wait, and without an abort the call counter counts
   * every call made.
   */
  lemma {:induction false} TrackPacing(fmt: string -> string, sheet0: Sheet, ins: seq<Input>)
    ensures var s := TrackFold(fmt, sheet0, ins);
            PacedAfterFirst(s.trace) && (!s.aborted ==> s.geminiCallCount == Calls(s.trace))
    decreases |ins|
  {
    if ins != [] {
      var n := |ins| - 1;
      TrackPacing(fmt, sheet0, ins[..n]);
      TrackStepPacing(fmt, TrackFold(fmt, sheet0, ins[..n]), ins[n].id, ins[n].act, ins[n].writeOk);
    }
  }

  /** No error isolation: once a manual run has aborted, the remaining emails change nothing. */
  lemma {:induction false} TrackAbortIsFinal(fmt: string -> string, sheet0: Sheet, ins: seq<Input>, n: nat)
    requires n <= |ins|
    requires TrackFold(fmt, sheet0, ins[..n]).aborted
    ensures TrackFold(fmt, sheet0, ins) == TrackFold(fmt, sheet0, ins[..n])
    decreases |ins|
  {
    if n < |ins| {
      var m := |ins| - 1;
      assert ins[..m][..n] == ins[..n];
      TrackAbortIsFinal(fmt, sheet0, ins[..m], n);
    } else {
      assert ins[..n] == ins;
    }
  }

  /** The scheduled run's view of a manual run's state: lists become their lengths. */
  function AsCron(t: TrackState): CronState
  {
    CronState(t.sheet, |t.newJobs|, |t.updatedJobs|, t.skipped, t.geminiCallCount, t.trace)
  }

  lemma StepsAgree(fmt: string -> string, t: TrackState, id: string, act: Action, writeOk: bool)
    requires !t.aborted
    ensures !TrackStep(fmt, t, id, act, writeOk).aborted ==>
              CronStep(fmt, AsCron(t), id, act, writeOk) == AsCron(TrackStep(fmt, t, id, act, writeOk))
  {
  }

  /**
   * The two loops differ only in error handling: when no error occurs in a
   * manual run, the scheduled run over the same inputs writes the same sheet,
   * makes the same calls and waits, and reports the same counts.
   */
  lemma {:induction false} RunsAgreeWithoutErrors(fmt: string -> string, sheet0: Sheet, ins: seq<Input>)
    ensures !TrackFold(fmt, sheet0, ins).aborted ==> CronFold(fmt, sheet0, ins) == AsCron(TrackFold(fmt, sheet0, ins))
    decreases |ins|
  {
    if ins != [] {
      var n := |ins| - 1;
      RunsAgreeWithoutErrors(fmt, sheet0, ins[..n]);
      var t := TrackFold(fmt, sheet0, ins[..n]);
      if !t.aborted {
        StepsAgree(fmt, t, ins[n].id, ins[n].act, ins[n].writeOk);
      }
    }
  }

  /**
   * The job part of the manual loop's body: look the job up in the snapshot,
   * then overwrite on a status change or append when it is new; a rejected
   * write throws out of the loop (`aborted'`).
   */
  method TrackJob(store: SheetStore, run: Run, job: JobApplication, writeOk: bool,
                  newJobs: seq<string>, updatedJobs: seq<string>, ghost s: TrackState)
    returns (newJobs': seq<string>, updatedJobs': seq<string>, aborted': bool)
    requires Truthy(store.sheetId)
    requires s.sheet == store.contents && s.newJobs == newJobs && s.updatedJobs == updatedJobs && !s.aborted
    modifies store`contents
    ensures var t := TrackWrite(run.fmt, s, JobAction(run.snapshot, job), writeOk);
            && store.contents == t.sheet && newJobs' == t.newJobs && updatedJobs' == t.updatedJobs
            && aborted' == t.aborted
  {
    newJobs', updatedJobs', aborted' := newJobs, updatedJobs, false;
    var existingJob := FindExisting(run.snapshot, job);
    if existingJob.Some? {
      var m := existingJob.value;
      if run.snapshot[m].status != job.status {
        var w := store.UpdateApplication(job.(sheetRowId := run.snapshot[m].sheetRowId), run.fmt, writeOk);
        if w.Err? {
          return newJobs', updatedJobs', true;
        }
        updatedJobs' := updatedJobs' + [UpdateLabel(job)];
      }
    } else {
      var w := store.AddApplication(job, run.fmt, writeOk);
      if w.Err? {
        return newJobs', updatedJobs', true;
      }
      newJobs' := newJobs' + [job.jobTitle];
    }
  }

  /**
   * The manual loop's body after the skip test: pace, then the job part for a
   * classified email. `aborted'` reports an error escaping the body.
   */
  method TrackClassified(store: SheetStore, run: Run, id: string, jobData: Result<Option<JobApplication>>, writeOk: bool,
                         newJobs: seq<string>, updatedJobs: seq<string>, skipped: nat, geminiCallCount: nat,
                         ghost trace: seq<Event>)
    returns (newJobs': seq<string>, updatedJobs': seq<string>, geminiCallCount': nat,
             ghost trace': seq<Event>, aborted': bool)
    requires Truthy(store.sheetId)
    modifies store`contents
    ensures var t := TrackStep(run.fmt, TrackState(old(store.contents), newJobs, updatedJobs, skipped, geminiCallCount, trace, false),
                               id, ClassifiedAction(run.snapshot, jobData), writeOk);
            && store.contents == t.sheet && newJobs' == t.newJobs && updatedJobs' == t.updatedJobs
            && skipped == t.skipped && geminiCallCount' == t.geminiCallCount && trace' == t.trace && aborted' == t.aborted
  {
    newJobs', updatedJobs', geminiCallCount', trace', aborted' := newJobs, updatedJobs, geminiCallCount, trace, false;
    if jobData.Err? {
      trace' := Traced(trace', geminiCallCount', id, false);
      aborted' := true;
      return;
    }
    trace' := Traced(trace', geminiCallCount', id, true);
    geminiCallCount' := geminiCallCount' + 1;
    if jobData.value.None? {
      return;
    }
    var job := jobData.value.value;
    ghost var t1 := TrackState(store.contents, newJobs', updatedJobs', skipped, geminiCallCount', trace', false);
    newJobs', updatedJobs', aborted' := TrackJob(store, run, job, writeOk, newJobs', updatedJobs', t1);
  }

  /**
   * The body of the manual loop for one email: skip an email whose id is on
   * the roster, otherwise classify it and go on.
   */
  method TrackVisit(store: SheetStore, run: Run, processedEmailIds: set<string>, email: GmailMessage, a: Answers,
                    newJobs: seq<string>, updatedJobs: seq<string>, skipped: nat, geminiCallCount: nat,
                    ghost trace: seq<Event>)
    returns (newJobs': seq<string>, updatedJobs': seq<string>, skipped': nat, geminiCallCount': nat,
             ghost trace': seq<Event>, aborted': bool)
    requires processedEmailIds == ProcessedIds(run.snapshot)
    requires Truthy(store.sheetId)
    modifies store`contents
    ensures TrackState(store.contents, newJobs', updatedJobs', skipped', geminiCallCount', trace', aborted')
            == TrackStep(run.fmt, TrackState(old(store.contents), newJobs, updatedJobs, skipped, geminiCallCount, trace, false),
                         email.id, ActionOf(run, email, a.reply), a.writeOk)
  {
    if email.id in processedEmailIds {
      newJobs', updatedJobs', skipped', geminiCallCount', trace', aborted' :=
        newJobs, updatedJobs, skipped + 1, geminiCallCount, trace, false;
      return;
    }
    var jobData := ClassifyJobEmail(email, a.reply, run.parse, run.nowIso);
    assert ActionOf(run, email, a.reply) == ClassifiedAction(run.snapshot, jobData);
    skipped' := skipped;
    newJobs', updatedJobs', geminiCallCount', trace', aborted' :=
      TrackClassified(store, run, email.id, jobData, a.writeOk, newJobs, updatedJobs, skipped, geminiCallCount, trace);
  }

  /**
   * The manual loop. It returns the summary, or None when an error escaped
   * (the route then answers 500); writes made before the error stay in the sheet.
   */
  method TrackLoop(store: SheetStore, run: Run, emails: seq<GmailMessage>, answers: seq<Answers>)
    returns (summary: Option<TrackSummary>, ghost trace: seq<Event>)
    requires |answers| == |emails|
    requires Truthy(store.sheetId)
    modifies store`contents
    ensures var s := TrackRun(run, old(store.contents), emails, answers);
            && store.contents == s.sheet
            && trace == s.trace
            && (summary.None? <==> s.aborted)
            && (summary.Some? ==> summary.value == TrackSummary(|s.newJobs|, |s.updatedJobs|, |emails|, s.skipped, |emails| - s.skipped))
  {
    ghost var sheet0 := store.contents;
    ghost var ins := Inputs(run, emails, answers);
    var processedEmailIds := ProcessedIds(run.snapshot);
    var newJobs: seq<string> := [];
    var updatedJobs: seq<string> := [];
    var skipped, geminiCallCount := 0, 0;
    trace := [];
    for i := 0 to |emails|
      invariant TrackFold(run.fmt, sheet0, ins[..i])
                == TrackState(store.contents, newJobs, updatedJobs, skipped, geminiCallCount, trace, false)
    {
      TrackFoldUnfold(run.fmt, sheet0, ins, i);
      assert ins[i] == Input(emails[i].id, ActionOf(run, emails[i], answers[i].reply), answers[i].writeOk);
      var aborted;
      newJobs, updatedJobs, skipped, geminiCallCount, trace, aborted :=
        TrackVisit(store, run, processedEmailIds, emails[i], answers[i], newJobs, updatedJobs, skipped, geminiCallCount, trace);
      if aborted {
        ghost var last := TrackState(store.contents, newJobs, updatedJobs, skipped, geminiCallCount, trace, true);
        assert TrackFold(run.fmt, sheet0, ins[..i + 1]) == last;
        TrackAbortIsFinal(run.fmt, sheet0, ins, i + 1);
        assert TrackRun(run, sheet0, emails, answers) == last;
        return None, trace;
      }
    }
    assert ins[..|emails|] == ins;
    assert TrackRun(run, sheet0, emails, answers)
           == TrackState(store.contents, newJobs, updatedJobs, skipped, geminiCallCount, trace, false);
    summary := Some(TrackSummary(|newJobs|, |updatedJobs|, |emails|, skipped, |emails| - skipped));
  }
}
