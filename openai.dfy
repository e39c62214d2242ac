/**
 * Email embedding (lib/openai.ts): preparing an email's text and metadata,
 * embedding a list of emails one by one while skipping failures, and the
 * same in consecutive batches. The embedding service is outside the model:
 * `answers[i]` is the outcome of the i-th email's request, the vector or
 * None when the request throws.
 * Vectors are carried, never computed on.
 */
module Embeddings {
  import opened Base
  import opened Messages
  import opened Batching

  /** Length of the snippet kept in the metadata. */
  const METADATA_SNIPPET_LEN: nat := 200
  /** The batch size `batchEmbedEmails` uses when its caller gives none. */
  const DEFAULT_BATCH_SIZE: nat := 10
  /** Pause after each successful embedding, in milliseconds. */
  const EMBED_PAUSE_MS: nat := 100

  type Vector = seq<real>

  datatype Metadata = Metadata(subject: string, from: string, date: string, snippet: string, id: string)
  datatype PreparedEmail = PreparedEmail(id: string, text: string, metadata: Metadata)
  datatype EmbeddedEmail = EmbeddedEmail(id: string, values: Vector, metadata: Metadata)

  /** The text the service embeds: the three labelled lines, without surrounding whitespace. */
  function EmbeddingLines(s: Summary): string
  {
    "From: " + s.from + "\nSubject: " + s.subject + "\nContent: " + s.snippet
  }

  /** Trailing whitespace added to a string disappears under `TrimEnd`. */
  lemma {:induction false} TrimEndSpaces(s: string, w: string)
    requires forall i :: 0 <= i < |w| ==> IsSpace(w[i])
    ensures TrimEnd(s + w) == TrimEnd(s)
    decreases |w|
  {
    if w != [] {
      var w' := w[..|w| - 1];
      assert (s + w)[..|s + w| - 1] == s + w';
      TrimEndSpaces(s, w');
    } else {
      assert s + w == s;
    }
  }

  /** `TrimEnd` never reaches past a non-space first character. */
  lemma {:induction false} TrimEndKeepsPrefix(p: string, x: string)
    requires x != [] && !IsSpace(x[0])
    ensures TrimEnd(p + x) == p + TrimEnd(x)
    decreases |x|
  {
    if IsSpace(x[|x| - 1]) {
      var x' := x[..|x| - 1];
      assert (p + x)[..|p + x| - 1] == p + x';
      assert |x'| > 0;
      TrimEndKeepsPrefix(p, x');
    }
  }

  /** The embedding text as the template literal builds it, before `trim`. */
  function RawText(s: Summary): string
  {
    "\n" + EmbeddingLines(s) + "\n  "
  }

  /** `TrimEnd` keeps a non-space first character. */
  lemma {:induction false} TrimEndKeepsHead(x: string)
    requires x != [] && !IsSpace(x[0])
    ensures TrimEnd(x) != [] && TrimEnd(x)[0] == x[0]
    decreases |x|
  {
    if IsSpace(x[|x| - 1]) {
      TrimEndKeepsHead(x[..|x| - 1]);
    }
  }

  /** A leading newline in front of a non-space character is all `TrimStart` removes. */
  lemma TrimStartNewline(y: string)
    requires y != [] && !IsSpace(y[0])
    ensures TrimStart("\n" + y) == y
  {
    assert ("\n" + y)[1..] == y;
  }

  /** The template's shape, for any lines that start with a non-space: trimming leaves the lines without trailing whitespace. */
  lemma TrimTemplate(lines: string)
    requires lines != [] && !IsSpace(lines[0])
    ensures Trim("\n" + lines + "\n  ") == TrimEnd(lines)
  {
    TrimEndSpaces("\n" + lines, "\n  ");
    TrimEndKeepsPrefix("\n", lines);
    TrimEndKeepsHead(lines);
    TrimStartNewline(TrimEnd(lines));
  }

  /** Trimming the template removes exactly the surrounding newlines and the trailing whitespace of the content. */
  lemma TrimmedText(s: Summary)
    ensures Trim(RawText(s)) == TrimEnd(EmbeddingLines(s))
  {
    var lines := EmbeddingLines(s);
    assert lines[0] == 'F';
    TrimTemplate(lines);
  }

  /**
   * `prepareEmailForEmbedding`: the id, the embedding text and the metadata.
   * The text is written as the three labelled lines with the content's
   * trailing whitespace removed; `PreparedFields` shows that this is the
   * template literal trimmed, as the source computes it.
   */
  function PrepareEmailForEmbedding(email: GmailMessage, nowIso: string): (p: PreparedEmail)
    ensures p.id == email.id && p.metadata.id == email.id
    ensures |p.metadata.snippet| <= METADATA_SNIPPET_LEN
  {
    var s := Summarize(email, nowIso);
    PreparedEmail(email.id, TrimEnd(EmbeddingLines(s)),
                  Metadata(s.subject, s.from, s.date, Take(s.snippet, METADATA_SNIPPET_LEN), email.id))
  }

  /**
   * The prepared email has the same defaults as the classifier's summary
   * (subject, sender, date, snippet), the snippet cut to 200 characters in
   * the metadata, and the trimmed template as its text.
   */
  lemma PreparedFields(email: GmailMessage, nowIso: string)
    ensures var s := Summarize(email, nowIso);
            var p := PrepareEmailForEmbedding(email, nowIso);
            && p.metadata == Metadata(s.subject, s.from, s.date, Take(s.snippet, METADATA_SNIPPET_LEN), email.id)
            && p.text == Trim(RawText(s))
  {
    TrimmedText(Summarize(email, nowIso));
  }

  /** The entry pushed for an email whose embedding succeeded, or none. */
  function Entry(p: PreparedEmail, v: Option<Vector>): (r: seq<EmbeddedEmail>)
    ensures |r| == if v.Some? then 1 else 0
    ensures v.Some? ==> r[0].id == p.id && r[0].values == v.value && r[0].metadata == p.metadata
  {
    match v
    case None => []
    case Some(values) => [EmbeddedEmail(p.id, values, p.metadata)]
  }

  /** The emails as `prepareEmailForEmbedding` prepares them, in order. */
  function Prepared(emails: seq<GmailMessage>, nowIso: string): (ps: seq<PreparedEmail>)
    ensures |ps| == |emails|
  {
    if emails == [] then []
    else Prepared(emails[..|emails| - 1], nowIso) + [PrepareEmailForEmbedding(emails[|emails| - 1], nowIso)]
  }

  /** The i-th prepared email is the i-th email prepared. */
  lemma {:induction false} PreparedAt(emails: seq<GmailMessage>, nowIso: string, i: nat)
    requires i < |emails|
    ensures Prepared(emails, nowIso)[i] == PrepareEmailForEmbedding(emails[i], nowIso)
    decreases |emails|
  {
    if i < |emails| - 1 {
      var init := emails[..|emails| - 1];
      assert init[i] == emails[i];
      PreparedAt(init, nowIso, i);
    }
  }

  /** Preparing a concatenation prepares each part. */
  lemma {:induction false} PreparedAppend(a: seq<GmailMessage>, b: seq<GmailMessage>, nowIso: string)
    ensures Prepared(a + b, nowIso) == Prepared(a, nowIso) + Prepared(b, nowIso)
    decreases |b|
  {
    if b == [] {
      assert a + b == a;
    } else {
      var b' := b[..|b| - 1];
      assert (a + b)[..|a + b| - 1] == a + b';
      assert (a + b)[|a + b| - 1] == b[|b| - 1];
      PreparedAppend(a, b', nowIso);
    }
  }

  /**
   * The entries `embedEmails` pushes for prepared emails: one for each whose
   * request succeeded, in order. `answers[i]` is what the i-th request gives:
   * the vector, or None when it throws.
   */
  function EmbedAll(ps: seq<PreparedEmail>, answers: seq<Option<Vector>>): (r: seq<EmbeddedEmail>)
    requires |answers| == |ps|
    ensures |r| <= |ps|
  {
    if ps == [] then []
    else EmbedAll(ps[..|ps| - 1], answers[..|ps| - 1]) + Entry(ps[|ps| - 1], answers[|ps| - 1])
  }

  /** What `embedEmails` returns for a list of emails and the answers to their requests. */
  function Embedded(emails: seq<GmailMessage>, answers: seq<Option<Vector>>, nowIso: string): (r: seq<EmbeddedEmail>)
    requires |answers| == |emails|
    ensures |r| <= |emails|
  {
    EmbedAll(Prepared(emails, nowIso), answers)
  }

  /** Embedding a concatenation of prepared emails gives the concatenation of the results. */
  lemma {:induction false} EmbedAllAppend(a: seq<PreparedEmail>, b: seq<PreparedEmail>,
                                          xa: seq<Option<Vector>>, xb: seq<Option<Vector>>)
    requires |xa| == |a| && |xb| == |b|
    ensures EmbedAll(a + b, xa + xb) == EmbedAll(a, xa) + EmbedAll(b, xb)
    decreases |b|
  {
    if b == [] {
      assert a + b == a && xa + xb == xa;
    } else {
      var b', xb' := b[..|b| - 1], xb[..|b| - 1];
      assert (a + b)[..|a + b| - 1] == a + b';
      assert (xa + xb)[..|a + b| - 1] == xa + xb';
      assert (a + b)[|a + b| - 1] == b[|b| - 1];
      assert (xa + xb)[|a + b| - 1] == xb[|b| - 1];
      EmbedAllAppend(a, b', xa, xb');
    }
  }

  /** Embedding a concatenation of emails gives the concatenation of the results: a split into batches loses and reorders nothing. */
  lemma EmbeddedAppend(a: seq<GmailMessage>, b: seq<GmailMessage>, xa: seq<Option<Vector>>, xb: seq<Option<Vector>>, nowIso: string)
    requires |xa| == |a| && |xb| == |b|
    ensures Embedded(a + b, xa + xb, nowIso) == Embedded(a, xa, nowIso) + Embedded(b, xb, nowIso)
  {
    PreparedAppend(a, b, nowIso);
    EmbedAllAppend(Prepared(a, nowIso), Prepared(b, nowIso), xa, xb);
  }

  /** When every request succeeds there is one entry per email, at the same position, built from that email's vector. */
  lemma {:induction false} EmbedAllSucceed(ps: seq<PreparedEmail>, answers: seq<Option<Vector>>)
    requires |answers| == |ps|
    requires forall i :: 0 <= i < |ps| ==> answers[i].Some?
    ensures |EmbedAll(ps, answers)| == |ps|
    ensures forall i :: 0 <= i < |ps| ==>
              EmbedAll(ps, answers)[i] == EmbeddedEmail(ps[i].id, answers[i].value, ps[i].metadata)
    decreases |ps|
  {
    if ps != [] {
      var init, xinit := ps[..|ps| - 1], answers[..|ps| - 1];
      assert forall i :: 0 <= i < |init| ==> init[i] == ps[i] && xinit[i] == answers[i];
      EmbedAllSucceed(init, xinit);
    }
  }

  /** When every request fails there are no entries. */
  lemma {:induction false} EmbedAllFail(ps: seq<PreparedEmail>, answers: seq<Option<Vector>>)
    requires |answers| == |ps|
    requires forall i :: 0 <= i < |ps| ==> answers[i].None?
    ensures EmbedAll(ps, answers) == []
    decreases |ps|
  {
    if ps != [] {
      var xinit := answers[..|ps| - 1];
      assert forall i :: 0 <= i < |xinit| ==> xinit[i] == answers[i];
      EmbedAllFail(ps[..|ps| - 1], xinit);
    }
  }

  /** A progress report: the 1-based position, the total, and the subject. */
  datatype Report = Report(current: nat, total: nat, subject: string)

  /** The reports for a list of prepared emails: position, total and metadata subject, one per email. */
  function Reports(ps: seq<PreparedEmail>, total: nat): seq<Report>
  {
    if ps == [] then []
    else Reports(ps[..|ps| - 1], total) + [Report(|ps|, total, ps[|ps| - 1].metadata.subject)]
  }

  /** Every email is reported once, in order, numbered from 1, whether or not its embedding succeeds. */
  lemma {:induction false} ReportsNumbered(ps: seq<PreparedEmail>, total: nat)
    ensures |Reports(ps, total)| == |ps|
    ensures forall k :: 0 <= k < |ps| ==> Reports(ps, total)[k] == Report(k + 1, total, ps[k].metadata.subject)
    decreases |ps|
  {
    if ps != [] {
      var init := ps[..|ps| - 1];
      ReportsNumbered(init, total);
      assert forall k :: 0 <= k < |init| ==> init[k] == ps[k];
    }
  }

  /** One more email prepared extends the prepared list, the entries and the reports by that email's. */
  lemma EmbedStep(emails: seq<GmailMessage>, answers: seq<Option<Vector>>, i: nat, p: PreparedEmail, nowIso: string)
    requires |answers| == |emails|
    requires i < |emails| && p == PrepareEmailForEmbedding(emails[i], nowIso)
    ensures Prepared(emails[..i + 1], nowIso) == Prepared(emails[..i], nowIso) + [p]
    ensures EmbedAll(Prepared(emails[..i + 1], nowIso), answers[..i + 1])
            == EmbedAll(Prepared(emails[..i], nowIso), answers[..i]) + Entry(p, answers[i])
    ensures Reports(Prepared(emails[..i + 1], nowIso), |emails|)
            == Reports(Prepared(emails[..i], nowIso), |emails|) + [Report(i + 1, |emails|, p.metadata.subject)]
  {
    assert emails[..i + 1][..i] == emails[..i];
    assert answers[..i + 1][..i] == answers[..i];
    var ps := Prepared(emails[..i], nowIso) + [p];
    assert ps[..|ps| - 1] == Prepared(emails[..i], nowIso);
  }

  /**
   * `embedEmails` with its progress callback. Every email is reported,
   * success or not, before its request; `answers[i]` is the outcome of the
   * i-th request; `pauses` counts the 100 ms pauses, one after each success.
   */
  method EmbedEmails(emails: seq<GmailMessage>, answers: seq<Option<Vector>>, nowIso: string)
    returns (embeddedEmails: seq<EmbeddedEmail>, ghost reported: seq<Report>, ghost pauses: nat)
    requires |answers| == |emails|
    ensures embeddedEmails == Embedded(emails, answers, nowIso)
    ensures reported == Reports(Prepared(emails, nowIso), |emails|)
    ensures pauses == |embeddedEmails|
  {
    embeddedEmails, reported, pauses := [], [], 0;
    for i := 0 to |emails|
      invariant embeddedEmails == EmbedAll(Prepared(emails[..i], nowIso), answers[..i])
      invariant reported == Reports(Prepared(emails[..i], nowIso), |emails|)
      invariant pauses == |embeddedEmails|
    {
      var prepared := PrepareEmailForEmbedding(emails[i], nowIso);
      EmbedStep(emails, answers, i, prepared, nowIso);
      reported := reported + [Report(i + 1, |emails|, prepared.metadata.subject)];
      var embedding := answers[i];
      if embedding.Some? {
        embeddedEmails := embeddedEmails + [EmbeddedEmail(prepared.id, embedding.value, prepared.metadata)];
        pauses := pauses + 1;
      }
    }
    assert emails[..|emails|] == emails && answers[..|emails|] == answers;
  }

  /** What the batch loop has done once its index reaches `i`: the embeddings of the emails before it, and the slices and progress so far. */
  predicate BatchedUpTo(emails: seq<GmailMessage>, answers: seq<Option<Vector>>, batchSize: nat, i: nat, nowIso: string,
                        allEmbedded: seq<EmbeddedEmail>, batches: seq<seq<GmailMessage>>, progress: seq<nat>)
    requires |answers| == |emails| && batchSize > 0
  {
    var k := Min(i, |emails|);
    && allEmbedded == Embedded(emails[..k], answers[..k], nowIso)
    && batches + ChunksFrom(emails, batchSize, i) == Chunks(emails, batchSize)
    && progress + ProgressFrom(|emails|, batchSize, i) == Progress(|emails|, batchSize)
  }

  /** Embedding the emails up to `i` and then the slice up to `end` is embedding the emails up to `end`. */
  lemma EmbeddedPrefixStep(emails: seq<GmailMessage>, answers: seq<Option<Vector>>, i: nat, end: nat, nowIso: string)
    requires |answers| == |emails| && i <= end <= |emails|
    ensures Embedded(emails[..end], answers[..end], nowIso)
            == Embedded(emails[..i], answers[..i], nowIso) + Embedded(emails[i..end], answers[i..end], nowIso)
  {
    assert emails[..end] == emails[..i] + emails[i..end];
    assert answers[..end] == answers[..i] + answers[i..end];
    EmbeddedAppend(emails[..i], emails[i..end], answers[..i], answers[i..end], nowIso);
  }

  /** Before the first pass nothing is embedded and every slice and progress value is still to come. */
  lemma BatchedStart(emails: seq<GmailMessage>, answers: seq<Option<Vector>>, batchSize: nat, nowIso: string)
    requires |answers| == |emails| && batchSize > 0
    ensures BatchedUpTo(emails, answers, batchSize, 0, nowIso, [], [], [])
  {
    assert emails[..0] == [] && answers[..0] == [];
  }

  /** Once the index has passed the end, every email is embedded and every slice and progress value is done. */
  lemma BatchedAll(emails: seq<GmailMessage>, answers: seq<Option<Vector>>, batchSize: nat, i: nat, nowIso: string,
                   allEmbedded: seq<EmbeddedEmail>, batches: seq<seq<GmailMessage>>, progress: seq<nat>)
    requires |answers| == |emails| && batchSize > 0 && i >= |emails|
    requires BatchedUpTo(emails, answers, batchSize, i, nowIso, allEmbedded, batches, progress)
    ensures allEmbedded == Embedded(emails, answers, nowIso)
    ensures batches == Chunks(emails, batchSize)
    ensures progress == Progress(|emails|, batchSize)
  {
    assert emails[..|emails|] == emails && answers[..|emails|] == answers;
    assert batches + [] == batches && progress + [] == progress;
  }

  /** One pass of the batch loop: `embedEmails` on the slice from `i`, appended, and `min(i + batchSize, n)` reported. */
  method BatchPass(emails: seq<GmailMessage>, answers: seq<Option<Vector>>, batchSize: nat, i: nat, nowIso: string,
                   allEmbedded: seq<EmbeddedEmail>, ghost batches: seq<seq<GmailMessage>>, ghost progress: seq<nat>)
    returns (allEmbedded': seq<EmbeddedEmail>, ghost batches': seq<seq<GmailMessage>>, ghost progress': seq<nat>)
    requires |answers| == |emails| && batchSize > 0 && i < |emails|
    requires BatchedUpTo(emails, answers, batchSize, i, nowIso, allEmbedded, batches, progress)
    ensures BatchedUpTo(emails, answers, batchSize, i + batchSize, nowIso, allEmbedded', batches', progress')
  {
    var end := Min(i + batchSize, |emails|);
    var batch := emails[i..end];
    ghost var reported, pauses;
    var embedded;
    embedded, reported, pauses := EmbedEmails(batch, answers[i..end], nowIso);
    EmbeddedPrefixStep(emails, answers, i, end, nowIso);
    BatchingStep(emails, batchSize, i, batches, progress);
    allEmbedded' := allEmbedded + embedded;
    batches' := batches + [batch];
    progress' := progress + [end];
  }

  /**
   * `batchEmbedEmails`: `embedEmails` on consecutive slices of `batchSize`
   * emails, concatenated, with `min(i + batchSize, n)` reported after each
   * slice. The result is that of embedding the whole list at once. A caller
   * that gives no batch size passes DEFAULT_BATCH_SIZE; a batch size of 0
   * would never advance, so it is excluded.
   */
  method BatchEmbedEmails(emails: seq<GmailMessage>, answers: seq<Option<Vector>>, batchSize: nat, nowIso: string)
    returns (allEmbedded: seq<EmbeddedEmail>, ghost batches: seq<seq<GmailMessage>>, ghost progress: seq<nat>)
    requires |answers| == |emails| && batchSize > 0
    ensures allEmbedded == Embedded(emails, answers, nowIso)
    ensures batches == Chunks(emails, batchSize)
    ensures progress == Progress(|emails|, batchSize)
  {
    allEmbedded, batches, progress := [], [], [];
    BatchedStart(emails, answers, batchSize, nowIso);
    var i := 0;
    while i < |emails|
      invariant BatchedUpTo(emails, answers, batchSize, i, nowIso, allEmbedded, batches, progress)
      decreases |emails| - i
    {
      allEmbedded, batches, progress := BatchPass(emails, answers, batchSize, i, nowIso, allEmbedded, batches, progress);
      i := i + batchSize;
    }
    BatchedAll(emails, answers, batchSize, i, nowIso, allEmbedded, batches, progress);
  }
}
