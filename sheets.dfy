/**
 * The job-application roster kept in a Google Sheet (lib/sheets.ts): the
 * seven-column row layout, decoding of the data rows (from A2) into
 * `JobApplication` records with their defaults and row ids, and the two writes,
 * append and overwrite-at-row.
 */
module Sheets {
  import opened Base

  const HEADER_ROW: seq<string> := ["Job Title", "Company", "Date Applied", "Status", "Last Updated", "Email ID", "Notes"]
  /** The Email ID cell keeps only this many characters of the message id. */
  const EMAIL_ID_CELL_LEN: nat := 16
  /** Sheet row of the first data row (row 1 holds the header). */
  const FIRST_DATA_ROW: nat := 2
  const DEFAULT_STATUS := "applied"

  const MISSING_SHEET_ID := "Missing GOOGLE_SHEET_ID environment variable"
  const READ_FAILED := "Failed to read applications from Google Sheets"
  const ADD_FAILED := "Failed to add application to Google Sheets"
  const UPDATE_FAILED := "Failed to update application in Google Sheets"
  const NO_ROW_ID := "Cannot update application without sheetRowId"

  /**
   * `JobApplication` as lib/sheets.ts and lib/jobClassifier.ts build it. The
   * status is the classifier's free-form string; `sheetRowId` is set only on
   * records read from the sheet.
   */
  datatype JobApplication = JobApplication(
    jobTitle: string,
    companyName: string,
    dateApplied: Option<string>,
    status: string,
    lastUpdated: string,
    emailId: string,
    notes: Option<string>,
    sheetRowId: Option<int>)

  /** One sheet row, as a list of cell strings; the API omits trailing empty cells. */
  type Row = seq<string>

  /** The tab: row 1 (the header the user keeps there) and the data rows from row 2 on. */
  datatype Sheet = Sheet(header: Row, rows: seq<Row>)

  function Cell(row: Row, k: nat): Option<string>
  {
    if k < |row| then Some(row[k]) else None
  }

  /** One element of `rows.map((row, index) => ...)` in `getAllApplications`. */
  function DecodeRow(row: Row, index: nat, nowIso: string): (app: JobApplication)
    ensures app.sheetRowId == Some(index + FIRST_DATA_ROW)
    ensures app.status != ""
    ensures app.dateApplied.Some? ==> app.dateApplied.value != ""
    ensures app.notes.Some? ==> app.notes.value != ""
  {
    JobApplication(
      OrElse(Cell(row, 0), ""),
      OrElse(Cell(row, 1), ""),
      NonEmpty(Cell(row, 2)),
      OrElse(Cell(row, 3), DEFAULT_STATUS),
      OrElse(Cell(row, 4), nowIso),
      OrElse(Cell(row, 5), ""),
      NonEmpty(Cell(row, 6)),
      Some(index + FIRST_DATA_ROW))
  }

  /** What `getAllApplications` returns for the data rows of the tab. */
  function DecodeRows(rows: seq<Row>, nowIso: string): (apps: seq<JobApplication>)
    ensures |apps| == |rows|
    ensures forall i :: 0 <= i < |rows| ==> apps[i] == DecodeRow(rows[i], i, nowIso)
  {
    seq(|rows|, i requires 0 <= i < |rows| => DecodeRow(rows[i], i, nowIso))
  }

  /**
   * The row `addApplication` and `updateApplication` write. `fmt` stands for
   * the `toLocaleDateString('en-US', ...)` formatting of an ISO date.
   */
  function EncodeRow(app: JobApplication, fmt: string -> string): (row: Row)
    ensures |row| == |HEADER_ROW|
    ensures |row[5]| <= EMAIL_ID_CELL_LEN && row[5] <= app.emailId
  {
    [app.jobTitle,
     app.companyName,
     if Truthy(app.dateApplied) then fmt(app.dateApplied.value) else "",
     app.status,
     fmt(app.lastUpdated),
     Take(app.emailId, EMAIL_ID_CELL_LEN),
     OrElse(app.notes, "")]
  }

  /** The sheet after `values.append` of one row to the table at A2:G. */
  function Appended(s: Sheet, row: Row): (t: Sheet)
    ensures t.header == s.header
    ensures |t.rows| == |s.rows| + 1 && t.rows[..|s.rows|] == s.rows && t.rows[|s.rows|] == row
  {
    Sheet(s.header, s.rows + [row])
  }

  /**
   * The sheet after `values.update` of range `A{r}` with one row: row 1 is the
   * header, a row past the end is written after blank rows. A row number below
   * 1 is not a valid range and the API refuses it.
   */
  function Overwritten(s: Sheet, r: int, row: Row): (t: Result<Sheet>)
    ensures t.Err? <==> r < 1
    ensures t.Ok? && r == 1 ==> t.value == Sheet(row, s.rows)
    ensures t.Ok? && r >= FIRST_DATA_ROW ==>
              t.value.header == s.header
              && |t.value.rows| == (if r - FIRST_DATA_ROW < |s.rows| then |s.rows| else r - 1)
              && t.value.rows[r - FIRST_DATA_ROW] == row
              && forall k :: 0 <= k < |s.rows| && k != r - FIRST_DATA_ROW ==> t.value.rows[k] == s.rows[k]
  {
    if r < 1 then Err(UPDATE_FAILED)
    else if r == 1 then Ok(Sheet(row, s.rows))
    else if r - FIRST_DATA_ROW < |s.rows| then Ok(Sheet(s.header, s.rows[r - FIRST_DATA_ROW := row]))
    else Ok(Sheet(s.header, s.rows + seq(r - FIRST_DATA_ROW - |s.rows|, _ => []) + [row]))
  }

  /**
   * `updateApplication` without the network: the row-id check comes first
   * (`!application.sheetRowId` also rejects row 0), then the write at `A{sheetRowId}`.
   */
  function UpdatedSheet(s: Sheet, app: JobApplication, fmt: string -> string): (t: Result<Sheet>)
    ensures (app.sheetRowId.None? || app.sheetRowId.value == 0) ==> t == Err(NO_ROW_ID)
    ensures t.Ok? <==> app.sheetRowId.Some? && app.sheetRowId.value >= 1
    ensures app.sheetRowId.Some? && FIRST_DATA_ROW <= app.sheetRowId.value < |s.rows| + FIRST_DATA_ROW ==>
              t == Ok(Sheet(s.header, s.rows[app.sheetRowId.value - FIRST_DATA_ROW := EncodeRow(app, fmt)]))
  {
    if app.sheetRowId.None? || app.sheetRowId.value == 0 then Err(NO_ROW_ID)
    else Overwritten(s, app.sheetRowId.value, EncodeRow(app, fmt))
  }

  /**
   * Reading back a row this module wrote gives the same title, company and
   * notes, the status unless it was empty, the email id cut to 16 characters,
   * and the row id of the position read.
   */
  lemma ReadBack(app: JobApplication, fmt: string -> string, index: nat, nowIso: string)
    ensures var d := DecodeRow(EncodeRow(app, fmt), index, nowIso);
            && d.jobTitle == app.jobTitle
            && d.companyName == app.companyName
            && d.status == (if app.status == "" then DEFAULT_STATUS else app.status)
            && d.emailId == Take(app.emailId, EMAIL_ID_CELL_LEN)
            && d.notes == NonEmpty(app.notes)
            && d.sheetRowId == Some(index + FIRST_DATA_ROW)
  {
  }

  /** Row ids on read are distinct, consecutive and start at 2. */
  lemma RowIdsConsecutive(rows: seq<Row>, nowIso: string, i: nat, j: nat)
    requires i < |rows| && j < |rows|
    ensures DecodeRows(rows, nowIso)[i].sheetRowId.value >= FIRST_DATA_ROW
    ensures DecodeRows(rows, nowIso)[j].sheetRowId.value - DecodeRows(rows, nowIso)[i].sheetRowId.value == j - i
  {
  }

  /** Every email id read back from rows this module wrote has at most 16 characters. */
  lemma StoredIdsAreShort(written: seq<JobApplication>, fmt: string -> string, nowIso: string, i: nat)
    requires i < |written|
    ensures var rows := seq(|written|, k requires 0 <= k < |written| => EncodeRow(written[k], fmt));
            |DecodeRows(rows, nowIso)[i].emailId| <= EMAIL_ID_CELL_LEN
  {
    ReadBack(written[i], fmt, i, nowIso);
  }

  /**
   * The spreadsheet behind the roster. The store is configured by the
   * `GOOGLE_SHEET_ID` environment variable; `apiOk` arguments stand for the
   * Sheets API accepting or rejecting a call.
   */
  class SheetStore {
    var sheetId: Option<string>
    var contents: Sheet

    constructor (sheetId: Option<string>, contents: Sheet)
      ensures this.sheetId == sheetId && this.contents == contents
    {
      this.sheetId := sheetId;
      this.contents := contents;
    }

    /** `getAllApplications`: the decoded data rows, or the error it throws. */
    method GetAllApplications(apiOk: bool, nowIso: string) returns (r: Result<seq<JobApplication>>)
      ensures !Truthy(sheetId) ==> r == Err(MISSING_SHEET_ID)
      ensures Truthy(sheetId) && !apiOk ==> r == Err(READ_FAILED)
      ensures Truthy(sheetId) && apiOk ==> r.Ok? && r.value == DecodeRows(contents.rows, nowIso)
    {
      if !Truthy(sheetId) {
        return Err(MISSING_SHEET_ID);
      }
      if !apiOk {
        return Err(READ_FAILED);
      }
      r := Ok(DecodeRows(contents.rows, nowIso));
    }

    /** `addApplication`: one row appended after the existing data, nothing else changed. */
    method AddApplication(app: JobApplication, fmt: string -> string, apiOk: bool) returns (r: Result<()>)
      modifies this`contents
      ensures !Truthy(sheetId) ==> r == Err(MISSING_SHEET_ID)
      ensures Truthy(sheetId) && !apiOk ==> r == Err(ADD_FAILED)
      ensures r.Ok? <==> Truthy(sheetId) && apiOk
      ensures contents == if r.Ok? then Appended(old(contents), EncodeRow(app, fmt)) else old(contents)
    {
      if !Truthy(sheetId) {
        return Err(MISSING_SHEET_ID);
      }
      if !apiOk {
        return Err(ADD_FAILED);
      }
      contents := Appended(contents, EncodeRow(app, fmt));
      r := Ok(());
    }

    /** `updateApplication`: the row-id check, the sheet-id check, then one overwrite at `A{sheetRowId}`. */
    method UpdateApplication(app: JobApplication, fmt: string -> string, apiOk: bool) returns (r: Result<()>)
      modifies this`contents
      ensures (app.sheetRowId.None? || app.sheetRowId.value == 0) ==> r == Err(NO_ROW_ID)
      ensures app.sheetRowId.Some? && app.sheetRowId.value != 0 && !Truthy(sheetId) ==> r == Err(MISSING_SHEET_ID)
      ensures app.sheetRowId.Some? && app.sheetRowId.value != 0 && Truthy(sheetId) && !apiOk ==> r == Err(UPDATE_FAILED)
      ensures r.Ok? <==> Truthy(sheetId) && apiOk && UpdatedSheet(old(contents), app, fmt).Ok?
      ensures contents == if r.Ok? then UpdatedSheet(old(contents), app, fmt).value else old(contents)
    {
      if app.sheetRowId.None? || app.sheetRowId.value == 0 {
        return Err(NO_ROW_ID);
      }
      if !Truthy(sheetId) {
        return Err(MISSING_SHEET_ID);
      }
      if !apiOk {
        return Err(UPDATE_FAILED);
      }
      var t := UpdatedSheet(contents, app, fmt);
      if t.Err? {
        return Err(t.msg);
      }
      contents := t.value;
      r := Ok(());
    }
  }
}
