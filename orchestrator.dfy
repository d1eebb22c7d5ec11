/**
 * The submission sequence run when "Generate Google Form" is pressed: create
 * the form, add its items, file it into the shared folder (a failure there is
 * only a warning), log the audit row, and report the link. The remote calls
 * are not executed here: their outcomes are given in a `Services` value.
 */
module Orchestrator {
  import opened Wrappers
  import opened FormsApi
  import opened FormBuilder

  const DestinationFolderId := "1moTA94vOTorwpnUpGQZnKz5-5S9jYeBw"

  const LinkPrefix := "https://docs.google.com/forms/d/"
  const LinkSuffix := "/viewform"

  /** The public view link of a form. */
  function FormLink(formId: string): (r: string)
    ensures |r| == |LinkPrefix| + |formId| + |LinkSuffix|
    ensures r[..|LinkPrefix|] == LinkPrefix
    ensures r[|LinkPrefix|..|LinkPrefix| + |formId|] == formId
    ensures r[|LinkPrefix| + |formId|..] == LinkSuffix
  {
    LinkPrefix + formId + LinkSuffix
  }

  /** The form id a view link names, if it has the view-link shape. */
  function ParseFormLink(link: string): (r: Option<string>)
    ensures r.Some? ==> |r.value| == |link| - |LinkPrefix| - |LinkSuffix|
  {
    if |link| >= |LinkPrefix| + |LinkSuffix|
       && link[..|LinkPrefix|] == LinkPrefix
       && link[|link| - |LinkSuffix|..] == LinkSuffix
    then Some(link[|LinkPrefix|..|link| - |LinkSuffix|])
    else None
  }

  lemma ParseFormLinkOfFormLink(formId: string)
    ensures ParseFormLink(FormLink(formId)) == Some(formId)
  {
  }

  lemma FormLinkOfParseFormLink(link: string, formId: string)
    requires ParseFormLink(link) == Some(formId)
    ensures FormLink(formId) == link
  {
  }

  /** Distinct forms get distinct links. */
  lemma FormLinkInjective(id1: string, id2: string)
    requires FormLink(id1) == FormLink(id2)
    ensures id1 == id2
  {
  }

  /** One row of the "Pre-Post Test" audit sheet. */
  datatype AuditRow = AuditRow(
    timestamp: string, trainerName: string, collegeName: string,
    testTitle: string, formLink: string)

  /** The cells appended to the sheet, in column order. */
  function RowCells(row: AuditRow): (r: seq<string>)
    ensures |r| == 5
  {
    [row.timestamp, row.trainerName, row.collegeName, row.testTitle, row.formLink]
  }

  /** Reads a five-cell sheet row back as an audit row. */
  function RowOf(cells: seq<string>): (r: Option<AuditRow>)
    ensures r.Some? <==> |cells| == 5
  {
    if |cells| == 5 then Some(AuditRow(cells[0], cells[1], cells[2], cells[3], cells[4])) else None
  }

  lemma RowOfRowCells(row: AuditRow)
    ensures RowOf(RowCells(row)) == Some(row)
  {
  }

  lemma RowCellsOfRowOf(cells: seq<string>)
    requires |cells| == 5
    ensures RowCells(RowOf(cells).value) == cells
  {
  }

  /** What the trainer entered, handed to the submission once. */
  datatype FormSubmission = FormSubmission(
    trainerName: string, collegeName: string, testTitle: string,
    questions: seq<Question>)

  /** Outcomes of the four remote calls, in the order they are made. */
  datatype Services = Services(
    create: Result<string, string>,
    batchUpdate: Outcome<string>,
    move: Outcome<string>,
    appendRow: Outcome<string>)

  /** The remote calls made and the messages shown, in order. */
  datatype Effect =
    | CreateForm(info: FormInfo)
    | BatchUpdate(formId: string, requests: seq<Request>)
    | AddParents(fileId: string, folderId: string)
    | ShowInfo(text: string)
    | ShowWarning(text: string)
    | AppendRow(cells: seq<string>)
    | ShowSuccess(text: string)
    | ShowMarkdown(text: string)

  /** An error raised by a call aborts the run; otherwise the link is reported. */
  datatype RunResult = Aborted(error: string) | Reported(link: string, filed: bool)

  const MovedNotice := "Form has been moved to your specified Google Drive folder."
  const MoveWarningPrefix := "Could not move form to the folder: "
  const SuccessNotice := "\U{2705} Google Form created successfully!"

  const LinkLabel := "\U{1F517} [Click here to open your form]("

  /** The markdown shown on success: the link label, then the link, then ")". */
  function LinkMarkdown(link: string): (r: string)
    ensures |r| == |LinkLabel| + |link| + 1
    ensures r[..|LinkLabel|] == LinkLabel
    ensures r[|LinkLabel|..|LinkLabel| + |link|] == link
    ensures r[|LinkLabel| + |link|..] == ")"
  {
    LinkLabel + link + ")"
  }

  /** The link a success markdown shows, if the text has that shape. */
  function LinkInMarkdown(text: string): (r: Option<string>)
    ensures r.Some? ==> |r.value| == |text| - |LinkLabel| - 1
  {
    if |text| >= |LinkLabel| + 1 && text[..|LinkLabel|] == LinkLabel && text[|text| - 1] == ')'
    then Some(text[|LinkLabel|..|text| - 1])
    else None
  }

  lemma LinkInMarkdownOfLinkMarkdown(link: string)
    ensures LinkInMarkdown(LinkMarkdown(link)) == Some(link)
  {
  }

  /** Creating the form and adding its items succeeded, so the audit append is attempted. */
  predicate ReachesAudit(services: Services)
  {
    services.create.Ok? && services.batchUpdate.Pass?
  }

  method Submit(sub: FormSubmission, timestamp: string, services: Services)
    returns (trace: seq<Effect>, result: RunResult)
    // the form shell is always requested first, with the composed title
    ensures |trace| >= 1 && trace[0] == CreateForm(NewForm(sub.testTitle, sub.collegeName))
    // a failed create aborts before anything else
    ensures services.create.Err? ==>
      trace == [trace[0]] && result == Aborted(services.create.error)
    // the items go to the new form in one batch, built from the questions
    ensures services.create.Ok? ==>
      |trace| >= 2 && trace[1] == BatchUpdate(services.create.value, RequestsFor(sub.questions))
    ensures services.create.Ok? && services.batchUpdate.Fail? ==>
      |trace| == 2 && result == Aborted(services.batchUpdate.error)
    // filing is attempted, its failure only warns, and the audit row follows either way
    ensures ReachesAudit(services) ==>
      |trace| >= 5 &&
      trace[2] == AddParents(services.create.value, DestinationFolderId) &&
      trace[3] == (if services.move.Pass? then ShowInfo(MovedNotice)
                   else ShowWarning(MoveWarningPrefix + services.move.error)) &&
      trace[4] == AppendRow(RowCells(AuditRow(timestamp, sub.trainerName, sub.collegeName,
                                              sub.testTitle, FormLink(services.create.value))))
    ensures (exists k :: 0 <= k < |trace| && trace[k].AppendRow?) <==> ReachesAudit(services)
    ensures ReachesAudit(services) && services.appendRow.Fail? ==>
      |trace| == 5 && result == Aborted(services.appendRow.error)
    // success is reported exactly when create, add items and append succeed
    ensures result.Reported? <==> ReachesAudit(services) && services.appendRow.Pass?
    ensures result.Reported? ==>
      result.link == FormLink(services.create.value) &&
      result.filed == services.move.Pass? &&
      |trace| == 7 &&
      trace[5..] == [ShowSuccess(SuccessNotice), ShowMarkdown(LinkMarkdown(result.link))]
  {
    var newForm := NewForm(sub.testTitle, sub.collegeName);
    trace := [CreateForm(newForm)];
    if services.create.Err? {
      return trace, Aborted(services.create.error);
    }
    var formId := services.create.value;

    var requests := BuildRequests(sub.questions);
    trace := trace + [BatchUpdate(formId, requests)];
    if services.batchUpdate.Fail? {
      return trace, Aborted(services.batchUpdate.error);
    }
    var formLink := FormLink(formId);

    trace := trace + [AddParents(formId, DestinationFolderId)];
    var filed := services.move.Pass?;
    if filed {
      trace := trace + [ShowInfo(MovedNotice)];
    } else {
      trace := trace + [ShowWarning(MoveWarningPrefix + services.move.error)];
    }

    var row := AuditRow(timestamp, sub.trainerName, sub.collegeName, sub.testTitle, formLink);
    trace := trace + [AppendRow(RowCells(row))];
    if services.appendRow.Fail? {
      return trace, Aborted(services.appendRow.error);
    }

    trace := trace + [ShowSuccess(SuccessNotice), ShowMarkdown(LinkMarkdown(formLink))];
    result := Reported(formLink, filed);
  }
}
