/**
 * The lead import (src/app/api/leads/upload/route.ts): an admin uploads a
 * spreadsheet, and every parsed row either creates a lead or is counted as
 * failed with one error message.
 *
 * The spreadsheet parser and the database are outside the model: the parsed
 * rows are an input, the users are a map from stored email to user id, the
 * existing leads are the set of their (trimmed) phone numbers, and whether
 * `Lead.create` throws is a function of the lead it is given.
 */
module LeadsUpload {
  import opened Wrappers
  import opened JsStrings
  import opened Telephony

  /** A cell of a parsed row: absent, text, an integer number, or a boolean. */
  datatype Cell = Blank | Text(s: string) | Number(n: int) | Bool(b: bool)

  /** JavaScript truthiness of a cell. */
  predicate CellTruthy(c: Cell) {
    match c
    case Blank => false
    case Text(s) => s != ""
    case Number(n) => n != 0
    case Bool(b) => b
  }

  /** `cell.toString()` (and how a template literal prints it) for a present cell. */
  function CellText(c: Cell): string {
    match c
    case Blank => "undefined"
    case Text(s) => s
    case Number(n) => IntToString(n)
    case Bool(b) => if b then "true" else "false"
  }

  datatype Row = Row(name: Cell, phone: Cell, assignedToEmail: Cell, email: Cell, company: Cell,
                     address: Cell, city: Cell, state: Cell, zipCode: Cell)

  /** The lead statuses of src/types/index.ts. */
  datatype LeadStatus = New | Dialed | NotInterested | Callback | Interested | Dnc | Converted | Invalid

  /** The document the route passes to `Lead.create`. */
  datatype NewLead = NewLead(name: string, email: Option<string>, phone: string, company: Option<string>,
                             address: Option<string>, city: Option<string>, state: Option<string>,
                             zipCode: Option<string>, assignedTo: string, status: LeadStatus, score: int,
                             notes: string)

  /** `cell ? cell.toString().trim() : undefined`. */
  function OptionalField(c: Cell): Option<string> {
    if CellTruthy(c) then Some(Trim(CellText(c))) else None
  }

  /** What one row of the loop does. */
  datatype RowOutcome = LeadCreated(lead: NewLead) | RowFailed(message: string)

  /** The text every error message of row `i` (0-based) starts with: the spreadsheet's own row number. */
  function RowPrefix(i: nat): string {
    "Row " + NatToString(i + 2) + ": "
  }

  /** The texts of the row errors. */
  const MissingFieldsText := "Missing required fields (name, phone, or assignedToEmail)"
  const UserWithEmail := "User with email '"
  const NotFound := "' not found"
  const LeadWithPhone := "Lead with phone '"
  const AlreadyExists := "' already exists"

  /** The message V8 gives the `TypeError` of calling `toLowerCase` on a number or a boolean. */
  const NotAStringMessage := "row.assignedToEmail.toLowerCase is not a function"

  /** The lead a valid row creates, assigned to `userId`. */
  function LeadOf(row: Row, userId: string): NewLead {
    NewLead(Trim(CellText(row.name)), OptionalField(row.email), Trim(CellText(row.phone)),
            OptionalField(row.company), OptionalField(row.address), OptionalField(row.city),
            OptionalField(row.state), OptionalField(row.zipCode), userId, New, 0, "")
  }

  /** The checks of one row against the users and the phones of the leads stored so far. */
  datatype Check = Refused(detail: string) | Accepted(lead: NewLead)

  function CheckRow(row: Row, users: map<string, string>, phones: set<string>,
                    createError: NewLead -> Option<string>): Check
  {
    if !CellTruthy(row.name) || !CellTruthy(row.phone) || !CellTruthy(row.assignedToEmail) then
      Refused(MissingFieldsText)
    else if !row.assignedToEmail.Text? then
      Refused(NotAStringMessage)
    else
      var email := Trim(LowerAscii(row.assignedToEmail.s));
      if email !in users then
        Refused(UserWithEmail + row.assignedToEmail.s + NotFound)
      else if Trim(CellText(row.phone)) in phones then
        Refused(LeadWithPhone + CellText(row.phone) + AlreadyExists)
      else
        var lead := LeadOf(row, users[email]);
        match createError(lead)
        case Some(message) => Refused(message)
        case None => Accepted(lead)
  }

  /** One iteration of the loop, for row `i` (0-based): a failure's message names the spreadsheet row. */
  function RowResult(i: nat, row: Row, users: map<string, string>, phones: set<string>,
                     createError: NewLead -> Option<string>): RowOutcome
  {
    match CheckRow(row, users, phones, createError)
    case Refused(detail) => RowFailed(RowPrefix(i) + detail)
    case Accepted(lead) => LeadCreated(lead)
  }

  /** The loop's state: the `results` counters and errors, the stored phones, the leads created. */
  datatype Progress = Progress(successful: nat, failed: nat, errors: seq<string>, phones: set<string>,
                               created: seq<NewLead>)

  /** How one row's outcome updates the loop's state. */
  function Apply(p: Progress, r: RowOutcome): Progress {
    match r
    case LeadCreated(lead) => p.(successful := p.successful + 1, phones := p.phones + {lead.phone}, created := p.created + [lead])
    case RowFailed(message) => p.(failed := p.failed + 1, errors := p.errors + [message])
  }

  /** The phones of a sequence of leads. */
  function PhonesOf(leads: seq<NewLead>): set<string> {
    if leads == [] then {} else PhonesOf(leads[..|leads| - 1]) + {leads[|leads| - 1].phone}
  }

  /** What the loop does with row `i` given the phones stored so far. */
  type RowStep = (nat, Row, set<string>) -> RowOutcome

  /** The handler's own step: `RowResult` against the given users and database. */
  function Importer(users: map<string, string>, createError: NewLead -> Option<string>): RowStep {
    (i: nat, row: Row, stored: set<string>) => RowResult(i, row, users, stored, createError)
  }

  /** The state after the first `n` rows, each handled by `step` against the phones stored before it. */
  function ImportPrefix(rows: seq<Row>, n: nat, phones: set<string>, step: RowStep): Progress
    requires n <= |rows|
    decreases n
  {
    if n == 0 then Progress(0, 0, [], phones, [])
    else
      var p := ImportPrefix(rows, n - 1, phones, step);
      Apply(p, step(n - 1, rows[n - 1], p.phones))
  }

  /** The `results` object of the response. */
  datatype UploadResults = UploadResults(total: nat, successful: nat, failed: nat, errors: seq<string>)

  /** The loop of the handler: every row in order, each against the leads stored before it. */
  method ImportRows(rows: seq<Row>, users: map<string, string>, phones: set<string>,
                    createError: NewLead -> Option<string>)
    returns (results: UploadResults, stored: set<string>, created: seq<NewLead>)
    ensures var p := ImportPrefix(rows, |rows|, phones, Importer(users, createError));
      results == UploadResults(|rows|, p.successful, p.failed, p.errors) && stored == p.phones && created == p.created
    ensures results.successful + results.failed == results.total
    ensures |results.errors| == results.failed && |created| == results.successful
  {
    results := UploadResults(|rows|, 0, 0, []);
    stored := phones;
    created := [];
    for i := 0 to |rows|
      invariant Progress(results.successful, results.failed, results.errors, stored, created)
                == ImportPrefix(rows, i, phones, Importer(users, createError))
      invariant results.total == |rows|
    {
      ghost var before := Progress(results.successful, results.failed, results.errors, stored, created);
      var r := RowResult(i, rows[i], users, stored, createError);
      ApplyEffect(before, r);
      match r {
        case LeadCreated(lead) =>
          stored := stored + {lead.phone};
          created := created + [lead];
          results := results.(successful := results.successful + 1);
        case RowFailed(message) =>
          results := results.(failed := results.failed + 1, errors := results.errors + [message]);
      }
    }
    CountsAddUp(rows, |rows|, phones, Importer(users, createError));
  }

  /** The responses of the handler. */
  datatype UploadResponse = Unauthorized | NoFile | EmptyFile | Completed(results: UploadResults)

  /**
   * `POST`: only an admin may upload; a missing file and a file without rows
   * are refused before anything is stored; otherwise every row is imported.
   */
  method Post(session: Option<Session>, upload: Option<seq<Row>>, users: map<string, string>, phones: set<string>,
              createError: NewLead -> Option<string>)
    returns (response: UploadResponse, stored: set<string>, created: seq<NewLead>)
    ensures session.None? || session.value.role != "admin" ==> response == Unauthorized
    ensures session.Some? && session.value.role == "admin" && upload.None? ==> response == NoFile
    ensures session.Some? && session.value.role == "admin" && upload == Some([]) ==> response == EmptyFile
    ensures session.Some? && session.value.role == "admin" && upload.Some? && |upload.value| > 0 ==> response.Completed?
    ensures !response.Completed? ==> stored == phones && created == []
    ensures response.Completed? ==>
      && session.Some? && session.value.role == "admin" && upload.Some? && |upload.value| > 0
      && var p := ImportPrefix(upload.value, |upload.value|, phones, Importer(users, createError));
      && response.results == UploadResults(|upload.value|, p.successful, p.failed, p.errors)
      && stored == p.phones && created == p.created
  {
    stored, created := phones, [];
    if session.None? || session.value.role != "admin" {
      return Unauthorized, stored, created;
    }
    if upload.None? {
      return NoFile, stored, created;
    }
    var rows := upload.value;
    if |rows| == 0 {
      return EmptyFile, stored, created;
    }
    var results;
    results, stored, created := ImportRows(rows, users, phones, createError);
    response := Completed(results);
  }

  // ── What the import promises ───────────────────────────────────────────────

  /**
   * Every row is counted once: successes and failures add up to the rows
   * seen, each failure left exactly one message, each success one lead, and
   * the stored phones are the old ones plus those of the created leads.
   */
  lemma {:induction false} CountsAddUp(rows: seq<Row>, n: nat, phones: set<string>, step: RowStep)
    requires n <= |rows|
    ensures var p := ImportPrefix(rows, n, phones, step);
      && p.successful + p.failed == n
      && |p.errors| == p.failed && |p.created| == p.successful
  {
    if n > 0 {
      CountsAddUp(rows, n - 1, phones, step);
      var q := ImportPrefix(rows, n - 1, phones, step);
      ApplyEffect(q, step(n - 1, rows[n - 1], q.phones));
    }
  }

  /** The stored phones are the old ones plus those of the created leads. */
  lemma {:induction false} StoredPhones(rows: seq<Row>, n: nat, phones: set<string>, step: RowStep)
    requires n <= |rows|
    ensures var p := ImportPrefix(rows, n, phones, step);
      p.phones == phones + PhonesOf(p.created)
  {
    if n > 0 {
      StoredPhones(rows, n - 1, phones, step);
      var q := ImportPrefix(rows, n - 1, phones, step);
      ApplyEffect(q, step(n - 1, rows[n - 1], q.phones));
    }
  }

  /** A failed row adds exactly one message and no lead; a created row adds its lead and its phone. */
  lemma ApplyEffect(p: Progress, r: RowOutcome)
    ensures var q := Apply(p, r);
      && (r.RowFailed? ==>
            && q.failed == p.failed + 1 && q.successful == p.successful
            && q.errors == p.errors + [r.message] && q.phones == p.phones && q.created == p.created)
      && (r.LeadCreated? ==>
            && q.successful == p.successful + 1 && q.failed == p.failed && q.errors == p.errors
            && q.phones == p.phones + {r.lead.phone} && q.created == p.created + [r.lead])
      && PhonesOf(q.created) == PhonesOf(p.created) + (if r.LeadCreated? then {r.lead.phone} else {})
  {
    if r.LeadCreated? {
      assert (p.created + [r.lead])[..|p.created|] == p.created;
    }
  }

  /** Every error message of a row names its spreadsheet row. */
  lemma ErrorNamesRow(i: nat, row: Row, users: map<string, string>, phones: set<string>,
                      createError: NewLead -> Option<string>)
    ensures var r := RowResult(i, row, users, phones, createError);
      r.RowFailed? ==> StartsWith(r.message, RowPrefix(i))
  {
    var c := CheckRow(row, users, phones, createError);
    if c.Refused? {
      assert (RowPrefix(i) + c.detail)[..|RowPrefix(i)|] == RowPrefix(i);
    }
  }

  /**
   * A row without a name, a phone or an assignee fails with the same message
   * whatever the users, the stored leads and the database do: nothing is
   * looked up or created for it.
   */
  lemma MissingFieldsFail(i: nat, row: Row, users: map<string, string>, phones: set<string>,
                          createError: NewLead -> Option<string>, users': map<string, string>,
                          phones': set<string>, createError': NewLead -> Option<string>)
    requires !CellTruthy(row.name) || !CellTruthy(row.phone) || !CellTruthy(row.assignedToEmail)
    ensures RowResult(i, row, users, phones, createError)
         == RowFailed(RowPrefix(i) + MissingFieldsText)
    ensures RowResult(i, row, users, phones, createError) == RowResult(i, row, users', phones', createError')
  {
  }

  /** The assignee is looked up by the lowercased, trimmed email; an unknown one fails the row. */
  lemma UnknownAssigneeFails(i: nat, row: Row, users: map<string, string>, phones: set<string>,
                             createError: NewLead -> Option<string>)
    requires CellTruthy(row.name) && CellTruthy(row.phone) && row.assignedToEmail.Text? && row.assignedToEmail.s != ""
    requires Trim(LowerAscii(row.assignedToEmail.s)) !in users
    ensures RowResult(i, row, users, phones, createError)
         == RowFailed(RowPrefix(i) + (UserWithEmail + row.assignedToEmail.s + NotFound))
  {
  }

  /** What an accepted row has passed: a text assignee that is a user, a new phone, and a lead the database took. */
  lemma AcceptedRow(row: Row, users: map<string, string>, phones: set<string>, createError: NewLead -> Option<string>)
    requires CheckRow(row, users, phones, createError).Accepted?
    ensures row.assignedToEmail.Text? && Trim(LowerAscii(row.assignedToEmail.s)) in users
    ensures var lead := LeadOf(row, users[Trim(LowerAscii(row.assignedToEmail.s))]);
      && CheckRow(row, users, phones, createError).lead == lead
      && Trim(CellText(row.phone)) !in phones && createError(lead) == None
  {
    var c := CheckRow(row, users, phones, createError);
    assert !CellTruthy(row.name) || !CellTruthy(row.phone) || !CellTruthy(row.assignedToEmail) ==> c.Refused?;
    assert !row.assignedToEmail.Text? ==> c.Refused?;
    assert row.assignedToEmail.Text? && Trim(LowerAscii(row.assignedToEmail.s)) !in users ==> c.Refused?;
  }

  /** A created lead is assigned to the user stored under the lowercased, trimmed email. */
  lemma CreatedLeadAssignee(i: nat, row: Row, users: map<string, string>, phones: set<string>,
                            createError: NewLead -> Option<string>)
    requires RowResult(i, row, users, phones, createError).LeadCreated?
    ensures row.assignedToEmail.Text? && Trim(LowerAscii(row.assignedToEmail.s)) in users
    ensures RowResult(i, row, users, phones, createError).lead.assignedTo == users[Trim(LowerAscii(row.assignedToEmail.s))]
  {
    assert CheckRow(row, users, phones, createError).Accepted?;
    AcceptedRow(row, users, phones, createError);
  }

  /** A truthy number or boolean in the assignee column is not a string: the row fails with the runtime's message. */
  lemma NonTextAssigneeFails(i: nat, row: Row, users: map<string, string>, phones: set<string>,
                             createError: NewLead -> Option<string>)
    requires CellTruthy(row.name) && CellTruthy(row.phone) && CellTruthy(row.assignedToEmail)
    requires row.assignedToEmail.Number? || row.assignedToEmail.Bool?
    ensures RowResult(i, row, users, phones, createError) == RowFailed(RowPrefix(i) + NotAStringMessage)
  {
  }

  /**
   * A created lead has status "new", score 0, no notes, the trimmed text of
   * its cells, nothing for a falsy optional cell, and a phone not stored before.
   */
  lemma CreatedLeadShape(i: nat, row: Row, users: map<string, string>, phones: set<string>,
                         createError: NewLead -> Option<string>)
    requires RowResult(i, row, users, phones, createError).LeadCreated?
    ensures var lead := RowResult(i, row, users, phones, createError).lead;
      && lead.status == New && lead.score == 0 && lead.notes == ""
      && lead.name == Trim(CellText(row.name)) && lead.phone == Trim(CellText(row.phone))
      && lead.phone !in phones
      && (CellTruthy(row.email) ==> lead.email == Some(Trim(CellText(row.email))))
      && (!CellTruthy(row.email) ==> lead.email == None)
      && (!CellTruthy(row.company) ==> lead.company == None)
      && createError(lead) == None
  {
    assert CheckRow(row, users, phones, createError).Accepted?;
    AcceptedRow(row, users, phones, createError);
  }

  /** The stored phones only grow along the rows. */
  lemma {:induction false} PhonesGrow(rows: seq<Row>, a: nat, b: nat, phones: set<string>, step: RowStep)
    requires a <= b <= |rows|
    ensures ImportPrefix(rows, a, phones, step).phones <= ImportPrefix(rows, b, phones, step).phones
    decreases b - a
  {
    if a < b {
      PhonesGrow(rows, a, b - 1, phones, step);
    }
  }

  /** The phone of a lead created at row `j` is stored from then on. */
  lemma CreatedPhoneStored(rows: seq<Row>, j: nat, k: nat, phones: set<string>, step: RowStep)
    requires j < k <= |rows|
    requires step(j, rows[j], ImportPrefix(rows, j, phones, step).phones).LeadCreated?
    ensures step(j, rows[j], ImportPrefix(rows, j, phones, step).phones).lead.phone
            in ImportPrefix(rows, k, phones, step).phones
  {
    var q := ImportPrefix(rows, j, phones, step);
    ApplyEffect(q, step(j, rows[j], q.phones));
    PhonesGrow(rows, j + 1, k, phones, step);
  }

  /** A row whose trimmed phone is already stored (and whose assignee is known) fails as a duplicate. */
  lemma StoredPhoneFails(i: nat, row: Row, users: map<string, string>, phones: set<string>,
                         createError: NewLead -> Option<string>)
    requires CellTruthy(row.name) && CellTruthy(row.phone) && row.assignedToEmail.Text? && row.assignedToEmail.s != ""
    requires Trim(LowerAscii(row.assignedToEmail.s)) in users
    requires Trim(CellText(row.phone)) in phones
    ensures RowResult(i, row, users, phones, createError)
         == RowFailed(RowPrefix(i) + (LeadWithPhone + CellText(row.phone) + AlreadyExists))
  {
  }

  /**
   * A phone created earlier in the same upload counts as existing: a later
   * row with that trimmed phone (and a known assignee) fails as a duplicate.
   */
  lemma DuplicateWithinUpload(rows: seq<Row>, j: nat, k: nat, users: map<string, string>, phones: set<string>,
                              createError: NewLead -> Option<string>)
    requires j < k < |rows|
    requires var stored := ImportPrefix(rows, j, phones, Importer(users, createError)).phones;
      RowResult(j, rows[j], users, stored, createError).LeadCreated?
    requires CellTruthy(rows[k].name) && rows[k].assignedToEmail.Text? && rows[k].assignedToEmail.s != ""
    requires Trim(LowerAscii(rows[k].assignedToEmail.s)) in users
    requires Trim(CellText(rows[k].phone)) == Trim(CellText(rows[j].phone)) && CellTruthy(rows[k].phone)
    ensures var stored := ImportPrefix(rows, k, phones, Importer(users, createError)).phones;
      RowResult(k, rows[k], users, stored, createError)
        == RowFailed(RowPrefix(k) + (LeadWithPhone + CellText(rows[k].phone) + AlreadyExists))
  {
    var step := Importer(users, createError);
    var before := ImportPrefix(rows, j, phones, step).phones;
    CreatedPhoneStored(rows, j, k, phones, step);
    CreatedLeadShape(j, rows[j], users, before, createError);
    StoredPhoneFails(k, rows[k], users, ImportPrefix(rows, k, phones, step).phones, createError);
  }
}
