/** The `POST /api/send-email` handler: validation, the email-provider configuration
    gate, the notification email, the spreadsheet append on email success only, and
    the JSON response; and the middleware-then-route pipeline in front of it. */
module Handler {
  import opened Wrappers
  import opened Js
  import opened Lead
  import opened Email
  import opened Effects
  import opened Sheets
  import Cors

  const RequiredMessage: string := "Name and email are required"
  const NotConfiguredMessage: string := "Email service not configured. Please contact administrator."
  const ProviderRejectedMessage: string := "Failed to send email via Resend."
  const UnknownProviderError: string := "Unknown Resend error"
  const SendFailedMessage: string := "Failed to send email. Please try again later."
  const SentMessage: string := "Email sent successfully! We will contact you soon."

  /** What the email provider's `send` call produced: a `data` object with its `id`, an
      `error` object with its `message`, or a thrown exception. */
  datatype EmailOutcome =
    | Delivered(id: Value)
    | ProviderError(errorMessage: Value)
    | SendThrew(thrown: string)

  /** Everything the handler depends on that it does not compute: the provider and
      spreadsheet outcomes, the client timestamp as rendered in Asia/Kolkata, and the two
      clock readings taken in the handler (email footer, response). */
  datatype World = World(
    email: EmailOutcome,
    sheet: SheetWorld,
    submittedAt: string,
    emailMillis: nat,
    responseMillis: nat)

  /** The JSON (or text) body of a response; an `Undefined` field is left out of the JSON. */
  datatype Payload =
    | Text(text: string)
    | Failure(message: string, error: Value)
    | Success(message: string, emailId: Value, leadId: string, googleSheets: bool, googleSheetsError: Value)
    | NoRoute

  datatype Response = Response(status: nat, payload: Payload)

  /** A handled request: the response, and every external call made, in order. */
  datatype Outcome = Outcome(response: Response, calls: seq<Call>)

  /** Which `appendToSheet` the handler awaits: the one whose catch block only logs,
      or the one as written, whose catch block can throw. */
  datatype Appender = Corrected | AsWritten

  function RunAppender(a: Appender, env: Env, b: Submission, w: SheetWorld): SheetRun<Completion<SheetResult>> {
    match a
    case Corrected =>
      var run := AppendToSheet(env, b, w);
      SheetRun(Returned(run.result), run.calls)
    case AsWritten => AppendToSheetAsWritten(env, b, w)
  }

  /** `googleSheetsError`: `null` on success, otherwise `result.message || result.error`. */
  function SheetsError(r: SheetResult): (e: Value)
    ensures e == Null <==> r.Success()
    ensures (r.NotConfigured? || r.CredentialError?) && r.reason != "" ==> e == Str(r.reason)
    ensures r.CredentialError? && r.reason == "" ==> e == Str(r.cause)
    ensures r.AppendFailed? ==> e == Str(r.cause)
  {
    if r.Success() then Null else Or(r.Message(), r.Error())
  }

  /** The handler, parameterised by which `appendToSheet` it awaits. */
  function Submit(b: Submission, env: Env, w: World, a: Appender): (o: Outcome)
    ensures !HasRequiredFields(b) ==> o == Outcome(Response(400, Failure(RequiredMessage, Undefined)), [])
    ensures HasRequiredFields(b) && !EmailKeyConfigured(env) ==>
      o == Outcome(Response(500, Failure(NotConfiguredMessage, Undefined)), [])
  {
    if !HasRequiredFields(b) then
      Outcome(Response(400, Failure(RequiredMessage, Undefined)), [])
    else if !EmailKeyConfigured(env) then
      Outcome(Response(500, Failure(NotConfiguredMessage, Undefined)), [])
    else
      var sent := [SendEmail(Compose(b, w.submittedAt, w.emailMillis))];
      match w.email
      case ProviderError(m) =>
        Outcome(Response(500, Failure(ProviderRejectedMessage, Str(OrElse(m, UnknownProviderError)))), sent)
      case SendThrew(m) =>
        Outcome(Response(500, Failure(SendFailedMessage, Str(m))), sent)
      case Delivered(id) =>
        var run := RunAppender(a, env, b, w.sheet);
        var calls := sent + [InvokeAppendToSheet] + run.calls;
        match run.result
        case Threw(m) =>
          Outcome(Response(500, Failure(SendFailedMessage, Str(m))), calls)
        case Returned(r) =>
          Outcome(Response(200, Success(SentMessage, id, LeadId(w.responseMillis), r.Success(), SheetsError(r))), calls)
  }

  /** The handler with an `appendToSheet` that never throws. */
  function Handle(b: Submission, env: Env, w: World): (o: Outcome)
    // validation comes first and makes no call
    ensures !HasRequiredFields(b) ==> o.response == Response(400, Failure(RequiredMessage, Undefined)) && o.calls == []
    // then the provider key gate, again without any call
    ensures HasRequiredFields(b) && !EmailKeyConfigured(env) ==>
      o.response == Response(500, Failure(NotConfiguredMessage, Undefined)) && o.calls == []
    // past both gates, the email is sent exactly once, first
    ensures HasRequiredFields(b) && EmailKeyConfigured(env) ==>
      |o.calls| >= 1 && o.calls[0] == SendEmail(Compose(b, w.submittedAt, w.emailMillis)) &&
      Count(o.calls, SendEmailKind) == 1
    // a provider-reported error and a thrown send each end the request with its own 500
    ensures HasRequiredFields(b) && EmailKeyConfigured(env) && w.email.ProviderError? ==>
      o.response == Response(500, Failure(ProviderRejectedMessage, Str(OrElse(w.email.errorMessage, UnknownProviderError))))
    ensures HasRequiredFields(b) && EmailKeyConfigured(env) && w.email.SendThrew? ==>
      o.response == Response(500, Failure(SendFailedMessage, Str(w.email.thrown)))
    // the sheet is recorded only after a delivered email, and then exactly once
    ensures Count(o.calls, InvokeAppendKind) == (if o.response.status == 200 then 1 else 0)
    ensures o.response.status != 200 ==> Count(o.calls, AppendRowKind) == 0
    ensures o.response.status == 200 <==> HasRequiredFields(b) && EmailKeyConfigured(env) && w.email.Delivered?
    // an email that was not delivered is the only call
    ensures HasRequiredFields(b) && EmailKeyConfigured(env) && !w.email.Delivered? ==>
      o.calls == [SendEmail(Compose(b, w.submittedAt, w.emailMillis))]
  {
    CorrectedCounts(b, env, w);
    Submit(b, env, w, Corrected)
  }

  /** The call counts of the handler with the non-throwing `appendToSheet`. */
  lemma CorrectedCounts(b: Submission, env: Env, w: World)
    ensures var o := Submit(b, env, w, Corrected);
      (HasRequiredFields(b) && EmailKeyConfigured(env) ==> Count(o.calls, SendEmailKind) == 1) &&
      Count(o.calls, InvokeAppendKind) == (if o.response.status == 200 then 1 else 0) &&
      (o.response.status != 200 ==> Count(o.calls, AppendRowKind) == 0)
  {
    if HasRequiredFields(b) && EmailKeyConfigured(env) {
      var sent := [SendEmail(Compose(b, w.submittedAt, w.emailMillis))];
      var run := AppendToSheet(env, b, w.sheet);
      CountShort(sent, SendEmailKind);
      CountShort(sent, InvokeAppendKind);
      CountShort(sent, AppendRowKind);
      if w.email.Delivered? {
        CountConcat(sent + [InvokeAppendToSheet], run.calls, SendEmailKind);
        CountConcat(sent + [InvokeAppendToSheet], run.calls, InvokeAppendKind);
        CountShort(sent + [InvokeAppendToSheet], SendEmailKind);
        CountShort(sent + [InvokeAppendToSheet], InvokeAppendKind);
      }
    }
  }

  /** After a delivered email the answer is 200 whatever the spreadsheet did; the
      spreadsheet outcome only shows up in `googleSheets` and `googleSheetsError`. */
  lemma DeliveredIsSuccess(b: Submission, env: Env, w: World)
    requires HasRequiredFields(b) && EmailKeyConfigured(env)
    requires w.email.Delivered?
    ensures var o := Handle(b, env, w);
      var r := AppendToSheet(env, b, w.sheet).result;
      o.response.status == 200 &&
      o.response.payload == Success(SentMessage, w.email.id, LeadId(w.responseMillis), r.Success(), SheetsError(r)) &&
      (!r.Success() ==> o.response.payload.googleSheetsError.Str?) &&
      IsLeadId(o.response.payload.leadId) &&
      LeadMillis(o.response.payload.leadId) == w.responseMillis
    // the send, then `appendToSheet` with the submission, and nothing else
    ensures Handle(b, env, w).calls ==
      [SendEmail(Compose(b, w.submittedAt, w.emailMillis)), InvokeAppendToSheet] + AppendToSheet(env, b, w.sheet).calls
  {
    LeadIdRoundTrip(w.responseMillis);
  }

  /** The request's outcome does not depend on the spreadsheet when the email fails,
      and the status does not depend on it when the email is delivered. */
  lemma SheetNeverDecidesStatus(b: Submission, env: Env, w: World, sheet: SheetWorld)
    ensures Handle(b, env, w).response.status == Handle(b, env, w.(sheet := sheet)).response.status
    ensures !w.email.Delivered? ==> Handle(b, env, w) == Handle(b, env, w.(sheet := sheet))
  {
  }

  /** The pipeline in front of the handler: the CORS middleware, then the route. */
  datatype Served = Served(status: nat, headers: map<string, string>, payload: Payload, calls: seq<Call>, routed: bool)

  /** A request to `/api/send-email`. A preflight is answered by the middleware with
      `sendStatus(200)`; a `POST` reaches the handler; any other method falls through
      to the framework's 404. */
  function Serve(req: Cors.Request, b: Submission, env: Env, w: World): (s: Served)
    ensures s.headers == Cors.Apply(req).headers
    ensures req.verb == "OPTIONS" ==> s.status == 200 && s.payload == Text("OK") && s.calls == [] && !s.routed
    ensures s.routed <==> req.verb == "POST"
    ensures s.routed ==> Response(s.status, s.payload) == Handle(b, env, w).response && s.calls == Handle(b, env, w).calls
    ensures !s.routed ==> s.calls == []
  {
    var d := Cors.Apply(req);
    if d.preflight then
      Served(200, d.headers, Text("OK"), [], false)
    else if req.verb == "POST" then
      var o := Handle(b, env, w);
      Served(o.response.status, d.headers, o.response.payload, o.calls, true)
    else
      Served(404, d.headers, NoRoute, [], false)
  }

  /** With the catch block as written, a spreadsheet permission error after a delivered
      email turns into a 500 "Failed to send email" although the email went out; with a
      catch block that only logs, the same inputs give 200 and report the sheet error. */
  lemma PermissionErrorAfterDelivery(b: Submission, env: Env, w: World)
    requires HasRequiredFields(b) && EmailKeyConfigured(env) && w.email.Delivered?
    requires Truthy(env.sheetsId) && ChosenSource(env).Some? && OutcomeOf(w.sheet, ChosenSource(env).value).Parsed?
    requires w.sheet.append.AppendThrew? && Contains(w.sheet.append.message, PermissionPhrase)
    ensures var o := Submit(b, env, w, AsWritten);
      o.response == Response(500, Failure(SendFailedMessage, Str(UndeclaredCredentialsMessage))) &&
      Count(o.calls, SendEmailKind) == 1 && Count(o.calls, AppendRowKind) == 1
    ensures var o := Handle(b, env, w);
      o.response.status == 200 && o.response.payload.Success? &&
      !o.response.payload.googleSheets &&
      o.response.payload.googleSheetsError == Str(w.sheet.append.message)
  {
    var sent := [SendEmail(Compose(b, w.submittedAt, w.emailMillis))];
    var run := AppendToSheetAsWritten(env, b, w.sheet);
    var plain := AppendToSheet(env, b, w.sheet);
    assert run.calls == plain.calls;
    CountConcat(sent + [InvokeAppendToSheet], run.calls, SendEmailKind);
    CountConcat(sent + [InvokeAppendToSheet], run.calls, AppendRowKind);
    CountShort(sent + [InvokeAppendToSheet], SendEmailKind);
    CountShort(sent + [InvokeAppendToSheet], AppendRowKind);
  }

  /** The case in which the catch block as written throws: the append ran and failed
      with a message that mentions missing permission. */
  predicate PermissionFailure(b: Submission, env: Env, w: World) {
    Count(AppendToSheet(env, b, w.sheet).calls, AppendRowKind) == 1 &&
    w.sheet.append.AppendThrew? && Contains(w.sheet.append.message, PermissionPhrase)
  }

  /** The handler as written agrees with `Handle` on every input except a permission
      failure after delivery; its status is 200 exactly when both gates pass, the email
      is delivered and the append did not fail that way. */
  lemma AsWrittenHandler(b: Submission, env: Env, w: World)
    ensures !(HasRequiredFields(b) && EmailKeyConfigured(env) && w.email.Delivered? && PermissionFailure(b, env, w)) ==>
      Submit(b, env, w, AsWritten) == Handle(b, env, w)
    ensures Submit(b, env, w, AsWritten).response.status == 200 <==>
      HasRequiredFields(b) && EmailKeyConfigured(env) && w.email.Delivered? && !PermissionFailure(b, env, w)
  {
  }

  /** Google's permission-denied message is one such error. */
  lemma CallerLacksPermission()
    ensures Contains("The caller does not have permission", PermissionPhrase)
  {
    ContainsInfix("The caller ", PermissionPhrase, "");
    assert "The caller " + PermissionPhrase + "" == "The caller does not have permission";
  }

  /** A sample lead `{name: "Asha", email: "a@b.com", city: "Pune"}`. */
  function Asha(): Submission {
    Submission(Str("Asha"), Str("a@b.com"), Undefined, Str("Pune"), Undefined, Undefined, None, Undefined, Undefined)
  }

  /** For the sample lead the subject names Asha, "Direct Visit" and Pune, and the
      message column of the row is empty. */
  lemma AshaEmailAndRow(timestamp: string, millis: nat)
    ensures Subject(Asha()) == SubjectPrefix + "Asha from Direct Visit - Pune"
    ensures BuildRow(timestamp, Asha(), millis)[6] == ""
  {
  }
}
